/** How one attempt's exchange, its session's settlement and its evidence become the one final result. */
module ClaudeOutcome {
  import opened Prelude
  import opened ClaudeQuota
  import X = ClaudeExchange
  import S = ClientSettlement

  /** A course that ended before there was a session, or the end of an exchange. */
  datatype Course = Denied | NotAdmitted | NeverStarted(fault: X.Fault) | Ran(end: X.End)

  /** Closing the session; a cancellation that arrives meanwhile is caught by no handler. */
  datatype Closing = CloseFails | CloseCancelled | Closed(report: S.Report)

  /** Revoking the broker where there is no session to close. */
  datatype Revocation = Revoked | RevokeFails | RevokeCancelled

  datatype Final = Final(
    decision: Option<Json>, failure: Option<FailureKind>, quota: Option<Quota>, rejection: Option<string>,
    proof: Option<S.Report>)

  /** `Thrown` hands the result to the caller inside the interruption; `Escaped` loses it. */
  datatype Outcome = Returned(final: Final) | Thrown(final: Final) | Escaped

  const CARRIERS: set<FailureKind> := {QuotaSpent, Uncertain, Interrupted, Deadline}

  /** A failure result: evidence forces a kind that can carry it. */
  function Failure(quota: Option<Quota>, before: Option<Final>, kind: FailureKind): Final {
    var actual := if quota.Some? && kind !in CARRIERS then Uncertain else kind;
    var inherits := quota.None? && before.Some? && actual in {Uncertain, Interrupted, Deadline};
    Final(None, Some(actual), if inherits then before.value.quota else quota, None, None)
  }

  function KindOf(fault: X.Fault): FailureKind {
    match fault
    case Protocol => ProtocolBroken
    case Configuration => Unavailable
    case Timeout => Deadline
    case Cancelled => Interrupted
    case Uncertain => FailureKind.Uncertain
  }

  predicate Permits(report: S.Report) {
    report.stopConfirmed && report.outcome in {S.Exited, S.Completed} && !report.stdoutTruncated
  }

  /** What the body and its handlers leave; `None` when building the rejection raises in turn. */
  function Caught(quota: Option<Quota>, course: Course): Option<Final> {
    match course
    case Denied => Some(Failure(quota, None, PolicyDenied))
    case NotAdmitted => Some(Failure(quota, None, Unavailable))
    case NeverStarted(fault) => Some(Failure(quota, None, KindOf(fault)))
    case Ran(Decided(decision)) => Some(Final(Some(decision), None, None, None, None))
    case Ran(Refused(kind, q)) =>
      if q.Some? && kind !in CARRIERS then Some(Failure(quota, None, ProtocolBroken))
      else Some(Final(None, Some(kind), q, None, None))
    case Ran(ForbiddenRole(kind)) =>
      var f := Failure(quota, None, ProtocolBroken);
      if f.failure == Some(ProtocolBroken) then Some(f.(rejection := Some(kind))) else None
    case Ran(Raised(fault)) => Some(Failure(quota, None, KindOf(fault)))
  }

  predicate WasInterrupted(course: Course) {
    course == NeverStarted(X.Cancelled) || course == Ran(X.Raised(X.Cancelled))
  }

  function AfterClosing(quota: Option<Quota>, result: Final, closing: Closing): Final
    requires !closing.CloseCancelled?
  {
    match closing
    case CloseFails => Failure(quota, Some(result), Uncertain)
    case Closed(report) =>
      var settled :=
        if !report.stopConfirmed then Failure(quota, Some(result), Uncertain)
        else if result.failure.None? && !Permits(report) then Failure(quota, Some(result), ProtocolBroken)
        else result;
      settled.(proof := Some(report))
  }

  /** Whether settling is itself cancelled. */
  predicate CutOff(course: Course, closing: Closing, revoking: Revocation) {
    if course.Ran? then closing.CloseCancelled? else revoking.RevokeCancelled?
  }

  function Settle(quota: Option<Quota>, course: Course, closing: Closing, revoking: Revocation, policyAllows: bool): Outcome {
    match Caught(quota, course)
    case None => Escaped
    case Some(result) =>
      if CutOff(course, closing, revoking) then Escaped else
      var closed :=
        if course.Ran? then AfterClosing(quota, result, closing)
        else if revoking.Revoked? then result
        else Failure(quota, Some(result), Uncertain);
      if WasInterrupted(course) then Thrown(closed)
      else if closed.failure.None? && !policyAllows then
        Returned(Failure(quota, Some(closed), PolicyDenied).(proof := closed.proof))
      else Returned(closed)
  }

  /** The same merging with `result` reassigned stage by stage, as `execute` reassigns it. */
  method Merge(quota: Option<Quota>, course: Course, closing: Closing, revoking: Revocation, policyAllows: bool)
    returns (outcome: Outcome)
    ensures outcome == Settle(quota, course, closing, revoking, policyAllows)
  {
    var interrupted := false;
    var result: Final;
    match course {
      case Denied => result := Failure(quota, None, PolicyDenied);
      case NotAdmitted => result := Failure(quota, None, Unavailable);
      case NeverStarted(fault) =>
        interrupted := fault.Cancelled?;
        result := Failure(quota, None, KindOf(fault));
      case Ran(end) =>
        match end {
          case Decided(decision) => result := Final(Some(decision), None, None, None, None);
          case Refused(kind, q) =>
            result := if q.Some? && kind !in CARRIERS then Failure(quota, None, ProtocolBroken)
                      else Final(None, Some(kind), q, None, None);
          case ForbiddenRole(kind) =>
            result := Failure(quota, None, ProtocolBroken);
            if result.failure != Some(ProtocolBroken) {
              return Escaped;
            }
            result := result.(rejection := Some(kind));
          case Raised(fault) =>
            interrupted := fault.Cancelled?;
            result := Failure(quota, None, KindOf(fault));
        }
    }
    if CutOff(course, closing, revoking) {
      return Escaped;
    }
    if course.Ran? {
      match closing {
        case CloseFails => result := Failure(quota, Some(result), Uncertain);
        case Closed(report) =>
          if !report.stopConfirmed {
            result := Failure(quota, Some(result), Uncertain);
          } else if result.failure.None? && !Permits(report) {
            result := Failure(quota, Some(result), ProtocolBroken);
          }
          result := result.(proof := Some(report));
      }
    } else if revoking.RevokeFails? {
      result := Failure(quota, Some(result), Uncertain);
    }
    if !interrupted && result.failure.None? && !policyAllows {
      result := Failure(quota, Some(result), PolicyDenied).(proof := result.proof);
    }
    outcome := if interrupted then Thrown(result) else Returned(result);
  }

  // ---- what the final result says ----

  ghost predicate Carries(outcome: Outcome, quota: Option<Quota>) {
    && !outcome.Escaped?
    && outcome.final.decision.None?
    && outcome.final.quota == quota
    && outcome.final.failure.Some? && outcome.final.failure.value in CARRIERS
  }

  /**
   Evidence of exhaustion reaches the caller unless the settlement itself is cancelled: however the exchange
   ends and the session settles, the final result carries it under a failure that admits it, and never a
   decision.
   */
  lemma QuotaDominates(
    x: X.Setup, inputs: seq<X.Input>, closing: Closing, revoking: Revocation, policyAllows: bool)
    requires X.Play(x, X.START, inputs).phase.Ended?
    requires X.Play(x, X.START, inputs).quota.quota.Some?
    ensures var s := X.Play(x, X.START, inputs);
      Carries(Settle(s.quota.quota, Ran(s.phase.end), closing, revoking, policyAllows), s.quota.quota)
      <==> !closing.CloseCancelled?
  {
    hide X.Play, Permits;
    X.SpentQuotaStopsWork(x, inputs, []);
    assert inputs + [] == inputs;
  }

  /** The result is lost exactly when the settlement is cancelled: building the rejection never raises in turn. */
  lemma EscapesIff(x: X.Setup, inputs: seq<X.Input>, closing: Closing, revoking: Revocation, policyAllows: bool)
    requires X.Play(x, X.START, inputs).phase.Ended?
    ensures var s := X.Play(x, X.START, inputs);
      Settle(s.quota.quota, Ran(s.phase.end), closing, revoking, policyAllows).Escaped? <==> closing.CloseCancelled?
  {
    hide X.Play, Permits, X.Base;
    X.StartIsCore(x);
    X.RunKeeps(x, X.START, inputs);
  }

  /**
   An attempt succeeds exactly when the exchange decided, the session stopped with a confirmed and complete
   settlement, and the telemetry policy allows it; the decision is the exchange's own.
   */
  lemma SucceedsIff(x: X.Setup, inputs: seq<X.Input>, closing: Closing, revoking: Revocation, policyAllows: bool)
    requires X.Play(x, X.START, inputs).phase.Ended?
    ensures var s := X.Play(x, X.START, inputs);
      && var outcome := Settle(s.quota.quota, Ran(s.phase.end), closing, revoking, policyAllows);
      && (outcome.Returned? && outcome.final.failure.None? <==>
            s.phase.end.Decided? && closing.Closed? && Permits(closing.report) && policyAllows)
      && (outcome.Returned? && outcome.final.failure.None? ==>
            outcome.final == Final(Some(s.phase.end.decision), None, None, None, Some(closing.report)))
  {
    hide X.Play, X.Base;
    X.StartIsCore(x);
    X.RunKeeps(x, X.START, inputs);
  }

  /** An unconfirmed stop or a failed close always reads as uncertain, whatever the exchange decided. */
  lemma UnsureStopIsUncertain(quota: Option<Quota>, end: X.End, closing: Closing, revoking: Revocation, policyAllows: bool)
    requires closing.CloseFails? || (closing.Closed? && !closing.report.stopConfirmed)
    ensures var outcome := Settle(quota, Ran(end), closing, revoking, policyAllows);
      !outcome.Escaped? ==> outcome.final.failure == Some(Uncertain) && outcome.final.decision.None?
  {
  }

  /** The kind of failure a fault is reported as. */
  predicate ReportedAs(fault: X.Fault, kind: FailureKind) {
    match fault
    case Protocol => kind == ProtocolBroken
    case Configuration => kind == Unavailable
    case Timeout => kind == Deadline
    case Cancelled => kind == Interrupted
    case Uncertain => kind == FailureKind.Uncertain
  }

  /** Without evidence, and with the session stopped for sure, a fault is reported as its own kind. */
  lemma RaisedAsIs(report: S.Report, revoking: Revocation, policyAllows: bool, fault: X.Fault)
    requires report.stopConfirmed
    ensures var o := Settle(None, Ran(X.Raised(fault)), Closed(report), revoking, policyAllows);
      && (o.Thrown? <==> fault == X.Cancelled) && !o.Escaped?
      && o.final.failure.Some? && ReportedAs(fault, o.final.failure.value)
      && o.final == Final(None, o.final.failure, None, None, Some(report))
  {
    hide Permits;
  }

  /** So is a refusal, and a decision of a forbidden role as a broken protocol that names it. */
  lemma RefusedAsIs(report: S.Report, revoking: Revocation, policyAllows: bool, kind: FailureKind, role: string)
    requires report.stopConfirmed
    ensures Settle(None, Ran(X.Refused(kind, None)), Closed(report), revoking, policyAllows) ==
      Returned(Final(None, Some(kind), None, None, Some(report)))
    ensures Settle(None, Ran(X.ForbiddenRole(role)), Closed(report), revoking, policyAllows) ==
      Returned(Final(None, Some(ProtocolBroken), None, Some(role), Some(report)))
  {
    hide Permits;
  }

  /** A decision stands when the client stopped cleanly and the policy allows it. */
  lemma DecidedAsIs(report: S.Report, revoking: Revocation, policyAllows: bool, decision: Json)
    requires report.stopConfirmed
    ensures var clean := report.outcome in {S.Exited, S.Completed} && !report.stdoutTruncated;
      Settle(None, Ran(X.Decided(decision)), Closed(report), revoking, policyAllows) == Returned(Final(
        if clean && policyAllows then Some(decision) else None,
        if !clean then Some(ProtocolBroken) else if !policyAllows then Some(PolicyDenied) else None,
        None, None, Some(report)))
  {
  }

  /** An attempt that never had a session is reported as what kept it from one, if revoking the broker worked. */
  lemma NeverRanAsIs(closing: Closing, policyAllows: bool, fault: X.Fault)
    ensures Settle(None, Denied, closing, Revoked, policyAllows) == Returned(Final(None, Some(PolicyDenied), None, None, None))
    ensures Settle(None, NotAdmitted, closing, Revoked, policyAllows) == Returned(Final(None, Some(Unavailable), None, None, None))
    ensures var o := Settle(None, NeverStarted(fault), closing, Revoked, policyAllows);
      && (o.Thrown? <==> fault == X.Cancelled) && !o.Escaped?
      && o.final.failure.Some? && ReportedAs(fault, o.final.failure.value) && o.final.decision.None?
  {
  }
}
