/** The attempt-local evidence that the account's allowance is spent. */
module ClaudeQuota {
  import opened Prelude

  datatype FailureKind =
    | Unavailable | ProtocolBroken | Interrupted | Deadline | PolicyDenied | QuotaSpent | Authentication
    | Uncertain | Throttled | Outage | Unsupported | BudgetSpent

  /** Times are instants on one clock; a kept reset lies after the observation. */
  datatype Quota = Quota(observedAt: int, reset: Option<int>)

  datatype Evidence = Evidence(quota: Option<Quota>, terminalObservedAt: Option<int>)

  const UNSEEN := Evidence(None, None)

  /** What reading an error says: its kind, and whether it proves exhaustion, with a reset time if it names one. */
  datatype Diagnosis = Diagnosis(kind: FailureKind, spent: bool, reset: Option<int>)

  /** The windows this installation is bound to, and the readers of reset fields and error texts. */
  datatype Reader = Reader(
    limitTypes: set<string>, resetOf: (Json, int) -> Option<int>, classify: (Option<int>, Json, Json, int) -> Diagnosis)

  predicate WellFormed(q: Quota) {
    q.reset.Some? ==> q.reset.value > q.observedAt
  }

  /** A reset that is not in the future is not kept. */
  function Observed(now: int, reset: Option<int>): Quota {
    Quota(now, if reset.Some? && reset.value > now then reset else None)
  }

  predicate LaterReset(q: Quota, held: Quota) {
    q.reset.Some? && (held.reset.None? || q.reset.value > held.reset.value)
  }

  /** Keeps the first observation and the longest reset; `None` when the extended evidence would be ill-formed. */
  function Retain(s: Evidence, q: Quota): Option<Evidence> {
    if s.quota.None? then Some(s.(quota := Some(q)))
    else if !LaterReset(q, s.quota.value) then Some(s)
    else if q.reset.value <= s.quota.value.observedAt then None
    else Some(s.(quota := Some(s.quota.value.(reset := q.reset))))
  }

  predicate Rejects(r: Reader, info: JObj) {
    var window := Get(info, "rateLimitType");
    Get(info, "status") == Str("rejected") && window.Str? && window.s in r.limitTypes
  }

  function Notification(r: Reader, s: Evidence, frame: JObj, now: int): Option<Evidence> {
    if Get(frame, "type") != Str("rate_limit_event") then Some(s)
    else
      match GetObj(frame, "rate_limit_info")
      case None => None
      case Some(info) =>
        if !Rejects(r, info) then Some(s) else Retain(s, Observed(now, r.resetOf(Get(info, "resetsAt"), now)))
  }

  /** The new evidence, and the failure unless the terminal is refused. */
  function Terminal(r: Reader, s: Evidence, terminal: JObj, now: int): (Evidence, Option<FailureKind>) {
    var status := Get(terminal, "api_error_status");
    if !status.Null? && !status.Int? then (s, None)
    else
      var seen := s.(terminalObservedAt := Some(s.terminalObservedAt.Or(now)));
      var at := seen.terminalObservedAt.value;
      var d := r.classify(if status.Int? then Some(status.n) else None, Get(terminal, "errors"), Get(terminal, "result"), at);
      var kept := if d.spent then Retain(seen, Observed(at, d.reset)) else Some(seen);
      match kept
      case None => (seen, None)
      case Some(t) =>
        if t.quota.None? then (t, Some(d.kind))
        else if d.kind in {QuotaSpent, Throttled} then (t, Some(QuotaSpent))
        else (t, None)
  }

  class QuotaState {
    const r: Reader
    var quota: Option<Quota>
    var terminalObservedAt: Option<int>

    ghost function State(): Evidence
      reads this
    {
      Evidence(quota, terminalObservedAt)
    }

    constructor (reader: Reader)
      ensures State() == UNSEEN && r == reader
    {
      r := reader;
      quota, terminalObservedAt := None, None;
    }

    method Keep(q: Quota) returns (ok: bool)
      modifies `quota
      ensures ok == Retain(old(State()), q).Some?
      ensures State() == Retain(old(State()), q).Or(old(State()))
    {
      ok := true;
      if quota.None? {
        quota := Some(q);
      } else if LaterReset(q, quota.value) {
        ok := q.reset.value > quota.value.observedAt;
        if ok {
          quota := Some(quota.value.(reset := q.reset));
        }
      }
    }

    method Notify(frame: JObj, now: int) returns (ok: bool)
      modifies `quota
      ensures ok == Notification(r, old(State()), frame, now).Some?
      ensures State() == Notification(r, old(State()), frame, now).Or(old(State()))
    {
      if Get(frame, "type") != Str("rate_limit_event") {
        return true;
      }
      var info := GetObj(frame, "rate_limit_info");
      if info.None? {
        return false;
      }
      if !Rejects(r, info.value) {
        return true;
      }
      ok := Keep(Observed(now, r.resetOf(Get(info.value, "resetsAt"), now)));
    }

    method End(terminal: JObj, now: int) returns (failure: Option<FailureKind>)
      modifies this
      ensures (State(), failure) == Terminal(r, old(State()), terminal, now)
    {
      var status := Get(terminal, "api_error_status");
      if !status.Null? && !status.Int? {
        return None;
      }
      if terminalObservedAt.None? {
        terminalObservedAt := Some(now);
      }
      var at := terminalObservedAt.value;
      var d := r.classify(if status.Int? then Some(status.n) else None, Get(terminal, "errors"), Get(terminal, "result"), at);
      if d.spent {
        var ok := Keep(Observed(at, d.reset));
        if !ok {
          return None;
        }
      }
      if quota.Some? {
        return if d.kind in {QuotaSpent, Throttled} then Some(QuotaSpent) else None;
      }
      failure := Some(d.kind);
    }
  }

  /** Later evidence keeps the first observation and never brings the reset forward. */
  ghost predicate Extends(earlier: Option<Quota>, later: Option<Quota>) {
    earlier.Some? ==>
      && later.Some?
      && later.value.observedAt == earlier.value.observedAt
      && (earlier.value.reset.Some? ==>
            later.value.reset.Some? && later.value.reset.value >= earlier.value.reset.value)
  }

  ghost predicate Proper(s: Evidence) {
    s.quota.Some? ==> WellFormed(s.quota.value)
  }

  lemma NotificationExtends(r: Reader, s: Evidence, frame: JObj, now: int)
    requires Proper(s)
    ensures var t := Notification(r, s, frame, now).Or(s); Proper(t) && Extends(s.quota, t.quota)
  {
  }

  lemma TerminalExtends(r: Reader, s: Evidence, terminal: JObj, now: int)
    requires Proper(s)
    ensures var (t, failure) := Terminal(r, s, terminal, now);
      && Proper(t) && Extends(s.quota, t.quota)
      && (failure.Some? && t.quota.Some? ==> failure == Some(QuotaSpent))
  {
  }

  lemma ExtendsIsTransitive(a: Option<Quota>, b: Option<Quota>, c: Option<Quota>)
    requires Extends(a, b) && Extends(b, c)
    ensures Extends(a, c)
  {
  }

  /**
   Retaining fails exactly when the first reset arrives for evidence without one and lies in the new
   observation's future but not after the first observation. With a clock that does not run backwards it
   therefore never fails, and with one that does it can.
   */
  lemma RetainSucceedsIff(s: Evidence, now: int, reset: Option<int>)
    requires Proper(s)
    ensures Retain(s, Observed(now, reset)).None? <==>
      && s.quota.Some? && s.quota.value.reset.None?
      && reset.Some? && now < reset.value <= s.quota.value.observedAt
  {
  }

  /** The later of two resets, a known one before an unknown. */
  predicate IsLater(reset: Option<int>, a: Option<int>, b: Option<int>) {
    && (reset == a || reset == b)
    && (a.Some? ==> reset.Some? && reset.value >= a.value)
    && (b.Some? ==> reset.Some? && reset.value >= b.value)
  }

  /** What is retained keeps the first observation, with the later of the resets that lie ahead when observed. */
  lemma RetainKeepsLongest(s: Evidence, now: int, reset: Option<int>)
    requires Retain(s, Observed(now, reset)).Some?
    ensures var t := Retain(s, Observed(now, reset)).value;
      && var ahead := if reset.Some? && now < reset.value then reset else None;
      && t.terminalObservedAt == s.terminalObservedAt && t.quota.Some?
      && (s.quota.None? ==> t.quota.value == Quota(now, ahead))
      && (s.quota.Some? ==>
            t.quota.value.observedAt == s.quota.value.observedAt && IsLater(t.quota.value.reset, s.quota.value.reset, ahead))
  {
  }
}
