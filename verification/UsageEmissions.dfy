/** Which observations a publisher emits, told by the events alone, and that an undisturbed run delivers them all. */
module UsageEmissions {
  import opened Prelude
  import opened UsagePublisher

  predicate Closed(es: seq<Event>) {
    exists i :: 0 <= i < |es| && es[i].EmitFinal?
  }

  /** The newest context shown by any of the observations. */
  function LastShown(obs: seq<Observation>): Option<Window> {
    if obs == [] then None
    else if obs[|obs| - 1].context.Some? then obs[|obs| - 1].context
    else LastShown(obs[..|obs| - 1])
  }

  function Shortened(status: string): string {
    if status == "" then "unknown" else if |status| <= 32 then status else status[..32]
  }

  /** The live observation numbered `n`. */
  function LiveObservation(n: nat, tokens: Tokens, context: Option<Window>): Observation {
    Observation(LiveId(n), n, tokens, context, false, "", None)
  }

  /** The final one after `n` live ones, showing the given context or else the newest one shown. */
  function FinalObservation(live: seq<Observation>, tokens: Tokens, status: string, context: Option<Window>): Observation {
    Observation(
      FinalId, |live| + 1, tokens, if context.Some? then context else LastShown(live), true, Shortened(status),
      if live == [] then None else Some(LiveId(|live|)))
  }

  /** Whether the last observation already shows this. */
  predicate Repeats(obs: seq<Observation>, tokens: Tokens, context: Option<Window>) {
    obs != [] && obs[|obs| - 1].tokens == tokens && obs[|obs| - 1].context == context
  }

  /** What one more event adds to what the events before it have emitted. */
  function Emission(es: seq<Event>, emitted: seq<Observation>, e: Event): seq<Observation> {
    match e
    case EmitLive(tokens, context) =>
      if Closed(es) || Repeats(emitted, tokens, context) then []
      else [LiveObservation(|emitted| + 1, tokens, context)]
    case EmitFinal(tokens, status, context) =>
      if Closed(es) then [] else [FinalObservation(emitted, tokens, status, context)]
    case _ => []
  }

  /** What the publisher remembers of its emissions. */
  ghost predicate Remembers(es: seq<Event>, p: Publisher) {
    && p.sequence == |p.emitted|
    && (p.stage != NotYet <==> Closed(es))
    && (p.stage == NotYet ==>
          && p.latestContext == LastShown(p.emitted)
          && p.lastLive == (if p.emitted == [] then None else Some(LiveId(|p.emitted|)))
          && (if p.emitted == [] then p.lastTokens.None?
              else p.lastTokens == Some(p.emitted[|p.emitted| - 1].tokens)
                   && p.lastContext == p.emitted[|p.emitted| - 1].context))
  }

  lemma ClosedMore(es: seq<Event>, e: Event)
    ensures Closed(es + [e]) <==> Closed(es) || e.EmitFinal?
  {
    var more := es + [e];
    if Closed(es) {
      var i :| 0 <= i < |es| && es[i].EmitFinal?;
      assert more[i].EmitFinal?;
    }
    if e.EmitFinal? { assert more[|es|].EmitFinal?; }
  }

  lemma LiveEmits(es: seq<Event>, p: Publisher, tokens: Tokens, context: Option<Window>)
    requires Remembers(es, p)
    ensures var q, e := OnEmitLive(p, tokens, context), EmitLive(tokens, context);
      Remembers(es + [e], q) && q.emitted == p.emitted + Emission(es, p.emitted, e)
  {
    hide Closed;
    ClosedMore(es, EmitLive(tokens, context));
    var q := OnEmitLive(p, tokens, context);
    if q.emitted == p.emitted {
      assert p.emitted + [] == p.emitted;
    } else {
      assert q.emitted[..|p.emitted|] == p.emitted;
    }
  }

  lemma FinalEmits(es: seq<Event>, p: Publisher, tokens: Tokens, status: string, context: Option<Window>)
    requires Remembers(es, p)
    ensures var q, e := OnEmitFinal(p, tokens, status, context), EmitFinal(tokens, status, context);
      Remembers(es + [e], q) && q.emitted == p.emitted + Emission(es, p.emitted, e)
  {
    hide Closed, LastShown;
    ClosedMore(es, EmitFinal(tokens, status, context));
    if Closed(es) { assert p.emitted + [] == p.emitted; }
  }

  lemma StepEmits(es: seq<Event>, p: Publisher, e: Event)
    requires Remembers(es, p)
    ensures var q := Step(p, e); Remembers(es + [e], q) && q.emitted == p.emitted + Emission(es, p.emitted, e)
  {
    hide Closed, LastShown, OnEmitLive, OnEmitFinal;
    match e {
      case EmitLive(tokens, context) => LiveEmits(es, p, tokens, context);
      case EmitFinal(tokens, status, context) => FinalEmits(es, p, tokens, status, context);
      case _ =>
        ClosedMore(es, e);
        assert p.emitted + [] == p.emitted;
    }
  }

  lemma {:induction false} RunRemembers(es: seq<Event>)
    ensures Remembers(es, Run(es))
  {
    hide Step, Remembers;
    if es == [] {
      NothingEmitted();
    } else {
      RunRemembers(es[..|es| - 1]);
      StepEmits(es[..|es| - 1], Run(es[..|es| - 1]), es[|es| - 1]);
      assert es[..|es| - 1] + [es[|es| - 1]] == es;
    }
  }

  lemma NothingEmitted()
    ensures Remembers([], IDLE)
  {
  }

  lemma RunOneMore(es: seq<Event>, e: Event)
    ensures Run(es + [e]) == Step(Run(es), e)
  {
    hide Step;
    assert (es + [e])[..|es|] == es;
  }

  /**
   In every run each live report that shows something new is emitted under the next number, unless the final one
   has been; the first final report is emitted with its own counters, its own or the newest context, its
   status and the last live id; nothing else is.
   */
  lemma EmissionsAre(es: seq<Event>, e: Event)
    ensures Run(es + [e]).emitted == Run(es).emitted + Emission(es, Run(es).emitted, e)
  {
    hide Run, Step, Remembers, Emission;
    RunRemembers(es);
    StepEmits(es, Run(es), e);
    RunOneMore(es, e);
  }

  // ---- an undisturbed run ----

  datatype Report = Report(tokens: Tokens, context: Option<Window>)

  /** Each report is taken by the worker and accepted by the sink before the next one comes. */
  function Rounds(reports: seq<Report>): seq<Event> {
    if reports == [] then []
    else
      var r := reports[|reports| - 1];
      Rounds(reports[..|reports| - 1]) + [EmitLive(r.tokens, r.context)] + [Take] + [Delivered(Accepted)]
  }

  ghost predicate AllDelivered(p: Publisher) {
    && p.stage == NotYet && !p.incomplete && p.queue == [] && p.unfinished == 0 && !p.worker.Busy?
    && p.worker != Dead && p.accepted == p.emitted
  }

  lemma RoundDelivers(p: Publisher, r: Report)
    requires AllDelivered(p)
    ensures AllDelivered(Step(Step(Step(p, EmitLive(r.tokens, r.context)), Take), Delivered(Accepted)))
  {
  }

  lemma {:induction false} RoundsDeliver(reports: seq<Report>)
    ensures AllDelivered(Run(Rounds(reports)))
  {
    hide Step, AllDelivered;
    if reports == [] {
      IdleIsDelivered();
    } else {
      var r, front := reports[|reports| - 1], Rounds(reports[..|reports| - 1]);
      RoundsDeliver(reports[..|reports| - 1]);
      RunOneMore(front, EmitLive(r.tokens, r.context));
      RunOneMore(front + [EmitLive(r.tokens, r.context)], Take);
      RunOneMore(front + [EmitLive(r.tokens, r.context)] + [Take], Delivered(Accepted));
      RoundDelivers(Run(front), r);
    }
  }

  lemma IdleIsDelivered()
    ensures AllDelivered(Run([]))
  {
  }

  /** An undisturbed run finishes unflagged, with everything it emitted accepted by the sink and the final one last. */
  lemma UndisturbedRunDelivers(reports: seq<Report>, tokens: Tokens, status: string, context: Option<Window>)
    ensures var front := Rounds(reports);
      && var p := Run(front + [EmitFinal(tokens, status, context)] + [JoinEnds(Drained)] + [FinalSent(Accepted)]);
      && p.stage == Finished && !p.incomplete && p.accepted == p.emitted
      && p.emitted == Run(front).emitted + [FinalObservation(Run(front).emitted, tokens, status, context)]
  {
    hide Run, Step, AllDelivered, FinalObservation, Remembers;
    var front := Rounds(reports);
    RoundsDeliver(reports);
    RunRemembers(front);
    StepEmits(front, Run(front), EmitFinal(tokens, status, context));
    NotClosed(front, Run(front));
    RunOneMore(front, EmitFinal(tokens, status, context));
    RunOneMore(front + [EmitFinal(tokens, status, context)], JoinEnds(Drained));
    RunOneMore(front + [EmitFinal(tokens, status, context)] + [JoinEnds(Drained)], FinalSent(Accepted));
    FinalDelivers(Run(front), tokens, status, context);
  }

  lemma NotClosed(es: seq<Event>, p: Publisher)
    requires Remembers(es, p) && AllDelivered(p)
    ensures !Closed(es)
  {
  }

  lemma FinalDelivers(p: Publisher, tokens: Tokens, status: string, context: Option<Window>)
    requires AllDelivered(p)
    ensures var a := Step(p, EmitFinal(tokens, status, context));
      && var q := Step(Step(a, JoinEnds(Drained)), FinalSent(Accepted));
      && q.stage == Finished && !q.incomplete && q.accepted == q.emitted && q.emitted == a.emitted
  {
  }

  // ---- a burst ----

  function Burst(reports: seq<Report>): seq<Event> {
    seq(|reports|, i requires 0 <= i < |reports| => EmitLive(reports[i].tokens, reports[i].context))
  }

  /** Each report shows something the one before it does not. */
  predicate Changing(reports: seq<Report>) {
    forall i :: 0 <= i < |reports| - 1 ==> reports[i] != reports[i + 1]
  }

  /** A burst has been emitted, and what fits the queue lies in it. */
  ghost predicate Waiting(p: Publisher, reports: seq<Report>) {
    && p.stage == NotYet && |p.emitted| == |reports|
    && (reports != [] ==>
          var last := reports[|reports| - 1];
          Repeats(p.emitted, last.tokens, last.context))
    && p.queue == (if |reports| <= 64 then p.emitted else p.emitted[..64])
    && (p.incomplete <==> |reports| > 64)
  }

  lemma BurstGrows(es: seq<Event>, p: Publisher, reports: seq<Report>, r: Report)
    requires Remembers(es, p) && Waiting(p, reports) && (reports != [] ==> reports[|reports| - 1] != r)
    ensures Waiting(OnEmitLive(p, r.tokens, r.context), reports + [r])
  {
    hide Closed, LastShown;
    var q := OnEmitLive(p, r.tokens, r.context);
    assert q.emitted[..|p.emitted|] == p.emitted;
    if |reports| >= 64 { assert q.emitted[..64] == p.emitted[..64]; }
  }

  /** Without the worker the first 64 changing reports fit the queue, and the next one raises the flag. */
  lemma {:induction false} BurstFitsIff(reports: seq<Report>)
    requires Changing(reports)
    ensures Waiting(Run(Burst(reports)), reports)
  {
    hide Step, Remembers, Waiting;
    if reports == [] {
      NothingWaits();
      assert Burst(reports) == [];
    } else {
      var front, r := reports[..|reports| - 1], reports[|reports| - 1];
      assert Burst(front) + [EmitLive(r.tokens, r.context)] == Burst(reports);
      BurstFitsIff(front);
      RunRemembers(Burst(front));
      BurstGrows(Burst(front), Run(Burst(front)), front, r);
      RunOneMore(Burst(front), EmitLive(r.tokens, r.context));
      LiveStep(Run(Burst(front)), r);
      assert front + [r] == reports;
    }
  }

  lemma LiveStep(p: Publisher, r: Report)
    ensures Step(p, EmitLive(r.tokens, r.context)) == OnEmitLive(p, r.tokens, r.context)
  {
  }

  lemma NothingWaits()
    ensures Waiting(Run([]), [])
  {
  }
}
