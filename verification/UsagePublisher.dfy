/**
 Bounded delivery of usage observations: one owner enqueues, one worker delivers to a sink that may
 fail, stall or be cancelled, and a flag says whether anything may be missing.

 Owner and worker events are atomic stretches between suspension points, in any order.
 */
module UsagePublisher {
  import opened Prelude

  const QUEUE_MAX: nat := 64

  datatype Tokens = Tokens(input: Option<nat>, output: Option<nat>, cached: Option<nat>, reasoning: Option<nat>)

  datatype Window = Window(occupied: Option<nat>, capacity: Option<nat>, compactions: Option<nat>)

  datatype EventId = LiveId(n: nat) | FinalId

  datatype Observation = Observation(
    id: EventId, sequence: nat, tokens: Tokens, context: Option<Window>,
    final: bool, status: string, reconciles: Option<EventId>)

  datatype Worker = Absent | Waiting | Busy(obs: Observation) | Dead

  datatype FinalStage = NotYet | Joining(obs: Observation) | Sending(obs: Observation) | Finished

  datatype Publisher = Publisher(
    sequence: nat, lastLive: Option<EventId>, lastTokens: Option<Tokens>, lastContext: Option<Window>,
    latestContext: Option<Window>, incomplete: bool,
    queue: seq<Observation>, unfinished: nat, worker: Worker, stage: FinalStage,
    // history: what was emitted, handed to the sink, and accepted by it
    emitted: seq<Observation>, calls: seq<Observation>, accepted: seq<Observation>)

  const IDLE := Publisher(0, None, None, None, None, false, [], 0, Absent, NotYet, [], [], [])

  datatype SinkEnd = Accepted | Refused | Cancelled
  datatype JoinEnd = Drained | TimedOut | Interrupted

  datatype Event =
    | EmitLive(tokens: Tokens, context: Option<Window>)
    | EmitFinal(tokens: Tokens, status: string, context: Option<Window>)
    | JoinEnds(join: JoinEnd)
    | FinalSent(end: SinkEnd)
    | Close
    | Take
    | Delivered(end: SinkEnd)

  function OnEmitLive(p: Publisher, tokens: Tokens, context: Option<Window>): Publisher {
    if p.stage != NotYet || (p.lastTokens == Some(tokens) && p.lastContext == context) then p
    else
      var n := p.sequence + 1;
      var obs := Observation(LiveId(n), n, tokens, context, false, "", None);
      var room := |p.queue| < QUEUE_MAX;
      p.(sequence := n, lastLive := Some(LiveId(n)), lastTokens := Some(tokens), lastContext := context,
         latestContext := if context.Some? then context else p.latestContext,
         worker := if p.worker == Absent then Waiting else p.worker,
         queue := if room then p.queue + [obs] else p.queue,
         unfinished := if room then p.unfinished + 1 else p.unfinished,
         incomplete := p.incomplete || !room,
         emitted := p.emitted + [obs])
  }

  function OnEmitFinal(p: Publisher, tokens: Tokens, status: string, context: Option<Window>): Publisher {
    if p.stage != NotYet then p
    else
      var n := p.sequence + 1;
      var shown := if context.Some? then context else p.latestContext;
      var shownStatus := if status == "" then "unknown" else if |status| > 32 then status[..32] else status;
      var obs := Observation(FinalId, n, tokens, shown, true, shownStatus, p.lastLive);
      p.(sequence := n, stage := Joining(obs), emitted := p.emitted + [obs])
  }

  /** Cancelling the worker in the middle of a delivery leaves that delivery in doubt. */
  function OnClose(p: Publisher): Publisher {
    match p.worker
    case Busy(_) => p.(worker := Absent, incomplete := true, unfinished := if p.unfinished > 0 then p.unfinished - 1 else 0)
    case _ => p.(worker := Absent)
  }

  /** `join` returns only when every queued item is done; otherwise it times out or is interrupted. */
  function OnJoinEnds(p: Publisher, join: JoinEnd): Publisher {
    if !p.stage.Joining? || (join == Drained && p.unfinished > 0) then p
    else
      var q := OnClose(if join == Drained then p else p.(incomplete := true));
      q.(stage := Sending(p.stage.obs), calls := q.calls + [p.stage.obs])
  }

  function OnFinalSent(p: Publisher, end: SinkEnd): Publisher {
    if !p.stage.Sending? then p
    else if end == Accepted then p.(stage := Finished, accepted := p.accepted + [p.stage.obs])
    else p.(stage := Finished, incomplete := true)
  }

  function OnTake(p: Publisher): Publisher {
    if p.worker != Waiting || p.queue == [] then p
    else p.(worker := Busy(p.queue[0]), queue := p.queue[1..], calls := p.calls + [p.queue[0]])
  }

  function OnDelivered(p: Publisher, end: SinkEnd): Publisher {
    if !p.worker.Busy? then p
    else
      var q := p.(unfinished := if p.unfinished > 0 then p.unfinished - 1 else 0);
      match end
      case Accepted => q.(worker := Waiting, accepted := p.accepted + [p.worker.obs])
      case Refused => q.(worker := Waiting, incomplete := true)
      case Cancelled => q.(worker := Dead, incomplete := true)
  }

  function Step(p: Publisher, e: Event): Publisher {
    match e
    case EmitLive(tokens, context) => OnEmitLive(p, tokens, context)
    case EmitFinal(tokens, status, context) => OnEmitFinal(p, tokens, status, context)
    case JoinEnds(join) => OnJoinEnds(p, join)
    case FinalSent(end) => OnFinalSent(p, end)
    case Close => OnClose(p)
    case Take => OnTake(p)
    case Delivered(end) => OnDelivered(p, end)
  }

  function Run(es: seq<Event>): Publisher {
    if es == [] then IDLE else Step(Run(es[..|es| - 1]), es[|es| - 1])
  }

  // ---- the publisher object ----

  class ObservationPublisher {
    var sequence: nat
    var lastLive: Option<EventId>
    var lastTokens: Option<Tokens>
    var lastContext: Option<Window>
    var latestContext: Option<Window>
    var incomplete: bool
    var queue: seq<Observation>
    var unfinished: nat
    var worker: Worker
    var stage: FinalStage
    ghost var emitted: seq<Observation>
    ghost var calls: seq<Observation>
    ghost var accepted: seq<Observation>

    ghost function State(): Publisher
      reads this
    {
      Publisher(sequence, lastLive, lastTokens, lastContext, latestContext, incomplete, queue, unfinished,
                worker, stage, emitted, calls, accepted)
    }

    constructor ()
      ensures State() == IDLE
    {
      sequence, lastLive, lastTokens, lastContext, latestContext := 0, None, None, None, None;
      incomplete, queue, unfinished, worker, stage := false, [], 0, Absent, NotYet;
      emitted, calls, accepted := [], [], [];
    }

    /** Puts an observation in the bounded queue, or notes that it did not fit. */
    method PutNoWait(obs: Observation)
      modifies this`queue, this`unfinished, this`incomplete
      ensures var room := |old(queue)| < QUEUE_MAX;
        && queue == (if room then old(queue) + [obs] else old(queue))
        && unfinished == (if room then old(unfinished) + 1 else old(unfinished))
        && incomplete == (old(incomplete) || !room)
    {
      if |queue| < QUEUE_MAX {
        queue, unfinished := queue + [obs], unfinished + 1;
      } else {
        incomplete := true;
      }
    }

    /** Numbers a new observation and remembers what it showed. */
    method Stamp(tokens: Tokens, context: Option<Window>) returns (obs: Observation)
      modifies this`sequence, this`lastLive, this`lastTokens, this`lastContext, this`latestContext, this`emitted
      ensures sequence == old(sequence) + 1 && lastLive == Some(LiveId(sequence))
      ensures lastTokens == Some(tokens) && lastContext == context
      ensures latestContext == if context.Some? then context else old(latestContext)
      ensures obs == Observation(LiveId(sequence), sequence, tokens, context, false, "", None)
      ensures emitted == old(emitted) + [obs]
    {
      sequence := sequence + 1;
      obs := Observation(LiveId(sequence), sequence, tokens, context, false, "", None);
      lastTokens, lastContext, lastLive := Some(tokens), context, Some(LiveId(sequence));
      if context.Some? {
        latestContext := context;
      }
      emitted := emitted + [obs];
    }

    method EmitLiveUsage(tokens: Tokens, context: Option<Window>)
      modifies this
      ensures State() == OnEmitLive(old(State()), tokens, context)
    {
      if stage != NotYet || (lastTokens == Some(tokens) && lastContext == context) {
        return;
      }
      var obs := Stamp(tokens, context);
      if worker == Absent {
        worker := Waiting;
      }
      PutNoWait(obs);
    }

    method BeginFinal(tokens: Tokens, status: string, context: Option<Window>)
      modifies this`sequence, this`stage, this`emitted
      ensures State() == OnEmitFinal(old(State()), tokens, status, context)
    {
      if stage != NotYet {
        return;
      }
      sequence := sequence + 1;
      var shown := if context.Some? then context else latestContext;
      var shownStatus := if status == "" then "unknown" else if |status| > 32 then status[..32] else status;
      var obs := Observation(FinalId, sequence, tokens, shown, true, shownStatus, lastLive);
      stage := Joining(obs);
      emitted := emitted + [obs];
    }

    method TaskDone()
      modifies this`unfinished
      ensures unfinished == if old(unfinished) > 0 then old(unfinished) - 1 else 0
    {
      if unfinished > 0 {
        unfinished := unfinished - 1;
      }
    }

    method CloseWorker()
      modifies this`worker, this`incomplete, this`unfinished
      ensures State() == OnClose(old(State()))
    {
      if worker.Busy? {
        incomplete := true;
        TaskDone();
      }
      worker := Absent;
    }

    method EndJoin(join: JoinEnd)
      modifies this
      ensures State() == OnJoinEnds(old(State()), join)
    {
      if !stage.Joining? || (join == Drained && unfinished > 0) {
        return;
      }
      if join != Drained {
        incomplete := true;
      }
      CloseWorker();
      calls := calls + [stage.obs];
      stage := Sending(stage.obs);
    }

    method EndFinal(end: SinkEnd)
      modifies this`stage, this`incomplete, this`accepted
      ensures State() == OnFinalSent(old(State()), end)
    {
      if stage.Sending? {
        if end == Accepted {
          accepted := accepted + [stage.obs];
        } else {
          incomplete := true;
        }
        stage := Finished;
      }
    }

    method TakeNext()
      modifies this`worker, this`queue, this`calls
      ensures State() == OnTake(old(State()))
    {
      if worker == Waiting && queue != [] {
        worker := Busy(queue[0]);
        calls := calls + [queue[0]];
        queue := queue[1..];
      }
    }

    method EndDelivery(end: SinkEnd)
      modifies this`worker, this`incomplete, this`accepted, this`unfinished
      ensures State() == OnDelivered(old(State()), end)
    {
      if worker.Busy? {
        TaskDone();
        match end {
          case Accepted =>
            accepted := accepted + [worker.obs];
            worker := Waiting;
          case Refused =>
            incomplete, worker := true, Waiting;
          case Cancelled =>
            incomplete, worker := true, Dead;
        }
      }
    }
  }

  /** One event, as the method that stands for it. */
  method Apply(publisher: ObservationPublisher, e: Event)
    modifies publisher
    ensures publisher.State() == Step(old(publisher.State()), e)
  {
    hide OnEmitLive, OnEmitFinal, OnJoinEnds, OnFinalSent, OnClose, OnTake, OnDelivered;
    match e {
      case EmitLive(tokens, context) => publisher.EmitLiveUsage(tokens, context);
      case EmitFinal(tokens, status, context) => publisher.BeginFinal(tokens, status, context);
      case JoinEnds(join) => publisher.EndJoin(join);
      case FinalSent(end) => publisher.EndFinal(end);
      case Close => publisher.CloseWorker();
      case Take => publisher.TakeNext();
      case Delivered(end) => publisher.EndDelivery(end);
    }
  }

  /** A whole interleaving of owner and worker, driven through the object. */
  method Drive(es: seq<Event>) returns (publisher: ObservationPublisher)
    ensures fresh(publisher) && publisher.State() == Run(es)
  {
    hide Step;
    publisher := new ObservationPublisher();
    for i := 0 to |es|
      invariant fresh(publisher) && publisher.State() == Run(es[..i])
    {
      Apply(publisher, es[i]);
      assert es[..i + 1][..i] == es[..i];
    }
    assert es[..|es|] == es;
  }

  // ---- what every run keeps ----

  predicate Ascending(s: seq<Observation>) {
    forall i, j :: 0 <= i < j < |s| ==> s[i].sequence < s[j].sequence
  }

  function InHand(p: Publisher): seq<Observation> {
    if p.worker.Busy? then [p.worker.obs] else []
  }

  /** Everything emitted before the final observation. */
  function Live(p: Publisher): seq<Observation> {
    if p.stage == NotYet || p.emitted == [] then p.emitted else p.emitted[..|p.emitted| - 1]
  }

  predicate Numbered(p: Publisher) {
    && p.sequence == |p.emitted|
    && forall i :: 0 <= i < |p.emitted| ==> p.emitted[i].sequence == i + 1
  }

  predicate OnlyLastIsFinal(p: Publisher) {
    && (p.stage != NotYet ==> p.emitted != [] && p.emitted[|p.emitted| - 1].final)
    && (forall i :: 0 <= i < |Live(p)| ==> !p.emitted[i].final)
    && (p.stage.Joining? || p.stage.Sending? ==> p.stage.obs == p.emitted[|p.emitted| - 1])
  }

  /** The sink calls made and those the worker can still make. */
  function Outgoing(p: Publisher): seq<Observation> {
    if p.stage.Sending? || p.stage == Finished then p.calls else p.calls + p.queue
  }

  /** Outgoing calls are ascending, and numbered no later than the last emission. */
  predicate Ordered(p: Publisher) {
    && Ascending(Outgoing(p))
    && (forall obs :: obs in Outgoing(p) ==> obs.sequence <= (if p.stage.Joining? then p.sequence - 1 else p.sequence))
    && p.unfinished == |p.queue| + |InHand(p)|
    && (p.stage.Sending? || p.stage == Finished ==> p.worker == Absent)
  }

  /** The final observation while it is still to be accepted. */
  function Closing(p: Publisher): seq<Observation> {
    if p.stage.Joining? || p.stage.Sending? then [p.stage.obs] else []
  }

  /** While nothing is flagged, every emission is accounted for: accepted, in hand, or queued, in order. */
  predicate Accounted(p: Publisher) {
    !p.incomplete ==>
      && p.emitted == p.accepted + InHand(p) + p.queue + Closing(p)
      && (if p.stage.Sending? || p.stage == Finished then p.queue == [] && p.calls == p.accepted + Closing(p)
          else p.calls == p.accepted + InHand(p))
  }

  predicate Kept(p: Publisher) {
    Numbered(p) && OnlyLastIsFinal(p) && Ordered(p) && Accounted(p)
  }

  lemma AscendingAppend(s: seq<Observation>, obs: Observation)
    requires Ascending(s) && forall o :: o in s ==> o.sequence < obs.sequence
    ensures Ascending(s + [obs])
  {
    forall i, j | 0 <= i < j < |s| + 1 ensures (s + [obs])[i].sequence < (s + [obs])[j].sequence {
      assert s[i] in s;
    }
  }

  lemma EmitLiveKeeps(p: Publisher, tokens: Tokens, context: Option<Window>)
    requires Kept(p)
    ensures Kept(OnEmitLive(p, tokens, context))
  {
    hide Ascending;
    var q := OnEmitLive(p, tokens, context);
    if q != p {
      var obs := q.emitted[|p.emitted|];
      AscendingAppend(Outgoing(p), obs);
      assert p.calls + (p.queue + [obs]) == (p.calls + p.queue) + [obs];
      assert Numbered(q) && OnlyLastIsFinal(q);
      assert Ordered(q);
      if !q.incomplete {
        assert q.emitted == p.accepted + InHand(p) + (p.queue + [obs]);
      }
    }
  }

  lemma EmitFinalKeeps(p: Publisher, tokens: Tokens, status: string, context: Option<Window>)
    requires Kept(p)
    ensures Kept(OnEmitFinal(p, tokens, status, context))
  {
    hide Ascending;
    var q := OnEmitFinal(p, tokens, status, context);
    assert Numbered(q) && OnlyLastIsFinal(q);
    assert Ordered(q);
  }

  lemma CloseKeeps(p: Publisher)
    requires Kept(p)
    ensures Kept(OnClose(p))
  {
    hide Ascending;
  }

  lemma AscendingFront(a: seq<Observation>, b: seq<Observation>)
    requires Ascending(a + b)
    ensures Ascending(a)
  {
    forall i, j | 0 <= i < j < |a| ensures a[i].sequence < a[j].sequence {
      assert (a + b)[i] == a[i] && (a + b)[j] == a[j];
    }
  }

  /** Cancelling the worker forgets what it held and nothing else. */
  lemma CloseRest(p: Publisher)
    requires p.unfinished == |p.queue| + |InHand(p)|
    ensures var q := OnClose(p);
      && q.calls == p.calls && q.queue == p.queue && q.stage == p.stage && q.sequence == p.sequence
      && q.emitted == p.emitted && q.worker == Absent && q.unfinished == |q.queue|
  {
  }

  lemma JoinOrdered(p: Publisher, join: JoinEnd)
    requires Kept(p)
    ensures Ordered(OnJoinEnds(p, join))
  {
    hide Accounted, Ascending, Numbered, OnClose;
    if p.stage.Joining? && !(join == Drained && p.unfinished > 0) {
      var r := if join == Drained then p else p.(incomplete := true);
      CloseRest(r);
      AscendingFront(p.calls, p.queue);
      assert forall o :: o in p.calls ==> o in p.calls + p.queue;
      LastNumber(p);
      AscendingAppend(p.calls, p.stage.obs);
    }
  }

  lemma LastNumber(p: Publisher)
    requires Numbered(p) && OnlyLastIsFinal(p) && p.stage.Joining?
    ensures p.stage.obs.sequence == p.sequence
  {
  }

  lemma JoinAccounted(p: Publisher, join: JoinEnd)
    requires Kept(p)
    ensures Accounted(OnJoinEnds(p, join))
  {
    hide Ascending, Ordered, Numbered, OnlyLastIsFinal;
    if p.stage.Joining? && join == Drained && p.unfinished == 0 && !p.incomplete {
      NothingWaiting(p);
      assert p.accepted + [] == p.accepted;
    }
  }

  lemma NothingWaiting(p: Publisher)
    requires Ordered(p) && p.unfinished == 0
    ensures p.queue == [] && InHand(p) == []
  {
  }

  lemma JoinKeeps(p: Publisher, join: JoinEnd)
    requires Kept(p)
    ensures Kept(OnJoinEnds(p, join))
  {
    hide Ascending, Accounted, Ordered;
    JoinOrdered(p, join);
    JoinAccounted(p, join);
  }

  lemma FinalKeeps(p: Publisher, end: SinkEnd)
    requires Kept(p)
    ensures Kept(OnFinalSent(p, end))
  {
    hide Ascending, Accounted;
    FinalAccounted(p, end);
  }

  lemma FinalAccounted(p: Publisher, end: SinkEnd)
    requires Kept(p)
    ensures Accounted(OnFinalSent(p, end))
  {
    hide Ascending, OnlyLastIsFinal, Numbered;
    if p.stage.Sending? && end == Accepted && !p.incomplete {
      assert InHand(p) == [];
      assert p.accepted + [] + [] + [p.stage.obs] == p.accepted + [p.stage.obs];
    }
  }

  lemma TakeAccounted(p: Publisher)
    requires Kept(p)
    ensures Accounted(OnTake(p))
  {
    hide Ascending, OnlyLastIsFinal, Numbered;
    if p.worker == Waiting && p.queue != [] && !p.incomplete {
      var q := OnTake(p);
      assert p.queue == [p.queue[0]] + p.queue[1..];
      assert p.accepted + [] + p.queue == p.accepted + InHand(q) + q.queue;
    }
  }

  lemma TakeKeeps(p: Publisher)
    requires Kept(p)
    ensures Kept(OnTake(p))
  {
    hide Ascending, Accounted;
    TakeAccounted(p);
    var q := OnTake(p);
    assert Outgoing(q) == Outgoing(p) by {
      if p.queue != [] {
        assert (p.calls + [p.queue[0]]) + p.queue[1..] == p.calls + p.queue;
      }
    }
  }

  lemma DeliveredAccounted(p: Publisher, end: SinkEnd)
    requires Kept(p)
    ensures Accounted(OnDelivered(p, end))
  {
    hide Ascending, OnlyLastIsFinal, Numbered;
    if p.worker.Busy? && end == Accepted && !p.incomplete {
      var q := OnDelivered(p, end);
      assert p.accepted + InHand(p) + p.queue == q.accepted + [] + p.queue;
      assert p.accepted + InHand(p) == q.accepted + [];
    }
  }

  lemma DeliveredKeeps(p: Publisher, end: SinkEnd)
    requires Kept(p)
    ensures Kept(OnDelivered(p, end))
  {
    hide Ascending, Accounted;
    DeliveredAccounted(p, end);
  }

  lemma StepKeeps(p: Publisher, e: Event)
    requires Kept(p)
    ensures Kept(Step(p, e))
  {
    hide Kept, OnEmitLive, OnEmitFinal, OnClose, OnJoinEnds, OnFinalSent, OnTake, OnDelivered;
    match e {
      case EmitLive(tokens, context) => EmitLiveKeeps(p, tokens, context);
      case EmitFinal(tokens, status, context) => EmitFinalKeeps(p, tokens, status, context);
      case JoinEnds(join) => JoinKeeps(p, join);
      case FinalSent(end) => FinalKeeps(p, end);
      case Close => CloseKeeps(p);
      case Take => TakeKeeps(p);
      case Delivered(end) => DeliveredKeeps(p, end);
    }
  }

  lemma {:induction false} RunKeeps(es: seq<Event>)
    ensures Kept(Run(es))
  {
    hide Step;
    if es != [] {
      RunKeeps(es[..|es| - 1]);
      StepKeeps(Run(es[..|es| - 1]), es[|es| - 1]);
    }
  }

  /** The sink is called with strictly increasing sequence numbers, so with none twice. */
  lemma SinkCallsAscend(es: seq<Event>)
    ensures Ascending(Run(es).calls)
  {
    RunKeeps(es);
    var p := Run(es);
    forall i, j | 0 <= i < j < |p.calls| ensures p.calls[i].sequence < p.calls[j].sequence {
      assert Outgoing(p)[i] == p.calls[i] && Outgoing(p)[j] == p.calls[j];
    }
  }

  /** An unflagged finish means the sink accepted every emission 1..n, in order, the single final one last. */
  lemma UnflaggedMeansDelivered(es: seq<Event>)
    requires Run(es).stage == Finished && !Run(es).incomplete
    ensures var p := Run(es);
      && p.accepted == p.calls == p.emitted
      && |p.accepted| == p.sequence > 0
      && (forall i :: 0 <= i < |p.accepted| ==> p.accepted[i].sequence == i + 1)
      && (forall i :: 0 <= i < |p.accepted| ==> (p.accepted[i].final <==> i == |p.accepted| - 1))
  {
    RunKeeps(es);
  }

  /** The events that can lose, or leave in doubt, an observation. */
  predicate Faulty(p: Publisher, e: Event) {
    match e
    case EmitLive(tokens, context) => |OnEmitLive(p, tokens, context).emitted| > |p.emitted| && |p.queue| >= QUEUE_MAX
    case JoinEnds(join) => p.stage.Joining? && join != Drained
    case FinalSent(end) => p.stage.Sending? && end != Accepted
    case Close => p.worker.Busy?
    case Delivered(end) => p.worker.Busy? && end != Accepted
    case _ => false
  }

  predicate FaultAt(es: seq<Event>, k: nat) {
    k < |es| && Faulty(Run(es[..k]), es[k])
  }

  lemma FaultInFront(es: seq<Event>, n: nat, k: nat)
    requires k < n <= |es|
    ensures FaultAt(es[..n], k) <==> FaultAt(es, k)
  {
    hide Run, Faulty;
    assert es[..n][..k] == es[..k];
  }

  /** The flag is raised exactly when some event of the run was faulty. */
  lemma {:induction false} FlagHasACause(es: seq<Event>)
    ensures Run(es).incomplete <==> exists k: nat :: FaultAt(es, k)
  {
    hide Kept, Faulty, Step;
    if es != [] {
      var n := |es| - 1;
      var front := es[..n];
      FlagHasACause(front);
      RunKeeps(front);
      FlagStep(Run(front), es[n]);
      assert FaultAt(es, n) <==> Faulty(Run(front), es[n]);
      if k: nat :| FaultAt(front, k) { FaultInFront(es, n, k); }
      if k: nat :| FaultAt(es, k) && k < n { FaultInFront(es, n, k); }
    }
  }

  lemma FlagStep(p: Publisher, e: Event)
    requires Kept(p)
    ensures Step(p, e).incomplete <==> p.incomplete || Faulty(p, e)
  {
    hide Ascending, Accounted, OnlyLastIsFinal, Numbered;
  }

  // ---- what a raised flag means ----

  /** Emissions that are neither accepted nor on their way to the sink. */
  function Lost(p: Publisher): int {
    |p.emitted| - |p.accepted| - |InHand(p)| - |p.queue| - |Closing(p)|
  }

  /** The queue will not be drained any more. */
  predicate Stranded(p: Publisher) {
    (p.stage.Sending? || p.stage == Finished) && p.queue != []
  }

  /** A join that was cut short although nothing was left to wait for. */
  predicate IdleCut(p: Publisher, e: Event) {
    e.JoinEnds? && e.join != Drained && p.stage.Joining? && p.unfinished == 0
  }

  predicate IdleCutAt(es: seq<Event>, k: nat) {
    k < |es| && IdleCut(Run(es[..k]), es[k])
  }

  lemma CloseLoses(p: Publisher)
    ensures Lost(OnClose(p)) == Lost(p) + |InHand(p)| && OnClose(p).queue == p.queue && OnClose(p).stage == p.stage
    ensures OnClose(p).incomplete == (p.incomplete || p.worker.Busy?)
  {
  }

  lemma JoinLoses(p: Publisher, join: JoinEnd)
    requires Ordered(p) && p.stage.Joining?
    ensures var q := OnJoinEnds(p, join);
      && Lost(q) == (if q == p then Lost(p) else Lost(p) + |InHand(p)|)
      && (q.incomplete && !p.incomplete ==> Lost(q) > Lost(p) || Stranded(q) || IdleCut(p, JoinEnds(join)))
      && (IdleCut(p, JoinEnds(join)) ==> q.incomplete)
  {
    hide Ascending, OnClose;
    var r := if join == Drained then p else p.(incomplete := true);
    CloseLoses(r);
  }

  /** A step loses nothing back, strands for good, and raises the flag only with a loss or an idle cut. */
  lemma StepLoses(p: Publisher, e: Event)
    requires Ordered(p)
    ensures var q := Step(p, e);
      && Lost(q) >= Lost(p)
      && (Stranded(p) ==> Stranded(q))
      && (q.incomplete && !p.incomplete ==> Lost(q) > Lost(p) || Stranded(q) || IdleCut(p, e))
      && (p.incomplete || IdleCut(p, e) ==> q.incomplete)
  {
    hide Ascending, OnJoinEnds, OnClose;
    match e {
      case JoinEnds(join) =>
        if p.stage.Joining? { JoinLoses(p, join); } else { NoJoin(p, join); }
        JoinKeepsFlag(p, join);
      case Close => CloseLoses(p);
      case _ =>
    }
  }

  lemma NoJoin(p: Publisher, join: JoinEnd)
    requires !p.stage.Joining?
    ensures OnJoinEnds(p, join) == p
  {
  }

  lemma JoinKeepsFlag(p: Publisher, join: JoinEnd)
    ensures p.incomplete ==> OnJoinEnds(p, join).incomplete
  {
  }

  lemma IdleCutInFront(es: seq<Event>, n: nat, k: nat)
    requires k < n <= |es|
    ensures IdleCutAt(es[..n], k) <==> IdleCutAt(es, k)
  {
    hide Run, IdleCut;
    assert es[..n][..k] == es[..k];
  }

  lemma {:induction false} FlagHasALoss(es: seq<Event>)
    ensures var p := Run(es);
      && Lost(p) >= 0
      && (p.incomplete ==> Lost(p) > 0 || Stranded(p) || exists k: nat :: IdleCutAt(es, k))
      && ((exists k: nat :: IdleCutAt(es, k)) ==> p.incomplete)
  {
    hide Ordered, Numbered, OnlyLastIsFinal, Accounted, IdleCut, Step, Lost, Stranded;
    if es == [] {
      NothingLostYet();
    } else {
      var n := |es| - 1;
      var front := es[..n];
      FlagHasALoss(front);
      RunKeeps(front);
      StepLoses(Run(front), es[n]);
      assert IdleCutAt(es, n) <==> IdleCut(Run(front), es[n]);
      if k: nat :| IdleCutAt(front, k) { IdleCutInFront(es, n, k); }
      if k: nat :| IdleCutAt(es, k) && k < n { IdleCutInFront(es, n, k); }
    }
  }

  lemma NothingLostYet()
    ensures Lost(IDLE) == 0 && !IDLE.incomplete
  {
  }

  /**
   When the final observation has been sent, the flag is up exactly when some emission was not accepted,
   or when the wait for the queue was cut short although nothing was left in it.
   */
  lemma FlaggedMeansLostIff(es: seq<Event>)
    requires Run(es).stage == Finished
    ensures var p := Run(es);
      p.incomplete <==> |p.accepted| < |p.emitted| || exists k: nat :: IdleCutAt(es, k)
  {
    hide Run, Ascending, Numbered, OnlyLastIsFinal, IdleCutAt;
    FlagHasALoss(es);
    RunKeeps(es);
    if !Run(es).incomplete {
      UnflaggedMeansDelivered(es);
    }
  }

  /** What duplicate filtering remembers is the last live emission. */
  predicate RemembersLast(p: Publisher) {
    && (p.stage != NotYet ==> p.emitted != [])
    && (if Live(p) == [] then p.lastTokens.None? && p.lastLive.None?
        else
          var last := Live(p)[|Live(p)| - 1];
          p.lastTokens == Some(last.tokens) && p.lastContext == last.context && p.lastLive == Some(last.id))
    && (p.stage != NotYet ==> p.emitted[|p.emitted| - 1].reconciles == p.lastLive)
    && (forall i :: 0 <= i < |Live(p)| - 1 ==>
          Live(p)[i].tokens != Live(p)[i + 1].tokens || Live(p)[i].context != Live(p)[i + 1].context)
  }

  lemma EmitRemembers(p: Publisher, tokens: Tokens, status: string, context: Option<Window>)
    requires RemembersLast(p)
    ensures RemembersLast(OnEmitLive(p, tokens, context))
    ensures RemembersLast(OnEmitFinal(p, tokens, status, context))
  {
    var q := OnEmitFinal(p, tokens, status, context);
    assert p.stage == NotYet ==> Live(q) == Live(p);
    var r := OnEmitLive(p, tokens, context);
    if r != p {
      assert r.emitted[..|p.emitted|] == p.emitted;
    }
  }

  lemma SameMemory(p: Publisher, q: Publisher)
    requires RemembersLast(p) && q.emitted == p.emitted && (q.stage == NotYet <==> p.stage == NotYet)
    requires q.lastTokens == p.lastTokens && q.lastContext == p.lastContext && q.lastLive == p.lastLive
    ensures RemembersLast(q)
  {
    assert Live(q) == Live(p);
  }

  lemma OthersRemember(p: Publisher, e: Event)
    requires RemembersLast(p) && !e.EmitLive? && !e.EmitFinal?
    ensures RemembersLast(Step(p, e))
  {
    hide RemembersLast, OnEmitLive, OnEmitFinal;
    SameMemory(p, Step(p, e));
  }

  /** No two neighbouring live observations show the same counters, and the final one names the last of them. */
  lemma {:induction false} DuplicatesAreFiltered(es: seq<Event>)
    ensures RemembersLast(Run(es))
  {
    hide RemembersLast, OnEmitLive, OnEmitFinal, OnJoinEnds, OnFinalSent, OnClose, OnTake, OnDelivered;
    if es == [] {
      IdleRemembers();
    } else {
      var p, e := Run(es[..|es| - 1]), es[|es| - 1];
      DuplicatesAreFiltered(es[..|es| - 1]);
      match e {
        case EmitLive(tokens, context) => EmitRemembers(p, tokens, "", context);
        case EmitFinal(tokens, status, context) => EmitRemembers(p, tokens, status, context);
        case _ => OthersRemember(p, e);
      }
    }
  }

  lemma IdleRemembers()
    ensures RemembersLast(IDLE)
  {
  }

  // ---- the normaliser in front of the publisher ----

  function Measured(v: Json): Option<nat> {
    if v.Int? && 0 <= v.n <= MAX_SIGNED_BIGINT then Some(v.n) else None
  }

  function TokensFromUsage(value: Json, inputIncludesCache: bool): Tokens {
    if !value.Obj? then Tokens(None, None, None, None)
    else
      var input := Measured(Get(value.fields, "input_tokens"));
      var output := Measured(Get(value.fields, "output_tokens"));
      var cached := Measured(GetEither(value.fields, "cache_read_tokens", "cached_input_tokens"));
      var thought := Measured(GetEither(value.fields, "thinking_tokens", "reasoning_output_tokens"));
      var whole :=
        if inputIncludesCache then input
        else if input.None? || cached.None? || input.value + cached.value > MAX_SIGNED_BIGINT then None
        else Some(input.value + cached.value);
      Tokens(whole, output,
             if inputIncludesCache && cached.Some? && input.Some? && cached.value > input.value then None else cached,
             if thought.Some? && output.Some? && thought.value > output.value then None else thought)
  }

  /** The count a client reported under a key, when it is in range. */
  predicate Reports(v: Json, n: nat) {
    v == Int(n) && n <= MAX_SIGNED_BIGINT
  }

  function CacheField(fields: JObj): Json {
    GetEither(fields, "cache_read_tokens", "cached_input_tokens")
  }

  function ThoughtField(fields: JObj): Json {
    GetEither(fields, "thinking_tokens", "reasoning_output_tokens")
  }

  /** Whatever the client reported, the counters satisfy the constructor's checks. */
  lemma NormalisedTokensAreValid(value: Json, inputIncludesCache: bool)
    ensures var t := TokensFromUsage(value, inputIncludesCache);
      && (forall part :: part in {t.input, t.output, t.cached, t.reasoning} ==> part.Some? ==> part.value <= MAX_SIGNED_BIGINT)
      && (t.cached.Some? && t.input.Some? ==> t.cached.value <= t.input.value)
      && (t.reasoning.Some? && t.output.Some? ==> t.reasoning.value <= t.output.value)
  {
  }

  /**
   A counter is known exactly when it was reported in range and does not contradict the one that bounds it,
   and then it is what was reported; input reported without its cache is known only together with it.
   */
  lemma NormalisedTokensAreReported(fields: JObj, inputIncludesCache: bool, n: nat)
    ensures var t := TokensFromUsage(Obj(fields), inputIncludesCache);
      && (t.output == Some(n) <==> Reports(Get(fields, "output_tokens"), n))
      && (t.cached == Some(n) <==>
            Reports(CacheField(fields), n) && !(inputIncludesCache && t.input.Some? && n > t.input.value))
      && (t.reasoning == Some(n) <==> Reports(ThoughtField(fields), n) && !(t.output.Some? && n > t.output.value))
      && (inputIncludesCache ==> (t.input == Some(n) <==> Reports(Get(fields, "input_tokens"), n)))
      && (!inputIncludesCache ==>
            (t.input == Some(n) <==>
              && n <= MAX_SIGNED_BIGINT
              && exists m: nat, c: nat ::
                Reports(Get(fields, "input_tokens"), m) && Reports(CacheField(fields), c) && m + c == n))
  {
    var input, cached := Get(fields, "input_tokens"), CacheField(fields);
    if input.Int? && cached.Int? && 0 <= input.n <= MAX_SIGNED_BIGINT && 0 <= cached.n <= MAX_SIGNED_BIGINT {
      assert Reports(input, input.n) && Reports(cached, cached.n);
    }
  }
}
