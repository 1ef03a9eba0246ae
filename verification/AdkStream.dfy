/** Metering of one ADK event stream, and the budget gate in front of every further event. */
module AdkStream {
  import opened Prelude

  const INT32_MAX: int := 0x7FFF_FFFF
  const MAX_EVENTS: nat := 10_000

  /** Provider counters as they arrive: null is unreported, and anything but an int32 is an error. */
  datatype UsageMetadata = UsageMetadata(prompt: Json, toolPrompt: Json, candidates: Json, thoughts: Json, cached: Json)

  datatype FinishReason = Completed | BudgetExhausted | TimedOut | Failed | Cancelled

  /** One runner event. `cost` is the first non-null cost field; `calls` counts a final event's function calls. */
  datatype Event = Event(
    usage: Option<UsageMetadata>, modelRole: bool, cost: Json, calls: nat, partial: bool,
    duplicateCallIds: bool, text: Option<string>, reason: Option<FinishReason>)

  datatype Error = RuntimeError

  function Max(a: nat, b: nat): nat {
    if a < b then b else a
  }

  function CheckedAdd(a: nat, b: nat): Result<nat, Error> {
    if a + b > INT32_MAX then Err(RuntimeError) else Ok(a + b)
  }

  predicate BadCount(v: Json) {
    !v.Null? && !(v.Int? && 0 <= v.n <= INT32_MAX)
  }

  function Count(v: Json): nat {
    if v.Int? && 0 <= v.n then v.n else 0
  }

  /** The three counters of one event, with whether the provider reported each. */
  datatype Snapshot = Snapshot(input: nat, output: nat, cached: nat, hasInput: bool, hasOutput: bool, hasCached: bool)

  function UsageSnapshot(u: UsageMetadata): Result<Snapshot, Error> {
    if BadCount(u.prompt) || BadCount(u.toolPrompt) || BadCount(u.candidates) || BadCount(u.thoughts) || BadCount(u.cached)
       || CheckedAdd(Count(u.prompt), Count(u.toolPrompt)).Err? || CheckedAdd(Count(u.candidates), Count(u.thoughts)).Err?
    then Err(RuntimeError)
    else
      var input := Count(u.prompt) + Count(u.toolPrompt);
      Ok(Snapshot(if u.prompt.Null? then Max(input, Count(u.cached)) else input,
                  Count(u.candidates) + Count(u.thoughts), Count(u.cached),
                  !u.prompt.Null?, !u.candidates.Null?, !u.cached.Null?))
  }

  // ---- one dimension of the meter ----

  datatype Dim = Dim(total: nat, complete: bool, active: nat, activeComplete: bool)

  function Raise(d: Dim, amount: nat, reported: bool): Dim {
    d.(active := Max(d.active, amount), activeComplete := d.activeComplete || reported)
  }

  function CommitDim(d: Dim, modelTurn: bool): Dim {
    Dim(d.total + d.active, d.complete && (modelTurn ==> d.activeComplete), 0, false)
  }

  function AddCost(cost: Option<nat>, more: Option<nat>): Option<nat> {
    if more.None? then cost else Some(cost.Or(0) + more.value)
  }

  datatype Meter = Meter(
    input: Dim, output: Dim, cached: Dim, toolCalls: nat, cost: Option<nat>, activeCost: Option<nat>,
    activeTurn: bool, observedModelTurn: bool, activeModelTurn: bool,
    lastText: Option<string>, finish: FinishReason)

  const FRESH := Meter(
    Dim(0, true, 0, false), Dim(0, true, 0, false), Dim(0, true, 0, false), 0, None, None,
    false, false, false, None, Completed)

  /** Detached cumulative usage. */
  datatype Usage = Usage(
    input: nat, output: nat, cached: nat, toolCalls: nat, cost: Option<nat>,
    inputComplete: bool, outputComplete: bool, cachedComplete: bool)

  predicate Overflow(m: Meter) {
    || m.input.total + m.input.active > INT32_MAX
    || m.output.total + m.output.active > INT32_MAX
    || m.cached.total + m.cached.active > INT32_MAX
    || AddCost(m.cost, m.activeCost).Or(0) > INT32_MAX
  }

  predicate CompleteDim(m: Meter, d: Dim) {
    m.observedModelTurn && d.complete && (!m.activeModelTurn || d.activeComplete)
  }

  function CurrentUsage(m: Meter): Result<Usage, Error> {
    if Overflow(m) then Err(RuntimeError)
    else Ok(Usage(m.input.total + m.input.active, m.output.total + m.output.active, m.cached.total + m.cached.active,
                  m.toolCalls, AddCost(m.cost, m.activeCost),
                  CompleteDim(m, m.input), CompleteDim(m, m.output), CompleteDim(m, m.cached)))
  }

  function Commit(m: Meter): Result<Meter, Error> {
    if !m.activeTurn then Ok(m)
    else if Overflow(m) then Err(RuntimeError)
    else Ok(m.(input := CommitDim(m.input, m.activeModelTurn), output := CommitDim(m.output, m.activeModelTurn),
               cached := CommitDim(m.cached, m.activeModelTurn), cost := AddCost(m.cost, m.activeCost), activeCost := None,
               activeTurn := false, activeModelTurn := false))
  }

  function Absorb(m: Meter, e: Event, s: Snapshot): Meter {
    var model := e.usage.Some? || e.modelRole;
    m.(input := Raise(m.input, s.input, s.hasInput), output := Raise(m.output, s.output, s.hasOutput),
       cached := Raise(m.cached, s.cached, s.hasCached), toolCalls := m.toolCalls + e.calls,
       activeCost := if e.cost.Null? then m.activeCost else Some(Max(m.activeCost.Or(0), Count(e.cost))),
       activeTurn := true, observedModelTurn := m.observedModelTurn || model, activeModelTurn := m.activeModelTurn || model,
       lastText := if e.text.Some? then e.text else m.lastText,
       finish := if e.reason.Some? && m.finish == Completed then e.reason.value else m.finish)
  }

  function SnapshotOf(e: Event): Result<Snapshot, Error> {
    if e.usage.None? then Ok(Snapshot(0, 0, 0, false, false, false)) else UsageSnapshot(e.usage.value)
  }

  function Observe(m: Meter, e: Event): Result<Meter, Error> {
    var s := SnapshotOf(e);
    if s.Err? || BadCount(e.cost) || m.toolCalls + e.calls > INT32_MAX then Err(RuntimeError)
    else
      var next := Absorb(m, e, s.value);
      if e.partial then Ok(next) else Commit(next)
  }

  // ---- the stream object ----

  /** `_ObservedStream` spells each dimension out as four scalar fields; here they are grouped. */
  class ObservedStream {
    var input: Dim
    var output: Dim
    var cached: Dim
    var toolCalls: nat
    var cost: Option<nat>
    var activeCost: Option<nat>
    var activeTurn: bool
    var observedModelTurn: bool
    var activeModelTurn: bool
    var lastText: Option<string>
    var finish: FinishReason

    function State(): Meter
      reads this
    {
      Meter(input, output, cached, toolCalls, cost, activeCost, activeTurn, observedModelTurn, activeModelTurn,
            lastText, finish)
    }

    constructor ()
      ensures State() == FRESH
    {
      input, output, cached := Dim(0, true, 0, false), Dim(0, true, 0, false), Dim(0, true, 0, false);
      toolCalls, cost, activeCost := 0, None, None;
      activeTurn, observedModelTurn, activeModelTurn := false, false, false;
      lastText, finish := None, Completed;
    }

    /** Raises the active turn to what one event shows. */
    method TakeIn(e: Event, s: Snapshot)
      modifies this
      ensures State() == Absorb(old(State()), e, s)
    {
      hide Raise, Max, Count;
      activeTurn := true;
      if e.usage.Some? || e.modelRole {
        activeModelTurn, observedModelTurn := true, true;
      }
      input := Raise(input, s.input, s.hasInput);
      output := Raise(output, s.output, s.hasOutput);
      cached := Raise(cached, s.cached, s.hasCached);
      activeCost := if e.cost.Null? then activeCost else Some(Max(activeCost.Or(0), Count(e.cost)));
      toolCalls := toolCalls + e.calls;
      lastText := if e.text.Some? then e.text else lastText;
      if finish == Completed && e.reason.Some? {
        finish := e.reason.value;
      }
    }

    /** On an error the attempt is over and the stream is not read again. */
    method ObserveEvent(e: Event) returns (ok: bool)
      modifies this
      ensures ok <==> Observe(old(State()), e).Ok?
      ensures ok ==> State() == Observe(old(State()), e).value
    {
      hide Commit, Absorb, SnapshotOf;
      var s := SnapshotOf(e);
      if s.Err? || BadCount(e.cost) || toolCalls + e.calls > INT32_MAX {
        return false;
      }
      TakeIn(e, s.value);
      ok := true;
      if !e.partial {
        ok := CommitActiveTurn();
      }
    }

    method CommitActiveTurn() returns (ok: bool)
      modifies this
      ensures ok <==> Commit(old(State())).Ok?
      ensures ok ==> State() == Commit(old(State())).value
    {
      if !activeTurn {
        return true;
      }
      if Overflow(State()) {
        return false;
      }
      input := CommitDim(input, activeModelTurn);
      output := CommitDim(output, activeModelTurn);
      cached := CommitDim(cached, activeModelTurn);
      cost, activeCost := AddCost(cost, activeCost), None;
      activeTurn, activeModelTurn := false, false;
      ok := true;
    }
  }

  // ---- the reference reading: a sum over turns of the maximum within the turn ----

  /** Runs of partial events, each closed by a non-partial one, and the run still open. */
  datatype Turns = Turns(closed: seq<seq<Event>>, open: seq<Event>)

  function Split(es: seq<Event>): Turns {
    if es == [] then Turns([], [])
    else
      var t := Split(es[..|es| - 1]);
      var e := es[|es| - 1];
      if e.partial then t.(open := t.open + [e]) else Turns(t.closed + [t.open + [e]], [])
  }

  datatype Field = InputField | OutputField | CachedField

  function Shown(e: Event, f: Field): nat {
    match SnapshotOf(e)
    case Err(_) => 0
    case Ok(s) => match f case InputField => s.input case OutputField => s.output case CachedField => s.cached
  }

  predicate Reports(e: Event, f: Field) {
    match SnapshotOf(e)
    case Err(_) => false
    case Ok(s) => match f case InputField => s.hasInput case OutputField => s.hasOutput case CachedField => s.hasCached
  }

  function Peak(turn: seq<Event>, f: Field): nat {
    if turn == [] then 0 else Max(Peak(turn[..|turn| - 1], f), Shown(turn[|turn| - 1], f))
  }

  function PeakCost(turn: seq<Event>): Option<nat> {
    if turn == [] then None
    else
      var before := PeakCost(turn[..|turn| - 1]);
      var cost := turn[|turn| - 1].cost;
      if cost.Null? then before else Some(Max(before.Or(0), Count(cost)))
  }

  function SumPeaks(turns: seq<seq<Event>>, f: Field): nat {
    if turns == [] then 0 else SumPeaks(turns[..|turns| - 1], f) + Peak(turns[|turns| - 1], f)
  }

  function SumCosts(turns: seq<seq<Event>>): Option<nat> {
    if turns == [] then None else AddCost(SumCosts(turns[..|turns| - 1]), PeakCost(turns[|turns| - 1]))
  }

  function SumCalls(es: seq<Event>): nat {
    if es == [] then 0 else SumCalls(es[..|es| - 1]) + es[|es| - 1].calls
  }

  ghost predicate ModelTurn(turn: seq<Event>) {
    exists e :: e in turn && (e.usage.Some? || e.modelRole)
  }

  ghost predicate TurnReports(turn: seq<Event>, f: Field) {
    exists e :: e in turn && Reports(e, f)
  }

  /** All turns so far, the open one included. */
  function AllTurns(es: seq<Event>): seq<seq<Event>> {
    var t := Split(es);
    if t.open == [] then t.closed else t.closed + [t.open]
  }

  function ObserveAll(es: seq<Event>): Result<Meter, Error> {
    if es == [] then Ok(FRESH)
    else
      match ObserveAll(es[..|es| - 1])
      case Err(why) => Err(why)
      case Ok(m) => Observe(m, es[|es| - 1])
  }

  function DimOf(m: Meter, f: Field): Dim {
    match f case InputField => m.input case OutputField => m.output case CachedField => m.cached
  }

  ghost predicate DimTracks(m: Meter, t: Turns, f: Field) {
    var d := DimOf(m, f);
    && d.total == SumPeaks(t.closed, f)
    && d.active == Peak(t.open, f)
    && (d.complete <==> forall turn :: turn in t.closed && ModelTurn(turn) ==> TurnReports(turn, f))
    && (d.activeComplete <==> TurnReports(t.open, f))
  }

  ghost predicate Tracks(m: Meter, t: Turns, calls: nat) {
    && DimTracks(m, t, InputField) && DimTracks(m, t, OutputField) && DimTracks(m, t, CachedField)
    && m.cost == SumCosts(t.closed) && m.activeCost == PeakCost(t.open)
    && (m.activeTurn <==> t.open != [])
    && (m.activeModelTurn <==> ModelTurn(t.open))
    && (m.observedModelTurn <==> ModelTurn(t.open) || exists turn :: turn in t.closed && ModelTurn(turn))
    && m.toolCalls == calls
  }

  lemma TurnAppend(turn: seq<Event>, e: Event, f: Field)
    ensures ModelTurn(turn + [e]) <==> ModelTurn(turn) || e.usage.Some? || e.modelRole
    ensures TurnReports(turn + [e], f) <==> TurnReports(turn, f) || Reports(e, f)
    ensures Peak(turn + [e], f) == Max(Peak(turn, f), Shown(e, f))
    ensures PeakCost(turn + [e]) == if e.cost.Null? then PeakCost(turn) else Some(Max(PeakCost(turn).Or(0), Count(e.cost)))
  {
    assert (turn + [e])[..|turn|] == turn;
    assert e in turn + [e];
    forall x | x in turn ensures x in turn + [e] {
    }
  }

  lemma AbsorbTracks(m: Meter, t: Turns, calls: nat, e: Event, s: Snapshot)
    requires Tracks(m, t, calls) && SnapshotOf(e) == Ok(s)
    ensures Tracks(Absorb(m, e, s), t.(open := t.open + [e]), calls + e.calls)
  {
    hide ModelTurn, TurnReports, Peak, PeakCost, SumPeaks, SumCosts, SnapshotOf;
    forall f: Field
      ensures DimTracks(Absorb(m, e, s), t.(open := t.open + [e]), f)
    {
      TurnAppend(t.open, e, f);
      assert DimTracks(m, t, f);
    }
    TurnAppend(t.open, e, InputField);
  }

  lemma OneMoreTurn(closed: seq<seq<Event>>, open: seq<Event>, f: Field)
    ensures var turns := closed + [open];
      && SumPeaks(turns, f) == SumPeaks(closed, f) + Peak(open, f)
      && ((exists turn :: turn in turns && ModelTurn(turn)) <==>
            ModelTurn(open) || exists turn :: turn in closed && ModelTurn(turn))
      && ((forall turn :: turn in turns && ModelTurn(turn) ==> TurnReports(turn, f)) <==>
            (ModelTurn(open) ==> TurnReports(open, f))
            && forall turn :: turn in closed && ModelTurn(turn) ==> TurnReports(turn, f))
  {
    hide ModelTurn, TurnReports, Peak;
    var turns := closed + [open];
    assert turns[..|closed|] == closed;
    assert open in turns;
    assert forall turn :: turn in closed ==> turn in turns;
  }

  lemma NothingOpen(f: Field)
    ensures !ModelTurn([]) && Peak([], f) == 0 && !TurnReports([], f)
  {
  }

  lemma CommitDimTracks(m: Meter, t: Turns, f: Field)
    requires DimTracks(m, t, f) && (m.activeModelTurn <==> ModelTurn(t.open)) && Commit(m).Ok? && m.activeTurn
    ensures DimTracks(Commit(m).value, Turns(t.closed + [t.open], []), f)
  {
    hide Overflow, SumPeaks, Peak, ModelTurn, TurnReports, AddCost;
    OneMoreTurn(t.closed, t.open, f);
    NothingOpen(f);
  }

  lemma CommitCostTracks(m: Meter, t: Turns)
    requires m.cost == SumCosts(t.closed) && m.activeCost == PeakCost(t.open) && Commit(m).Ok? && m.activeTurn
    ensures Commit(m).value.cost == SumCosts(t.closed + [t.open]) && Commit(m).value.activeCost == PeakCost([])
  {
    hide Overflow, CommitDim;
    assert (t.closed + [t.open])[..|t.closed|] == t.closed;
  }

  lemma CommitTracks(m: Meter, t: Turns, calls: nat)
    requires Tracks(m, t, calls) && m.activeTurn && Commit(m).Ok?
    ensures Tracks(Commit(m).value, Turns(t.closed + [t.open], []), calls)
  {
    hide Overflow, DimTracks, SumCosts, PeakCost, ModelTurn, CommitDim, AddCost;
    forall f: Field | DimTracks(m, t, f) ensures DimTracks(Commit(m).value, Turns(t.closed + [t.open], []), f) {
      CommitDimTracks(m, t, f);
    }
    CommitCostTracks(m, t);
    OneMoreTurn(t.closed, t.open, InputField);
    NothingOpen(InputField);
  }

  lemma {:induction false} StreamTracks(es: seq<Event>)
    requires ObserveAll(es).Ok?
    ensures Tracks(ObserveAll(es).value, Split(es), SumCalls(es))
  {
    hide Tracks, Absorb, Commit, SnapshotOf;
    if es == [] {
      FreshTracks();
    } else {
      var front, e := es[..|es| - 1], es[|es| - 1];
      StreamTracks(front);
      var m := ObserveAll(front).value;
      var s := SnapshotOf(e).value;
      AbsorbTracks(m, Split(front), SumCalls(front), e, s);
      if !e.partial {
        AbsorbedIsActive(m, e, s);
        CommitTracks(Absorb(m, e, s), Split(front).(open := Split(front).open + [e]), SumCalls(es));
      }
    }
  }

  lemma AbsorbedIsActive(m: Meter, e: Event, s: Snapshot)
    ensures Absorb(m, e, s).activeTurn
  {
  }

  lemma FreshTracks()
    ensures Tracks(FRESH, Turns([], []), 0)
  {
  }

  function Flatten(turns: seq<seq<Event>>): seq<Event> {
    if turns == [] then [] else Flatten(turns[..|turns| - 1]) + turns[|turns| - 1]
  }

  predicate ClosedTurn(turn: seq<Event>) {
    && turn != [] && !turn[|turn| - 1].partial
    && forall i :: 0 <= i < |turn| - 1 ==> turn[i].partial
  }

  /** The turns are the stream cut after each non-partial event, and nowhere else. */
  lemma {:induction false} TurnsPartitionTheStream(es: seq<Event>)
    ensures var t := Split(es);
      && Flatten(t.closed) + t.open == es
      && (forall turn :: turn in t.closed ==> ClosedTurn(turn))
      && (forall e :: e in t.open ==> e.partial)
  {
    hide Flatten, ClosedTurn;
    if es == [] {
      FlattenAppend([], []);
    } else {
      var front, e := es[..|es| - 1], es[|es| - 1];
      TurnsPartitionTheStream(front);
      var t := Split(front);
      assert es == front + [e];
      assert es == Flatten(t.closed) + (t.open + [e]);
      if !e.partial {
        FlattenAppend(t.closed, t.open + [e]);
        ClosesTurn(t.open, e);
      }
    }
  }

  lemma FlattenAppend(turns: seq<seq<Event>>, turn: seq<Event>)
    ensures Flatten([]) == [] && Flatten(turns + [turn]) == Flatten(turns) + turn
  {
    assert (turns + [turn])[..|turns|] == turns;
  }

  lemma ClosesTurn(open: seq<Event>, e: Event)
    requires !e.partial && forall x :: x in open ==> x.partial
    ensures ClosedTurn(open + [e])
  {
  }

  /** What the usage says of one dimension. */
  ghost predicate DimReads(amount: nat, complete: bool, turns: seq<seq<Event>>, f: Field) {
    && amount == SumPeaks(turns, f)
    && (complete <==> (exists turn :: turn in turns && ModelTurn(turn))
                      && forall turn :: turn in turns && ModelTurn(turn) ==> TurnReports(turn, f))
  }

  lemma DimReading(m: Meter, t: Turns, calls: nat, f: Field)
    requires Tracks(m, t, calls)
    ensures var turns := if t.open == [] then t.closed else t.closed + [t.open];
      DimReads(DimOf(m, f).total + DimOf(m, f).active, CompleteDim(m, DimOf(m, f)), turns, f)
  {
    hide SumCosts, PeakCost, SumPeaks, Peak, ModelTurn, TurnReports;
    assert DimTracks(m, t, f);
    if t.open == [] {
      NothingOpen(f);
    } else {
      OneMoreTurn(t.closed, t.open, f);
    }
  }

  /**
   The incremental meter is the plain reading of the stream: every dimension is the sum over turns of
   the turn's maximum, and is complete exactly when some model turn occurred and every one reported it.
   */
  lemma UsageIsSumOfPeaks(es: seq<Event>)
    requires ObserveAll(es).Ok? && CurrentUsage(ObserveAll(es).value).Ok?
    ensures var u := CurrentUsage(ObserveAll(es).value).value;
      && DimReads(u.input, u.inputComplete, AllTurns(es), InputField)
      && DimReads(u.output, u.outputComplete, AllTurns(es), OutputField)
      && DimReads(u.cached, u.cachedComplete, AllTurns(es), CachedField)
      && u.cost == SumCosts(AllTurns(es)) && u.toolCalls == SumCalls(es)
  {
    hide ObserveAll, DimReads, ModelTurn, TurnReports, SumPeaks, Peak, PeakCost, Split;
    StreamTracks(es);
    var m := ObserveAll(es).value;
    var t := Split(es);
    DimReading(m, t, SumCalls(es), InputField);
    DimReading(m, t, SumCalls(es), OutputField);
    DimReading(m, t, SumCalls(es), CachedField);
    CostReading(t);
  }

  lemma CostReading(t: Turns)
    ensures AddCost(SumCosts(t.closed), PeakCost(t.open)) == SumCosts(if t.open == [] then t.closed else t.closed + [t.open])
  {
    if t.open != [] {
      assert (t.closed + [t.open])[..|t.closed|] == t.closed;
    }
  }

  /** Closing the active turn never changes what the usage reads. */
  lemma CommitKeepsUsage(m: Meter)
    requires Commit(m).Ok? && (m.activeModelTurn ==> m.observedModelTurn)
    ensures CurrentUsage(Commit(m).value) == CurrentUsage(m)
  {
  }

  // ---- the budget gate ----

  /** Caps of one invocation; the estimator prices cumulative usage, `None` when it cannot. */
  datatype Caps = Caps(
    input: Option<nat>, output: Option<nat>, total: Option<nat>, toolCalls: nat, costMinor: nat,
    estimate: Option<Usage -> Option<int>>)

  /** The conservative cost that authorises the next step, or `None` when there is no price. */
  function EffectiveCost(caps: Caps, u: Usage): Option<nat> {
    match caps.estimate
    case None =>
      if u.cost.None? && (u.input > 0 || u.output > 0 || u.cached > 0) then None else Some(u.cost.Or(0))
    case Some(estimate) =>
      var estimated := estimate(u);
      if estimated.None? || !(0 <= estimated.value <= INT32_MAX) then None
      else Some(Max(u.cost.Or(0), estimated.value))
  }

  predicate OverCountCaps(caps: Caps, u: Usage) {
    || (caps.input.Some? && u.input > caps.input.value)
    || (caps.total.Some? && u.input + u.output > caps.total.value)
    || (caps.output.Some? && u.output > caps.output.value)
    || u.toolCalls > caps.toolCalls
  }

  predicate OverCost(caps: Caps, u: Usage) {
    var cost := EffectiveCost(caps, u);
    cost.None? || cost.value > caps.costMinor
  }

  predicate OverBudget(caps: Caps, u: Usage) {
    OverCountCaps(caps, u) || OverCost(caps, u)
  }

  /** What asking the stream for one more event yields. */
  datatype Next = Arrives(e: Event) | Ends(late: bool) | Deadline | ProviderFails

  datatype Outcome = Outcome(reason: FinishReason, usage: Usage) | Raised

  /** One invocation: the outcome, and how many events were taken from the stream. */
  datatype Invocation = Invocation(outcome: Outcome, taken: nat)

  function Ending(m: Meter, reason: FinishReason): Outcome {
    var u := CurrentUsage(m);
    if u.Err? then Raised else Outcome(reason, u.value)
  }

  function Invoke(caps: Caps, m: Meter, script: seq<Next>, taken: nat): Invocation
    decreases |script|
  {
    if script == [] then Invocation(Ending(m, Failed), taken)
    else
      match script[0]
      case Deadline => Invocation(Ending(m, BudgetExhausted), taken)
      case ProviderFails => Invocation(Ending(m, Failed), taken)
      case Ends(late) =>
        var last := Commit(m);
        Invocation(if last.Err? then Raised else Ending(last.value, if late then BudgetExhausted else last.value.finish), taken)
      case Arrives(e) =>
        if taken + 1 > MAX_EVENTS || e.duplicateCallIds then Invocation(Raised, taken + 1)
        else
          var next := Observe(m, e);
          if next.Err? || CurrentUsage(next.value).Err? then Invocation(Raised, taken + 1)
          else if OverBudget(caps, CurrentUsage(next.value).value) then
            Invocation(Ending(next.value, BudgetExhausted), taken + 1)
          else Invoke(caps, next.value, script[1..], taken + 1)
  }

  /** Why the invocation ends on its latest event, if it does. */
  function Objection(caps: Caps, m: Meter, taken: nat, e: Event): Option<Outcome> {
    var next := Observe(m, e);
    if taken > MAX_EVENTS || e.duplicateCallIds || next.Err? || CurrentUsage(next.value).Err? then Some(Raised)
    else if OverBudget(caps, CurrentUsage(next.value).value) then Some(Ending(next.value, BudgetExhausted))
    else None
  }

  /** How the invocation ends when no further event arrives. */
  function Conclusion(m: Meter, next: Next): Outcome
    requires !next.Arrives?
  {
    match next
    case Deadline => Ending(m, BudgetExhausted)
    case ProviderFails => Ending(m, Failed)
    case Ends(late) =>
      var last := Commit(m);
      if last.Err? then Raised else Ending(last.value, if late then BudgetExhausted else last.value.finish)
  }

  lemma InvokeOne(caps: Caps, m: Meter, script: seq<Next>, taken: nat)
    requires script != []
    ensures Invoke(caps, m, script, taken) ==
      if !script[0].Arrives? then Invocation(Conclusion(m, script[0]), taken)
      else
        var stop := Objection(caps, m, taken + 1, script[0].e);
        if stop.Some? then Invocation(stop.value, taken + 1)
        else Invoke(caps, Observe(m, script[0].e).value, script[1..], taken + 1)
  {
    hide Observe, CurrentUsage, OverBudget, Ending, Commit;
  }

  method MeterOne(observed: ObservedStream, caps: Caps, taken: nat, e: Event) returns (stop: Option<Outcome>)
    modifies observed
    ensures stop == Objection(caps, old(observed.State()), taken, e)
    ensures stop.None? ==> Observe(old(observed.State()), e) == Ok(observed.State())
  {
    hide Observe, CurrentUsage, OverBudget;
    if taken > MAX_EVENTS || e.duplicateCallIds {
      return Some(Raised);
    }
    var ok := observed.ObserveEvent(e);
    if !ok {
      return Some(Raised);
    }
    var usage := CurrentUsage(observed.State());
    if usage.Err? {
      return Some(Raised);
    }
    stop := if OverBudget(caps, usage.value) then Some(Ending(observed.State(), BudgetExhausted)) else None;
  }

  method Conclude(observed: ObservedStream, next: Next) returns (outcome: Outcome)
    requires !next.Arrives?
    modifies observed
    ensures outcome == Conclusion(old(observed.State()), next)
  {
    hide Commit, CurrentUsage;
    match next {
      case Deadline => outcome := Ending(observed.State(), BudgetExhausted);
      case ProviderFails => outcome := Ending(observed.State(), Failed);
      case Ends(late) =>
        var ok := observed.CommitActiveTurn();
        outcome := if !ok then Raised else Ending(observed.State(), if late then BudgetExhausted else observed.finish);
    }
  }

  /** The loop of the runtime: each event is metered, and judged, before the next is asked for. */
  method InvokeStream(caps: Caps, script: seq<Next>) returns (outcome: Outcome, taken: nat)
    ensures Invocation(outcome, taken) == Invoke(caps, FRESH, script, 0)
  {
    hide Objection, Conclusion, Observe, Ending;
    var observed := new ObservedStream();
    taken := 0;
    var n := 0;
    assert script[0..] == script;
    while n < |script|
      invariant 0 <= n <= |script|
      invariant Invoke(caps, FRESH, script, 0) == Invoke(caps, observed.State(), script[n..], taken)
    {
      hide Invoke;
      InvokeOne(caps, observed.State(), script[n..], taken);
      assert script[n..][1..] == script[n + 1..];
      if !script[n].Arrives? {
        outcome := Conclude(observed, script[n]);
        return;
      }
      taken := taken + 1;
      var stop := MeterOne(observed, caps, taken, script[n].e);
      if stop.Some? {
        return stop.value, taken;
      }
      n := n + 1;
    }
    return Ending(observed.State(), Failed), taken;
  }

  function EventsOf(script: seq<Next>): seq<Event> {
    if script == [] || !script[0].Arrives? then [] else [script[0].e] + EventsOf(script[1..])
  }

  function UsageAfter(es: seq<Event>): Result<Usage, Error> {
    match ObserveAll(es)
    case Err(why) => Err(why)
    case Ok(m) => CurrentUsage(m)
  }

  predicate WithinAt(caps: Caps, es: seq<Event>) {
    UsageAfter(es).Ok? && !OverBudget(caps, UsageAfter(es).value)
  }

  /** The totals after each event from one position up to another are within all caps. */
  ghost predicate WithinFrom(caps: Caps, es: seq<Event>, from: int, to: int) {
    to <= |es| && forall j :: from < j <= to && 0 <= j ==> WithinAt(caps, es[..j])
  }

  lemma WithinOneMore(caps: Caps, es: seq<Event>, from: nat, to: int)
    requires WithinFrom(caps, es, from + 1, to) && (from < to ==> WithinAt(caps, es[..from + 1]))
    ensures WithinFrom(caps, es, from, to)
  {
    hide WithinAt;
  }

  lemma AskedAgain(caps: Caps, m: Meter, script: seq<Next>, taken: nat)
    requires Invoke(caps, m, script, taken).taken > taken + 1
    ensures script != [] && script[0].Arrives? && Objection(caps, m, taken + 1, script[0].e).None?
    ensures Invoke(caps, m, script, taken) == Invoke(caps, Observe(m, script[0].e).value, script[1..], taken + 1)
  {
    hide Objection, Conclusion, Observe;
    if script != [] {
      InvokeOne(caps, m, script, taken);
    }
  }

  lemma NextIsWithin(caps: Caps, m: Meter, done: seq<Event>, e: Event, taken: nat)
    requires ObserveAll(done) == Ok(m) && Objection(caps, m, taken, e).None?
    ensures Observe(m, e).Ok? && ObserveAll(done + [e]) == Observe(m, e) && WithinAt(caps, done + [e])
  {
    hide Observe, CurrentUsage, OverBudget;
    assert (done + [e])[..|done|] == done;
  }

  lemma {:induction false} AdvancesFrom(caps: Caps, m: Meter, done: seq<Event>, script: seq<Next>, k: nat)
    requires ObserveAll(done) == Ok(m)
    requires |done| <= k < Invoke(caps, m, script, |done|).taken
    ensures WithinFrom(caps, done + EventsOf(script), |done|, k)
    decreases |script|
  {
    hide Observe, Objection, Invoke, ObserveAll, WithinAt;
    var es := done + EventsOf(script);
    if |done| < k {
      AskedAgain(caps, m, script, |done|);
      var e := script[0].e;
      var more := done + [e];
      NextIsWithin(caps, m, done, e, |done| + 1);
      assert es[..|more|] == more;
      assert es == more + EventsOf(script[1..]);
      AdvancesFrom(caps, Observe(m, e).value, more, script[1..], k);
      WithinOneMore(caps, es, |done|, k);
    }
  }

  lemma NothingObserved()
    ensures ObserveAll([]) == Ok(FRESH)
  {
  }

  /** The stream is asked for the event after the k-th only when the totals after each of the first k fit all caps. */
  lemma AdvancesOnlyWithinCaps(caps: Caps, script: seq<Next>, k: nat)
    requires k < Invoke(caps, FRESH, script, 0).taken
    ensures WithinFrom(caps, EventsOf(script), 0, k)
  {
    hide Invoke, WithinFrom, EventsOf, ObserveAll;
    NothingObserved();
    AdvancesFrom(caps, FRESH, [], script, k);
    assert [] + EventsOf(script) == EventsOf(script);
  }

  predicate UsageGrows(a: Usage, b: Usage) {
    && a.input <= b.input && a.output <= b.output && a.cached <= b.cached && a.toolCalls <= b.toolCalls
    && (a.cost.Some? ==> b.cost.Some? && a.cost.value <= b.cost.value)
  }

  lemma ObserveGrows(m: Meter, e: Event)
    requires Observe(m, e).Ok? && CurrentUsage(Observe(m, e).value).Ok?
    ensures CurrentUsage(m).Ok? && UsageGrows(CurrentUsage(m).value, CurrentUsage(Observe(m, e).value).value)
  {
    hide SnapshotOf;
  }

  /** The observed totals never fall along the stream. */
  lemma {:induction false} UsageNeverFalls(es: seq<Event>, i: nat)
    requires i <= |es| && UsageAfter(es).Ok?
    ensures UsageAfter(es[..i]).Ok? && UsageGrows(UsageAfter(es[..i]).value, UsageAfter(es).value)
    decreases |es|
  {
    hide Observe, CurrentUsage;
    if i < |es| {
      var front := es[..|es| - 1];
      ObserveGrows(ObserveAll(front).value, es[|es| - 1]);
      UsageNeverFalls(front, i);
      assert front[..i] == es[..i];
    } else {
      assert es[..i] == es;
    }
  }

  /** For the token and tool caps, some total so far exceeds them exactly when the final totals do. */
  lemma SomePrefixOverIffFinalOver(caps: Caps, es: seq<Event>)
    requires es != [] && UsageAfter(es).Ok?
    ensures (exists j :: 0 < j <= |es| && UsageAfter(es[..j]).Ok? && OverCountCaps(caps, UsageAfter(es[..j]).value))
      <==> OverCountCaps(caps, UsageAfter(es).value)
  {
    hide UsageAfter;
    if OverCountCaps(caps, UsageAfter(es).value) {
      assert es[..|es|] == es;
    }
    if j :| 0 < j <= |es| && UsageAfter(es[..j]).Ok? && OverCountCaps(caps, UsageAfter(es[..j]).value) {
      UsageNeverFalls(es, j);
    }
  }

  function Script(es: seq<Event>): seq<Next> {
    if es == [] then [Ends(false)] else [Arrives(es[0])] + Script(es[1..])
  }

  /** No event repeats a call id, and there are no more than the runtime takes. */
  predicate Ordinary(es: seq<Event>) {
    |es| <= MAX_EVENTS && forall e :: e in es ==> !e.duplicateCallIds
  }

  lemma ScriptCons(es: seq<Event>)
    requires es != []
    ensures Script(es) != [] && Script(es)[0] == Arrives(es[0]) && Script(es)[1..] == Script(es[1..]) && Script([]) == [Ends(false)]
  {
  }

  lemma WithinTail(caps: Caps, es: seq<Event>, from: nat, to: int)
    requires WithinFrom(caps, es, from, to) && from < to
    ensures WithinAt(caps, es[..from + 1]) && WithinFrom(caps, es, from + 1, to)
  {
    hide WithinAt;
  }

  /** An event within the caps lets the invocation go on. */
  lemma GoesOn(caps: Caps, m: Meter, done: seq<Event>, e: Event)
    requires ObserveAll(done) == Ok(m) && WithinAt(caps, done + [e]) && |done| + 1 <= MAX_EVENTS && !e.duplicateCallIds
    ensures Objection(caps, m, |done| + 1, e).None? && ObserveAll(done + [e]) == Observe(m, e) && Observe(m, e).Ok?
    ensures CurrentUsage(Observe(m, e).value).Ok?
  {
    hide Observe, CurrentUsage, OverBudget;
    assert (done + [e])[..|done|] == done;
  }

  lemma {:induction false} CompletesFrom(caps: Caps, m: Meter, done: seq<Event>, es: seq<Event>)
    requires ObserveAll(done) == Ok(m) && CurrentUsage(m).Ok?
    requires Ordinary(done + es) && WithinFrom(caps, done + es, |done|, |done + es|)
    ensures var last := ObserveAll(done + es);
      && last.Ok? && Commit(last.value).Ok?
      && Invoke(caps, m, Script(es), |done|)
         == Invocation(Ending(Commit(last.value).value, last.value.finish), |done + es|)
    decreases |es|
  {
    hide Observe, Objection, CurrentUsage, Invoke, ObserveAll, WithinAt, Commit, Ending, Script, WithinFrom;
    if es == [] {
      assert done + es == done;
      CommitOk(m);
      EndsThere(caps, m, |done|);
    } else {
      var more := done + [es[0]];
      assert done + es == more + es[1..];
      assert (done + es)[..|more|] == more;
      WithinTail(caps, done + es, |done|, |done + es|);
      assert es[0] in done + es;
      GoesOn(caps, m, done, es[0]);
      ScriptCons(es);
      InvokeOne(caps, m, Script(es), |done|);
      CompletesFrom(caps, Observe(m, es[0]).value, more, es[1..]);
    }
  }

  lemma EndsThere(caps: Caps, m: Meter, taken: nat)
    requires Commit(m).Ok?
    ensures Invoke(caps, m, Script([]), taken)
         == Invocation(Ending(Commit(m).value, Commit(m).value.finish), taken)
  {
    hide Commit, Ending, Invoke;
    InvokeOne(caps, m, Script([]), taken);
  }

  lemma CommitOk(m: Meter)
    requires CurrentUsage(m).Ok?
    ensures Commit(m).Ok? && Commit(m).value.finish == m.finish
  {
  }

  /** At no position does the cost exceed its cap. */
  ghost predicate CostFits(caps: Caps, es: seq<Event>) {
    forall j :: 0 < j <= |es| && UsageAfter(es[..j]).Ok? ==> !OverCost(caps, UsageAfter(es[..j]).value)
  }

  lemma PrefixIsWithin(caps: Caps, es: seq<Event>, j: nat)
    requires UsageAfter(es).Ok? && CostFits(caps, es) && !OverCountCaps(caps, UsageAfter(es).value) && 0 < j <= |es|
    ensures WithinAt(caps, es[..j])
  {
    hide OverCountCaps, OverCost, UsageAfter;
    UsageNeverFalls(es, j);
    assert !OverCost(caps, UsageAfter(es[..j]).value);
    if OverCountCaps(caps, UsageAfter(es[..j]).value) {
      SomePrefixOverIffFinalOver(caps, es);
    }
  }

  /** With final totals within the caps the whole stream is taken and completed. */
  lemma GateCompletes(caps: Caps, es: seq<Event>)
    requires es != [] && Ordinary(es) && UsageAfter(es).Ok? && CostFits(caps, es)
    requires !OverCountCaps(caps, UsageAfter(es).value)
    ensures Invoke(caps, FRESH, Script(es), 0)
         == Invocation(Outcome(ObserveAll(es).value.finish, UsageAfter(es).value), |es|)
  {
    hide OverCountCaps, OverCost, Invoke, Commit, CurrentUsage, WithinAt, CostFits, Script, ObserveAll, Ending;
    assert [] + es == es;
    forall j | 0 < j <= |es| ensures WithinAt(caps, es[..j]) { PrefixIsWithin(caps, es, j); }
    assert WithinFrom(caps, es, 0, |es|);
    FreshReads();
    NothingObserved();
    CompletesFrom(caps, FRESH, [], es);
    StreamIsConsistent(es);
    CommitKeepsUsage(ObserveAll(es).value);
    EndingReads(Commit(ObserveAll(es).value).value, ObserveAll(es).value.finish);
  }

  /** The first position whose totals exceed a cap. */
  ghost predicate FirstOver(caps: Caps, es: seq<Event>, from: nat, k: nat) {
    && from < k <= |es| && WithinFrom(caps, es, from, k - 1)
    && UsageAfter(es[..k]).Ok? && OverBudget(caps, UsageAfter(es[..k]).value)
  }

  /** With final totals over the caps it is stopped at the first excess, and reports the totals there. */
  lemma GateStops(caps: Caps, es: seq<Event>) returns (k: nat)
    requires es != [] && Ordinary(es) && UsageAfter(es).Ok? && OverCountCaps(caps, UsageAfter(es).value)
    ensures FirstOver(caps, es, 0, k)
    ensures Invoke(caps, FRESH, Script(es), 0) == Invocation(Outcome(BudgetExhausted, UsageAfter(es[..k]).value), k)
  {
    hide OverCountCaps, OverCost, Invoke, Script, ObserveAll, UsageAfter, WithinFrom;
    assert [] + es == es;
    NothingObserved();
    k := StopsFrom(caps, FRESH, [], es);
  }

  /**
   When cost never stands in the way, stopping at the first excess accepts the same streams as judging
   the final totals alone: the stream is completed exactly when those are within the token and tool caps,
   and otherwise stopped at the first position whose totals exceed one of them.
   */
  lemma GateAcceptsByFinalTotals(caps: Caps, es: seq<Event>) returns (k: nat)
    requires es != [] && Ordinary(es) && UsageAfter(es).Ok? && CostFits(caps, es)
    ensures 0 < k <= |es| && UsageAfter(es[..k]).Ok?
    ensures OverCountCaps(caps, UsageAfter(es).value) ==>
      OverCountCaps(caps, UsageAfter(es[..k]).value) && WithinFrom(caps, es, 0, k - 1)
    ensures Invoke(caps, FRESH, Script(es), 0)
         == if OverCountCaps(caps, UsageAfter(es).value)
            then Invocation(Outcome(BudgetExhausted, UsageAfter(es[..k]).value), k)
            else Invocation(Outcome(ObserveAll(es).value.finish, UsageAfter(es).value), |es|)
  {
    hide OverCountCaps, OverCost, Invoke, Script, CostFits, Ordinary, WithinFrom;
    if OverCountCaps(caps, UsageAfter(es).value) {
      k := GateStops(caps, es);
      CostFitsAt(caps, es, k);
    } else {
      GateCompletes(caps, es);
      k := |es|;
      assert es[..k] == es;
    }
  }

  lemma CostFitsAt(caps: Caps, es: seq<Event>, k: nat)
    requires CostFits(caps, es) && 0 < k <= |es| && UsageAfter(es[..k]).Ok?
    ensures !OverCost(caps, UsageAfter(es[..k]).value)
  {
    hide OverCost;
  }

  lemma FreshReads()
    ensures CurrentUsage(FRESH).Ok?
  {
  }

  lemma EndingReads(m: Meter, reason: FinishReason)
    ensures CurrentUsage(m).Ok? ==> Ending(m, reason) == Outcome(reason, CurrentUsage(m).value)
  {
  }

  lemma StreamIsConsistent(es: seq<Event>)
    requires ObserveAll(es).Ok?
    ensures var m := ObserveAll(es).value; m.activeModelTurn ==> m.observedModelTurn
  {
    StreamTracks(es);
  }

  lemma NothingBefore(caps: Caps, es: seq<Event>, n: nat)
    requires n <= |es|
    ensures WithinFrom(caps, es, n, n)
  {
  }

  /** What an event over the caps makes of the invocation. */
  lemma StopsHere(caps: Caps, m: Meter, done: seq<Event>, e: Event)
    requires ObserveAll(done) == Ok(m) && UsageAfter(done + [e]).Ok?
    requires |done| + 1 <= MAX_EVENTS && !e.duplicateCallIds
    ensures ObserveAll(done + [e]) == Observe(m, e) && Observe(m, e).Ok?
    ensures var stop := Objection(caps, m, |done| + 1, e);
      if OverBudget(caps, UsageAfter(done + [e]).value)
      then stop == Some(Outcome(BudgetExhausted, UsageAfter(done + [e]).value))
      else stop == None
  {
    hide Observe, CurrentUsage, OverBudget;
    assert (done + [e])[..|done|] == done;
    EndingReads(Observe(m, e).value, BudgetExhausted);
  }

  lemma {:induction false} StopsFrom(caps: Caps, m: Meter, done: seq<Event>, es: seq<Event>) returns (k: nat)
    requires ObserveAll(done) == Ok(m) && es != [] && UsageAfter(done + es).Ok?
    requires Ordinary(done + es) && OverBudget(caps, UsageAfter(done + es).value)
    ensures FirstOver(caps, done + es, |done|, k)
    ensures Invoke(caps, m, Script(es), |done|)
         == Invocation(Outcome(BudgetExhausted, UsageAfter((done + es)[..k]).value), k)
    decreases |es|
  {
    hide Observe, OverBudget, Invoke, ObserveAll, Objection, Script, UsageAfter, Ending, WithinFrom;
    var all, more := done + es, done + [es[0]];
    assert all[..|more|] == more;
    assert all == more + es[1..];
    UsageNeverFalls(all, |more|);
    assert es[0] in all;
    StopsHere(caps, m, done, es[0]);
    ScriptCons(es);
    InvokeOne(caps, m, Script(es), |done|);
    if OverBudget(caps, UsageAfter(more).value) {
      k := |more|;
      NothingBefore(caps, all, |done|);
    } else {
      assert es[1..] == [] ==> all == more;
      k := StopsFrom(caps, Observe(m, es[0]).value, more, es[1..]);
      WithinOneMore(caps, all, |done|, k - 1);
    }
  }
}
