/**
 What the metered stream reads and where it is stopped, told by the provider's own fields, the caps and the two
 sources of cost.
 */
module AdkReadings {
  import opened Prelude
  import opened AdkStream

  // ---- one event by its fields ----

  predicate IsCount(v: Json) {
    v == Null || (v.Int? && 0 <= v.n <= 2147483647)
  }

  function CountIn(v: Json): nat {
    if v.Int? && v.n > 0 then v.n else 0
  }

  /** Every field is absent or a 32-bit count, and so are the prompt with the tool prompt, and the candidates with the thoughts. */
  predicate Readable(e: Event) {
    && IsCount(e.cost)
    && (e.usage.Some? ==>
          var u := e.usage.value;
          && IsCount(u.prompt) && IsCount(u.toolPrompt) && IsCount(u.candidates) && IsCount(u.thoughts) && IsCount(u.cached)
          && CountIn(u.prompt) + CountIn(u.toolPrompt) <= 2147483647
          && CountIn(u.candidates) + CountIn(u.thoughts) <= 2147483647)
  }

  /** What an event says of one dimension; without a prompt count the cached tokens are a floor of the input. */
  function Said(e: Event, f: Field): nat {
    if e.usage.None? then 0
    else
      var u := e.usage.value;
      match f
      case CachedField => CountIn(u.cached)
      case OutputField => CountIn(u.candidates) + CountIn(u.thoughts)
      case InputField =>
        var sum := CountIn(u.prompt) + CountIn(u.toolPrompt);
        if u.prompt == Null && CountIn(u.cached) > sum then CountIn(u.cached) else sum
  }

  predicate Says(e: Event, f: Field) {
    e.usage.Some? &&
    match f
    case InputField => e.usage.value.prompt != Null
    case OutputField => e.usage.value.candidates != Null
    case CachedField => e.usage.value.cached != Null
  }

  lemma CountIs(v: Json)
    ensures BadCount(v) <==> !IsCount(v)
    ensures Count(v) == CountIn(v)
  {
  }

  /** The meter reads a readable event's fields as they are said, and no other event. */
  lemma SnapshotIs(e: Event, f: Field)
    ensures Readable(e) <==> SnapshotOf(e).Ok? && !BadCount(e.cost)
    ensures Readable(e) ==> Shown(e, f) == Said(e, f) && (Reports(e, f) <==> Says(e, f))
    ensures Readable(e) ==> Count(e.cost) == CountIn(e.cost)
  {
    hide BadCount, IsCount, Count, CountIn;
    CountIs(e.cost);
    if e.usage.Some? {
      var u := e.usage.value;
      CountIs(u.prompt);
      CountIs(u.toolPrompt);
      CountIs(u.candidates);
      CountIs(u.thoughts);
      CountIs(u.cached);
    }
  }

  // ---- which streams are metered ----

  /** The sums over the turns of a stream, each within 32 bits. */
  ghost predicate SumsFit(es: seq<Event>) {
    && SumPeaks(AllTurns(es), InputField) <= 2147483647 && SumPeaks(AllTurns(es), OutputField) <= 2147483647
    && SumPeaks(AllTurns(es), CachedField) <= 2147483647 && SumCosts(AllTurns(es)).Or(0) <= 2147483647
  }

  ghost predicate Meterable(es: seq<Event>) {
    (forall e :: e in es ==> Readable(e)) && SumCalls(es) <= 2147483647 && SumsFit(es)
  }

  /** One more event keeps the closed turns, and joins the open one. */
  lemma TurnsGrow(es: seq<Event>, e: Event)
    ensures var t, u := Split(es), Split(es + [e]);
      AllTurns(es + [e]) == t.closed + [t.open + [e]]
  {
    assert (es + [e])[..|es|] == es;
  }

  lemma PeakGrows(turn: seq<Event>, e: Event, f: Field)
    ensures Peak(turn, f) <= Peak(turn + [e], f)
    ensures PeakCost(turn).Or(0) <= PeakCost(turn + [e]).Or(0) && (PeakCost(turn).Some? ==> PeakCost(turn + [e]).Some?)
  {
    hide ModelTurn, TurnReports, Shown, Reports;
    TurnAppend(turn, e, f);
  }

  lemma LastTurn(turns: seq<seq<Event>>, turn: seq<Event>, f: Field)
    ensures SumPeaks(turns + [turn], f) == SumPeaks(turns, f) + Peak(turn, f)
    ensures SumCosts(turns + [turn]) == AddCost(SumCosts(turns), PeakCost(turn))
  {
    hide Peak, PeakCost;
    assert (turns + [turn])[..|turns|] == turns;
  }

  lemma SumsOfSplit(es: seq<Event>, f: Field)
    ensures var t := Split(es);
      && SumPeaks(AllTurns(es), f) == SumPeaks(t.closed, f) + Peak(t.open, f)
      && SumCosts(AllTurns(es)) == AddCost(SumCosts(t.closed), PeakCost(t.open))
  {
    hide SumPeaks, SumCosts, Split;
    var t := Split(es);
    if t.open == [] {
      NothingPeaks(f);
    } else {
      LastTurn(t.closed, t.open, f);
    }
  }

  lemma NothingPeaks(f: Field)
    ensures Peak([], f) == 0 && PeakCost([]).None?
  {
  }

  lemma SumsGrow(es: seq<Event>, e: Event, f: Field)
    ensures SumPeaks(AllTurns(es), f) <= SumPeaks(AllTurns(es + [e]), f)
    ensures SumCosts(AllTurns(es)).Or(0) <= SumCosts(AllTurns(es + [e])).Or(0)
  {
    hide SumPeaks, SumCosts, Split, AllTurns, Peak, PeakCost;
    var t := Split(es);
    TurnsGrow(es, e);
    SumsOfSplit(es, f);
    PeakGrows(t.open, e, f);
    LastTurn(t.closed, t.open + [e], f);
  }

  lemma FrontIsMeterable(es: seq<Event>, e: Event)
    requires Meterable(es + [e])
    ensures Meterable(es) && Readable(e) && SumCalls(es) + e.calls <= 2147483647
  {
    hide Readable, SumPeaks, SumCosts, AllTurns;
    assert (es + [e])[..|es|] == es && e in es + [e];
    forall x | x in es ensures x in es + [e] {}
    forall f { SumsGrow(es, e, f); }
  }

  lemma OverflowIs(m: Meter, t: Turns, calls: nat, es: seq<Event>)
    requires Tracks(m, t, calls)
    requires forall f: Field :: SumPeaks(AllTurns(es), f) == SumPeaks(t.closed, f) + Peak(t.open, f)
    requires SumCosts(AllTurns(es)) == AddCost(SumCosts(t.closed), PeakCost(t.open))
    ensures Overflow(m) <==> !SumsFit(es)
  {
    hide SumPeaks, SumCosts, AllTurns, Peak, PeakCost, ModelTurn, TurnReports;
    assert DimTracks(m, t, InputField) && DimTracks(m, t, OutputField) && DimTracks(m, t, CachedField);
  }

  lemma AbsorbedOverflows(es: seq<Event>, e: Event)
    requires ObserveAll(es).Ok? && SnapshotOf(e).Ok?
    ensures Overflow(Absorb(ObserveAll(es).value, e, SnapshotOf(e).value)) <==> !SumsFit(es + [e])
  {
    hide SumPeaks, SumCosts, AllTurns, Peak, PeakCost, Split, Tracks, Overflow, SumsFit, Absorb, SnapshotOf, ObserveAll;
    var m, s, t := ObserveAll(es).value, SnapshotOf(e).value, Split(es);
    StreamTracks(es);
    AbsorbTracks(m, t, SumCalls(es), e, s);
    TurnsGrow(es, e);
    var u := t.(open := t.open + [e]);
    forall f: Field ensures SumPeaks(AllTurns(es + [e]), f) == SumPeaks(u.closed, f) + Peak(u.open, f) {
      LastTurn(u.closed, u.open, f);
    }
    LastTurn(u.closed, u.open, InputField);
    OverflowIs(Absorb(m, e, s), u, SumCalls(es) + e.calls, es + [e]);
  }

  lemma ObservedIff(m: Meter, e: Event)
    ensures Observe(m, e).Ok? && CurrentUsage(Observe(m, e).value).Ok? <==>
      && SnapshotOf(e).Ok? && !BadCount(e.cost) && m.toolCalls + e.calls <= 2147483647
      && !Overflow(Absorb(m, e, SnapshotOf(e).value))
  {
    hide Overflow, Absorb, SnapshotOf, BadCount;
    if SnapshotOf(e).Ok? {
      var next := Absorb(m, e, SnapshotOf(e).value);
      AbsorbedIsActive(m, e, SnapshotOf(e).value);
      if Commit(next).Ok? { CommittedFits(next); }
    }
  }

  /** Metering one more event of a metered stream. */
  lemma OneMoreMetered(es: seq<Event>, e: Event)
    requires ObserveAll(es).Ok? && CurrentUsage(ObserveAll(es).value).Ok?
    ensures UsageAfter(es + [e]).Ok? <==>
      Readable(e) && SumCalls(es) + e.calls <= 2147483647 && SumsFit(es + [e])
  {
    hide Overflow, SumsFit, Absorb, SnapshotOf, Readable, BadCount, Observe, CurrentUsage;
    assert (es + [e])[..|es|] == es;
    SnapshotIs(e, InputField);
    CallsAre(es);
    ObservedIff(ObserveAll(es).value, e);
    if SnapshotOf(e).Ok? { AbsorbedOverflows(es, e); }
  }

  lemma CallsAre(es: seq<Event>)
    requires ObserveAll(es).Ok?
    ensures ObserveAll(es).value.toolCalls == SumCalls(es)
  {
    hide DimTracks, SumCosts, PeakCost, ModelTurn;
    StreamTracks(es);
  }

  lemma CommittedFits(m: Meter)
    requires Commit(m).Ok? && m.activeTurn
    ensures !Overflow(Commit(m).value) && !Overflow(m)
  {
  }

  /** A stream is metered without fault exactly when its events are readable and its sums fit. */
  lemma {:induction false} MeteredIff(es: seq<Event>)
    ensures UsageAfter(es).Ok? <==> Meterable(es)
  {
    hide SumPeaks, SumCosts, AllTurns, Readable, Overflow;
    if es == [] {
      NothingMetered();
    } else {
      var front, e := es[..|es| - 1], es[|es| - 1];
      assert front + [e] == es;
      MeteredIff(front);
      if Meterable(es) { FrontIsMeterable(front, e); }
      if UsageAfter(es).Ok? { UsageNeverFalls(es, |front|); }
      if UsageAfter(front).Ok? {
        OneMoreMetered(front, e);
      }
    }
  }

  lemma NothingMetered()
    ensures UsageAfter([]).Ok? && Meterable([])
  {
  }

  // ---- the gate by the caps and the two sources of cost ----

  /** The next event may be asked for: no cap is exceeded, and the cost is known and within its cap. */
  predicate MayGoOn(caps: Caps, u: Usage) {
    && (caps.input.Some? ==> u.input <= caps.input.value)
    && (caps.output.Some? ==> u.output <= caps.output.value)
    && (caps.total.Some? ==> u.input + u.output <= caps.total.value)
    && u.toolCalls <= caps.toolCalls
    && (u.cost.Some? ==> u.cost.value <= caps.costMinor)
    && (if caps.estimate.Some? then
          var estimate := caps.estimate.value(u);
          estimate.Some? && 0 <= estimate.value <= 2147483647 && estimate.value <= caps.costMinor
        else u.cost.Some? || (u.input == 0 && u.output == 0 && u.cached == 0))
  }

  lemma GateIs(caps: Caps, u: Usage)
    ensures MayGoOn(caps, u) <==> !OverBudget(caps, u)
  {
  }

  /** The reason a stream's own events give: the first that is not an ordinary completion. */
  function ReasonOf(es: seq<Event>): FinishReason {
    if es == [] then Completed
    else if ReasonOf(es[..|es| - 1]) != Completed then ReasonOf(es[..|es| - 1])
    else es[|es| - 1].reason.Or(Completed)
  }

  /** How an invocation ends that no event has stopped. */
  function EndReason(last: Next, es: seq<Event>): FinishReason {
    match last
    case Deadline => BudgetExhausted
    case ProviderFails => Failed
    case Ends(late) => if late then BudgetExhausted else ReasonOf(es)
    case Arrives(_) => Failed
  }

  lemma {:induction false} FinishIs(es: seq<Event>)
    requires ObserveAll(es).Ok?
    ensures ObserveAll(es).value.finish == ReasonOf(es)
  {
    hide SnapshotOf, Overflow;
    if es != [] { FinishIs(es[..|es| - 1]); }
  }

  function Arriving(es: seq<Event>, last: Next): seq<Next> {
    if es == [] then [last] else [Arrives(es[0])] + Arriving(es[1..], last)
  }

  lemma ArrivingCons(es: seq<Event>, last: Next)
    ensures Arriving(es, last) != []
    ensures es != [] ==> Arriving(es, last)[0] == Arrives(es[0]) && Arriving(es, last)[1..] == Arriving(es[1..], last)
    ensures es == [] ==> Arriving(es, last) == [last]
  {
  }

  /** The event at this position repeats a call id, is one too many, or leaves the stream unmeterable. */
  predicate FaultyAt(es: seq<Event>, k: nat)
    requires 0 < k <= |es|
  {
    es[k - 1].duplicateCallIds || k > 10000 || UsageAfter(es[..k]).Err?
  }

  /** The next event is asked for behind this one. */
  predicate PassesAt(caps: Caps, es: seq<Event>, k: nat)
    requires 0 < k <= |es|
  {
    !FaultyAt(es, k) && MayGoOn(caps, UsageAfter(es[..k]).value)
  }

  ghost predicate PassesUpTo(caps: Caps, es: seq<Event>, n: int) {
    n <= |es| && forall j :: 0 < j <= n ==> PassesAt(caps, es, j)
  }

  lemma EndsAs(m: Meter, es: seq<Event>, last: Next)
    requires ObserveAll(es) == Ok(m) && CurrentUsage(m).Ok? && !last.Arrives?
    ensures Conclusion(m, last) == Outcome(EndReason(last, es), CurrentUsage(m).value)
  {
    hide Overflow, CompleteDim;
    FinishIs(es);
    StreamIsConsistent(es);
    CommitOk(m);
    CommitKeepsUsage(m);
  }

  lemma UsageIs(es: seq<Event>, m: Meter)
    requires ObserveAll(es) == Ok(m)
    ensures UsageAfter(es) == CurrentUsage(m)
  {
    hide CurrentUsage;
  }

  /** What the event behind a metered stream makes of the invocation. */
  lemma NextVerdict(caps: Caps, m: Meter, done: seq<Event>, e: Event)
    requires ObserveAll(done) == Ok(m)
    ensures var more := done + [e];
      && var stop := Objection(caps, m, |more|, e);
      && (FaultyAt(more, |more|) ==> stop == Some(Raised))
      && (!FaultyAt(more, |more|) ==>
            && ObserveAll(more) == Observe(m, e) && Observe(m, e).Ok? && UsageAfter(more).Ok?
            && stop == if MayGoOn(caps, UsageAfter(more).value) then None
                       else Some(Outcome(BudgetExhausted, UsageAfter(more).value)))
  {
    hide Observe, CurrentUsage, OverBudget, MayGoOn;
    var more := done + [e];
    assert more[..|done|] == done && more[..|more|] == more;
    if UsageAfter(more).Ok? { GateIs(caps, UsageAfter(more).value); }
  }

  lemma PassesPrefix(caps: Caps, all: seq<Event>, n: nat, k: nat)
    requires 0 < k <= n <= |all|
    ensures FaultyAt(all[..n], k) <==> FaultyAt(all, k)
    ensures PassesAt(caps, all[..n], k) <==> PassesAt(caps, all, k)
  {
    assert all[..n][..k] == all[..k];
  }

  /** How the invocation of a stream comes out at a position, or at its end. */
  ghost predicate ComesOut(caps: Caps, es: seq<Event>, last: Next, k: nat, invocation: Invocation) {
    || (0 < k <= |es| && PassesUpTo(caps, es, k - 1) && FaultyAt(es, k) && invocation == Invocation(Raised, k))
    || (0 < k <= |es| && PassesUpTo(caps, es, k - 1) && !FaultyAt(es, k) && !PassesAt(caps, es, k)
        && invocation == Invocation(Outcome(BudgetExhausted, UsageAfter(es[..k]).value), k))
    || (k == |es| && PassesUpTo(caps, es, |es|) && UsageAfter(es).Ok?
        && invocation == Invocation(Outcome(EndReason(last, es), UsageAfter(es).value), k))
  }

  lemma {:induction false} RunsFrom(caps: Caps, m: Meter, done: seq<Event>, es: seq<Event>, last: Next) returns (k: nat)
    requires ObserveAll(done) == Ok(m) && CurrentUsage(m).Ok? && !last.Arrives?
    requires PassesUpTo(caps, done + es, |done|)
    ensures ComesOut(caps, done + es, last, k, Invoke(caps, m, Arriving(es, last), |done|))
    decreases |es|
  {
    hide Observe, OverBudget, Invoke, ObserveAll, Objection, Arriving, UsageAfter, Ending, Conclusion, MayGoOn, FaultyAt;
    var all := done + es;
    ArrivingCons(es, last);
    InvokeOne(caps, m, Arriving(es, last), |done|);
    if es == [] {
      assert all == done;
      UsageIs(done, m);
      EndsAs(m, done, last);
      k := |all|;
    } else {
      var more := done + [es[0]];
      k := |more|;
      assert all[..k] == more && all == more + es[1..];
      NextVerdict(caps, m, done, es[0]);
      PassesPrefix(caps, all, k, k);
      assert more[..k] == more;
      if PassesAt(caps, all, k) {
        PassingIsMetered(more, k);
        UsageIs(more, Observe(m, es[0]).value);
        k := RunsFrom(caps, Observe(m, es[0]).value, more, es[1..], last);
      }
    }
  }

  lemma PassingIsMetered(es: seq<Event>, k: nat)
    requires 0 < k <= |es| && !FaultyAt(es, k)
    ensures UsageAfter(es[..k]).Ok?
  {
    hide UsageAfter;
  }

  /**
   Any invocation asks for the next event exactly while every event so far is new, in number and meterable, and
   the totals are within the caps at a known cost within its own; the first event that is not raises, or
   stops it as out of budget with the totals there; otherwise it ends with all its totals as its last step
   says.
   */
  lemma InvocationIs(caps: Caps, es: seq<Event>, last: Next) returns (k: nat)
    requires !last.Arrives?
    ensures ComesOut(caps, es, last, k, Invoke(caps, FRESH, Arriving(es, last), 0))
  {
    hide UsageAfter, ObserveAll, MayGoOn, Invoke, FaultyAt;
    NothingObserved();
    FreshReads();
    assert [] + es == es;
    k := RunsFrom(caps, FRESH, [], es, last);
  }
}
