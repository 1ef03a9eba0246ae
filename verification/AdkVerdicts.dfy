/**
 What a role request comes to, told by its answers: the counters they add up to, what they are charged, and the
 limits, without the order in which the gateway checks them.
 */
module AdkVerdicts {
  import opened Prelude
  import opened AdkBudget
  import AdkStream

  // ---- limits and charges ----

  predicate InCap(cap: Option<int>) {
    cap.Some? ==> 0 < cap.value <= 0x7FFF_FFFF_FFFF_FFFF
  }

  function Natural(cap: Option<int>): Option<nat> {
    if cap.Some? && cap.value >= 0 then Some(cap.value) else None
  }

  /** A budget is usable exactly when its caps are in range, and then limits are its caps, in milliseconds. */
  lemma LimitsAre(b: Budget)
    ensures LimitsOf(b) ==
      if InCap(b.input) && InCap(b.output) && InCap(b.total)
         && 0 <= b.toolCalls <= 2147483647 && 0 <= b.durationSeconds * 1000 <= 2147483647 && 0 <= b.costMinor <= 2147483647
      then Some(Limits(Natural(b.input), Natural(b.output), Natural(b.total), b.toolCalls, b.durationSeconds * 1000, b.costMinor))
      else None
  {
  }

  function InputOf(rs: seq<Answer>): nat { Total(rs, (r: Answer) => r.usage.input) }

  function OutputOf(rs: seq<Answer>): nat { Total(rs, (r: Answer) => r.usage.output) }

  function CachedOf(rs: seq<Answer>): nat { Total(rs, (r: Answer) => r.usage.cached) }

  function ToolCallsOf(rs: seq<Answer>): nat { Total(rs, (r: Answer) => r.usage.toolCalls) }

  function DurationOf(rs: seq<Answer>): nat { Total(rs, (r: Answer) => r.durationMs) }

  /** What the provider says the answers cost, if it says so of each. */
  function ProviderCost(rs: seq<Answer>): Option<nat> {
    if forall r :: r in rs ==> r.usage.cost.Some? then Some(Total(rs, (r: Answer) => r.usage.cost.Or(0))) else None
  }

  predicate All(rs: seq<Answer>, test: Answer -> bool) {
    forall r :: r in rs ==> test(r)
  }

  /** The larger of the price table's estimate for the answers together and the provider's own figure. */
  function Charge(w: World, rs: seq<Answer>): Option<nat> {
    if CachedOf(rs) > InputOf(rs) then None
    else
      var estimate := w.price(Record(
        InputOf(rs) - CachedOf(rs), OutputOf(rs), CachedOf(rs), ToolCallsOf(rs), DurationOf(rs),
        All(rs, (r: Answer) => r.usage.inputComplete), All(rs, (r: Answer) => r.usage.outputComplete),
        All(rs, (r: Answer) => r.usage.cachedComplete), None));
      if estimate.None? || estimate.value < 0 || estimate.value > 2147483647 then None
      else if estimate.value < ProviderCost(rs).Or(0) then Some(ProviderCost(rs).Or(0))
      else Some(estimate.value)
  }

  /** Every sum of the answers fits 32 bits. */
  predicate Countable(rs: seq<Answer>) {
    && InputOf(rs) <= 2147483647 && OutputOf(rs) <= 2147483647 && CachedOf(rs) <= 2147483647
    && ToolCallsOf(rs) <= 2147483647 && DurationOf(rs) <= 2147483647 && ProviderCost(rs).Or(0) <= 2147483647
  }

  /** The answers, each and together, can be counted and charged. */
  predicate Charged(w: World, rs: seq<Answer>) {
    && Countable(rs) && Charge(w, rs).Some?
    && forall r :: r in rs ==> Charge(w, [r]).Some?
  }

  /** Together the answers stay within every limit; their charges do so added up and taken together. */
  predicate Within(w: World, l: Limits, rs: seq<Answer>) {
    && (l.input.Some? ==> InputOf(rs) <= l.input.value)
    && (l.output.Some? ==> OutputOf(rs) <= l.output.value)
    && (l.total.Some? ==> InputOf(rs) + OutputOf(rs) <= l.total.value)
    && ToolCallsOf(rs) <= l.toolCalls && DurationOf(rs) <= l.durationMs
    && Total(rs, (r: Answer) => Charge(w, [r]).Or(0)) <= l.costMinor
    && Charge(w, rs).Or(0) <= l.costMinor
  }

  lemma One(r: Answer)
    ensures var rs := [r];
      && InputOf(rs) == r.usage.input && OutputOf(rs) == r.usage.output && CachedOf(rs) == r.usage.cached
      && ToolCallsOf(rs) == r.usage.toolCalls && DurationOf(rs) == r.durationMs
      && ProviderCost(rs).Or(0) == r.usage.cost.Or(0)
      && (forall test :: All(rs, test) <==> test(r))
  {
    hide Total;
    TotalOfTwo(r, r, (r: Answer) => r.usage.input);
    TotalOfTwo(r, r, (r: Answer) => r.usage.output);
    TotalOfTwo(r, r, (r: Answer) => r.usage.cached);
    TotalOfTwo(r, r, (r: Answer) => r.usage.toolCalls);
    TotalOfTwo(r, r, (r: Answer) => r.durationMs);
    TotalOfTwo(r, r, (r: Answer) => r.usage.cost.Or(0));
    assert r in [r];
  }

  lemma Two(r: Answer, q: Answer)
    ensures var rs := [r, q];
      && InputOf(rs) == r.usage.input + q.usage.input && OutputOf(rs) == r.usage.output + q.usage.output
      && CachedOf(rs) == r.usage.cached + q.usage.cached && ToolCallsOf(rs) == r.usage.toolCalls + q.usage.toolCalls
      && DurationOf(rs) == r.durationMs + q.durationMs
      && ProviderCost(rs) == (if r.usage.cost.Some? && q.usage.cost.Some?
                              then Some(r.usage.cost.value + q.usage.cost.value) else None)
      && (forall test :: All(rs, test) <==> test(r) && test(q))
  {
    hide Total;
    TotalOfTwo(r, q, (r: Answer) => r.usage.input);
    TotalOfTwo(r, q, (r: Answer) => r.usage.output);
    TotalOfTwo(r, q, (r: Answer) => r.usage.cached);
    TotalOfTwo(r, q, (r: Answer) => r.usage.toolCalls);
    TotalOfTwo(r, q, (r: Answer) => r.durationMs);
    TotalOfTwo(r, q, (r: Answer) => r.usage.cost.Or(0));
    assert r in [r, q] && q in [r, q];
  }

  /** The gateway charges one answer as said here, and prices it exactly when it can be charged. */
  lemma ChargeOfOne(w: World, r: Answer)
    ensures Countable([r]) && (Price(w, Alone(r)).Some? <==> Charge(w, [r]).Some?)
    ensures Charge(w, [r]).Some? ==> Charge(w, [r]).value == CostOf(w, r)
  {
    hide Total, InputOf, OutputOf, CachedOf, ToolCallsOf, DurationOf, ProviderCost, All;
    One(r);
  }

  lemma CountableIff(r: Answer, q: Answer)
    ensures Add(Alone(r), q).Some? <==> Countable([r, q])
  {
    hide InputOf, OutputOf, CachedOf, ToolCallsOf, DurationOf, ProviderCost, All;
    Two(r, q);
  }

  lemma ChargeOfTwo(w: World, r: Answer, q: Answer)
    requires Add(Alone(r), q).Some?
    ensures var both := Add(Alone(r), q).value;
      && (Price(w, both).Some? <==> Charge(w, [r, q]).Some?)
      && (Price(w, both).Some? ==> Charge(w, [r, q]).value == AggregateCost(both, Price(w, both).value))
  {
    hide Total, InputOf, OutputOf, CachedOf, ToolCallsOf, DurationOf, ProviderCost, All;
    Two(r, q);
  }

  lemma WithinOne(w: World, l: Limits, r: Answer)
    requires Charge(w, [r]).Some?
    ensures Within(w, l, [r]) <==> !OverBudget(r, l, CostOf(w, r))
  {
    hide Total, InputOf, OutputOf, CachedOf, ToolCallsOf, DurationOf, ProviderCost, All, Charge, CostOf;
    One(r);
    ChargeOfOne(w, r);
    TotalOfTwo(r, r, (r: Answer) => Charge(w, [r]).Or(0));
  }

  lemma WithinTwo(w: World, l: Limits, r: Answer, q: Answer)
    requires Charge(w, [r]).Some? && Charge(w, [q]).Some? && Charge(w, [r, q]).Some?
    requires !OverBudget(r, l, CostOf(w, r))
    ensures Within(w, l, [r, q]) <==>
      && !OverBudget(q, Leftover(l, Alone(r), CostOf(w, r)), CostOf(w, q)) && Charge(w, [r, q]).value <= l.costMinor
  {
    hide Total, InputOf, OutputOf, CachedOf, ToolCallsOf, DurationOf, ProviderCost, All, Charge, CostOf;
    Two(r, q);
    ChargeOfOne(w, r);
    ChargeOfOne(w, q);
    TotalOfTwo(r, q, (r: Answer) => Charge(w, [r]).Or(0));
  }

  // ---- the main results ----

  function Last(rs: seq<Answer>): Answer
    requires rs != []
  {
    rs[|rs| - 1]
  }

  predicate DurableIds(rs: seq<Answer>) {
    forall r :: r in rs ==> r.durableId
  }

  /** All that a success takes of its answers. */
  predicate Acceptable(w: World, l: Limits, rs: seq<Answer>) {
    && rs != [] && Charged(w, rs) && Within(w, l, rs) && DurableIds(rs)
    && Last(rs).finish == AdkStream.Completed && Last(rs).output == Valid(true)
  }

  /** The same answers, but for a last output that does not pass the schema. */
  predicate Invalidated(w: World, l: Limits, rs: seq<Answer>) {
    && rs != [] && Charged(w, rs) && Within(w, l, rs) && DurableIds(rs)
    && Last(rs).finish == AdkStream.Completed && Last(rs).output.Invalid?
  }

  /** The status of a result, by whether its answers are within the limits and how the last of them finished. */
  function StatusFor(within: bool, last: Answer): Status {
    if !within then BudgetExceeded
    else match last.finish
      case Completed => if last.output.Valid? then Succeeded else BudgetExceeded
      case BudgetExhausted => BudgetExceeded
      case TimedOut => Status.TimedOut
      case Cancelled => Status.Cancelled
      case Failed => Status.Failed
  }

  /** The first answer is complete, within the limits and schema-invalid, and leaves no input, output or total token. */
  predicate UsedUp(l: Limits, rs: seq<Answer>) {
    || l.input == Some(InputOf(rs)) || l.output == Some(OutputOf(rs)) || l.total == Some(InputOf(rs) + OutputOf(rs))
  }

  lemma FirstVerdict(w: World, l: Limits, r: Answer)
    requires FirstAnswer(w, l, r).calls == [l]
    ensures var o := FirstAnswer(w, l, r).outcome;
      && (o.Returned? ==> Charged(w, [r]) && r.durableId && o.status == StatusFor(Within(w, l, [r]), r))
      && (Invalidated(w, l, [r]) ==> (o.Returned? <==> UsedUp(l, [r])))
      && !o.OutputInvalid? && (r.durableId ==> (o.BudgetError? <==> !Charged(w, [r])))
      && (Acceptable(w, l, [r]) ==> o.Returned?)
      && (o.Returned? && o.status == Succeeded ==> r.output == Valid(true))
  {
    hide Price, Leftover, OverBudget, Settle, Consistent, Charge, Within, Countable, CostOf;
    ChargeOfOne(w, r);
    PriceHolds(w, Alone(r));
    if Price(w, Alone(r)).Some? {
      WithinOne(w, l, r);
      OneAttemptConsistent(Price(w, Alone(r)).value);
      CostIs(w, r);
      One(r);
      LeftoverIs(l, r, CostOf(w, r));
    } else if Unpriced(Alone(r)).Some? {
      OneAttemptConsistent(Unpriced(Alone(r)).value);
    }
  }

  lemma CostIs(w: World, r: Answer)
    requires Price(w, Alone(r)).Some?
    ensures CostOf(w, r) == EffectiveCost(r, Price(w, Alone(r)).value)
  {
  }

  lemma LeftoverIs(l: Limits, r: Answer, cost: nat)
    ensures var left := Leftover(l, Alone(r), cost); !OverBudget(r, l, cost) ==>
      && (left.input == Some(0) <==> l.input == Some(r.usage.input))
      && (left.output == Some(0) <==> l.output == Some(r.usage.output))
      && (left.total == Some(0) <==> l.total == Some(r.usage.input + r.usage.output))
  {
  }

  lemma SecondVerdict(w: World, l: Limits, r: Answer, first: Record, q: Answer)
    requires Price(w, Alone(r)) == Some(first) && !OverBudget(r, l, CostOf(w, r))
    ensures var o := Settle(w, l, Leftover(l, Alone(r), CostOf(w, r)), Alone(r), r.durableId, first, q);
      && (o.Returned? ==>
            && Charged(w, [r, q]) && r.durableId && q.durableId && o.status == StatusFor(Within(w, l, [r, q]), q)
            && !Invalidated(w, l, [r, q]))
      && (o.OutputInvalid? <==> Invalidated(w, l, [r, q]))
      && (r.durableId && q.durableId ==> (o.BudgetError? <==> !Charged(w, [r, q])))
      && (Acceptable(w, l, [r, q]) ==> o.Returned?)
      && (o.Returned? && o.status == Succeeded ==> q.output == Valid(true))
  {
    hide Price, Leftover, OverBudget, Consistent, Charge, Within, Countable, CostOf, AggregateCost, EffectiveCost, Add,
      Unpriced;
    ChargeOfOne(w, r);
    ChargeOfOne(w, q);
    CountableIff(r, q);
    PriceHolds(w, Alone(r));
    PriceHolds(w, Alone(q));
    assert r in [r, q] && q in [r, q];
    if Add(Alone(r), q).Some? {
      var both := Add(Alone(r), q).value;
      ChargeOfTwo(w, r, q);
      PriceHolds(w, both);
      PriceIsHeld(w, r);
      if Unpriced(Alone(q)).Some? && Unpriced(both).Some? {
        TwoAttemptsConsistent(Unpriced(both).value, first, Unpriced(Alone(q)).value, r, q);
      }
      if Price(w, Alone(q)).Some? {
        PriceIsHeld(w, q);
        if Unpriced(both).Some? { TwoAttemptsConsistent(Unpriced(both).value, first, Price(w, Alone(q)).value, r, q); }
        if Price(w, both).Some? {
          CostIs(w, q);
          WithinTwo(w, l, r, q);
          TwoAttemptsConsistent(Price(w, both).value, first, Price(w, Alone(q)).value, r, q);
        }
      }
    }
  }

  lemma PriceIsHeld(w: World, r: Answer)
    requires Price(w, Alone(r)).Some?
    ensures Measures(Price(w, Alone(r)).value, r)
  {
  }

  lemma ExecuteIsFirst(w: World, b: Budget)
    requires AnswersOf(w, b) != []
    ensures LimitsOf(b).Some? && w.first.Answered? && Execute(w, b) == FirstAnswer(w, LimitsOf(b).value, w.first.answer)
    ensures AnswersOf(w, b)[0] == w.first.answer && |AnswersOf(w, b)| <= 2
  {
    hide FirstAnswer, LimitsOf;
  }

  lemma TwoAnswersSettle(w: World, l: Limits, r: Answer)
    ensures var e := FirstAnswer(w, l, r);
      |e.calls| == 2 ==>
        && Price(w, Alone(r)).Some? && !OverBudget(r, l, CostOf(w, r))
        && e.calls[1] == Leftover(l, Alone(r), CostOf(w, r))
        && w.repair(e.calls[1]).Attempted? && !UsedUp(l, [r])
        && (w.repair(e.calls[1]).call.Answered? ==>
              e.outcome == Settle(w, l, e.calls[1], Alone(r), r.durableId, Price(w, Alone(r)).value,
                                  w.repair(e.calls[1]).call.answer))
        && (!w.repair(e.calls[1]).call.Answered? ==>
              !e.outcome.Returned? && !e.outcome.OutputInvalid? && !e.outcome.BudgetError?)
  {
    hide Price, Leftover, OverBudget, Settle, Consistent, EffectiveCost, InputOf, OutputOf;
    One(r);
    LeftoverIs(l, r, CostOf(w, r));
  }

  lemma CallsAre(w: World, l: Limits, r: Answer)
    ensures var e := FirstAnswer(w, l, r); e.calls == [l] || (|e.calls| == 2 && e.calls[0] == l)
    ensures var e := FirstAnswer(w, l, r); |e.calls| == 2 ==> r.output.Invalid?
  {
    hide Price, Leftover, OverBudget, Settle, Consistent, EffectiveCost;
  }

  /** What a request's outcome is, with its status, for the answers it got. */
  ghost predicate Verdict(w: World, l: Limits, o: Outcome, rs: seq<Answer>)
    requires rs != []
  {
    && (o.Returned? && o.status == Succeeded <==> Acceptable(w, l, rs))
    && (o.Returned? ==> Charged(w, rs) && DurableIds(rs) && o.status == StatusFor(Within(w, l, rs), Last(rs)))
    && (Invalidated(w, l, rs) ==> (o.Returned? <==> |rs| == 1 && UsedUp(l, rs)) && (o.OutputInvalid? <==> |rs| == 2))
    && (o.OutputInvalid? ==> Invalidated(w, l, rs))
    && (DurableIds(rs) ==> (o.BudgetError? <==> !Charged(w, rs)))
  }

  lemma VerdictOfOne(w: World, l: Limits, r: Answer)
    requires FirstAnswer(w, l, r).calls == [l]
    ensures Verdict(w, l, FirstAnswer(w, l, r).outcome, [r])
  {
    hide FirstAnswer, Charged, Within, UsedUp;
    FirstVerdict(w, l, r);
  }

  lemma VerdictOfTwo(w: World, l: Limits, r: Answer, first: Record, q: Answer)
    requires Price(w, Alone(r)) == Some(first) && !OverBudget(r, l, CostOf(w, r))
    ensures Verdict(w, l, Settle(w, l, Leftover(l, Alone(r), CostOf(w, r)), Alone(r), r.durableId, first, q), [r, q])
  {
    hide Settle, Charged, Within, UsedUp, Price, OverBudget, Leftover, CostOf;
    SecondVerdict(w, l, r, first, q);
  }

  /**
   A request succeeds exactly when its last answer is complete, with a valid and durable output, all answers can
   be counted and charged and have durable ids, and together they stay within every original limit. Every
   other result has the status its limits or its last finish reason give it. An otherwise acceptable answer with
   an invalid output ends in a result only where the first call left no token for a repair, and after the
   second call in an error; a budget error means answers that cannot be counted or charged.
   */
  lemma SucceedsIff(w: World, b: Budget)
    ensures var o, rs := Execute(w, b).outcome, AnswersOf(w, b);
      && (o.Returned? ==> rs != [])
      && (rs != [] ==> LimitsOf(b).Some? && Verdict(w, LimitsOf(b).value, o, rs))
  {
    hide FirstAnswer, LimitsOf, Verdict, Settle, Leftover, Price, OverBudget, CostOf;
    if AnswersOf(w, b) != [] {
      ExecuteIsFirst(w, b);
      var l, r := LimitsOf(b).value, w.first.answer;
      CallsAre(w, l, r);
      TwoAnswersSettle(w, l, r);
      var e := FirstAnswer(w, l, r);
      if e.calls == [l] {
        VerdictOfOne(w, l, r);
      } else if w.repair(e.calls[1]).call.Answered? {
        VerdictOfTwo(w, l, r, Price(w, Alone(r)).value, w.repair(e.calls[1]).call.answer);
      } else {
        PriceIsCharge(w, r);
        NothingReturned(w, l, r, e.outcome);
      }
    } else {
      NoAnswerNoResult(w, b);
    }
  }

  lemma NothingReturned(w: World, l: Limits, r: Answer, o: Outcome)
    requires !o.Returned? && !o.OutputInvalid? && !o.BudgetError? && r.output.Invalid?
    requires Charged(w, [r]) && !UsedUp(l, [r])
    ensures Verdict(w, l, o, [r])
  {
    hide Charged, Within;
  }

  lemma PriceIsCharge(w: World, r: Answer)
    requires Price(w, Alone(r)).Some?
    ensures Charged(w, [r])
  {
    hide Countable, Charge, Price;
    ChargeOfOne(w, r);
  }

  lemma NoAnswerNoResult(w: World, b: Budget)
    requires AnswersOf(w, b) == []
    ensures !Execute(w, b).outcome.Returned?
  {
    hide LimitsOf, Price, Settle, OverBudget, Leftover, Consistent;
  }

  function Minus(cap: Option<nat>, used: nat): Option<nat> {
    if cap.None? then None else if used <= cap.value then Some(cap.value - used) else Some(0)
  }

  /** What an answer within the limits leaves of them. */
  function LeftBy(w: World, l: Limits, r: Answer): Limits
    requires Within(w, l, [r])
  {
    One(r);
    ChargeAddsUp(w, r);
    Limits(Minus(l.input, r.usage.input), Minus(l.output, r.usage.output), Minus(l.total, r.usage.input + r.usage.output),
           l.toolCalls - r.usage.toolCalls, l.durationMs - r.durationMs, l.costMinor - Charge(w, [r]).Or(0))
  }

  lemma ChargeAddsUp(w: World, r: Answer)
    ensures Total([r], (r: Answer) => Charge(w, [r]).Or(0)) == Charge(w, [r]).Or(0)
  {
    hide Total, Charge;
    TotalOfTwo(r, r, (r: Answer) => Charge(w, [r]).Or(0));
  }

  lemma LeftoverIsLeft(w: World, l: Limits, r: Answer)
    requires Charge(w, [r]).Some? && Within(w, l, [r])
    ensures LeftBy(w, l, r) == Leftover(l, Alone(r), CostOf(w, r))
  {
    hide Charge, CostOf, Total, ProviderCost, All;
    One(r);
    ChargeOfOne(w, r);
    ChargeAddsUp(w, r);
  }

  /** What a repair that got no answer comes to, and whether the runtime was called for it. */
  ghost predicate Unrepaired(e: Execution, l: Limits, left: Limits, repair: Repair) {
    match repair
    case Drifted => e.outcome.PromptDrift? && e.calls == [l]
    case Unbuilt => e.outcome.RepairFailure? && e.calls == [l]
    case Attempted(Broken) => e.outcome.RepairFailure? && e.calls == [l, left]
    case Attempted(Stopped) => e.outcome.Interrupted? && e.calls == [l, left]
    case Attempted(Answered(_)) => e.calls == [l, left]
  }

  /**
   After a first answer a repair is tried exactly when all about it would be acceptable but its output, and
   a token of every cap is left; the repair runs under what is left of each limit.
   */
  lemma RepairIsTriedIff(w: World, b: Budget)
    requires LimitsOf(b).Some? && w.known && w.setup.Ready? && w.first.Answered? && w.first.answer.durableId
    ensures var e, l, r := Execute(w, b), LimitsOf(b).value, w.first.answer;
      if Invalidated(w, l, [r]) && !UsedUp(l, [r]) then Unrepaired(e, l, LeftBy(w, l, r), w.repair(LeftBy(w, l, r)))
      else e.calls == [l] && !e.outcome.PromptDrift? && !e.outcome.RepairFailure? && !e.outcome.Interrupted?
  {
    hide LimitsOf, Price, Leftover, OverBudget, Settle, Consistent, EffectiveCost, Charge, CostOf, Within, Countable, InputOf,
      OutputOf, LeftBy;
    var l, r := LimitsOf(b).value, w.first.answer;
    One(r);
    ChargeOfOne(w, r);
    if Price(w, Alone(r)).Some? {
      WithinOne(w, l, r);
      CostIs(w, r);
      LeftoverIs(l, r, CostOf(w, r));
      OneAttemptConsistent(Price(w, Alone(r)).value);
      if Within(w, l, [r]) { LeftoverIsLeft(w, l, r); }
    }
  }
}
