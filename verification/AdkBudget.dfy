/** One role request against one budget: a first ADK call, and at most one repair call with what is left. */
module AdkBudget {
  import opened Prelude
  import AdkStream

  const INT32_MAX: int := AdkStream.INT32_MAX
  const INT64_MAX: int := 0x7FFF_FFFF_FFFF_FFFF

  type int32 = n: nat | n <= AdkStream.INT32_MAX

  /** The budget as configured; any integer may appear in it. */
  datatype Budget = Budget(
    input: Option<int>, output: Option<int>, total: Option<int>, toolCalls: int, durationSeconds: int, costMinor: int)

  datatype Limits = Limits(
    input: Option<nat>, output: Option<nat>, total: Option<nat>, toolCalls: nat, durationMs: nat, costMinor: nat)

  datatype Usage = Usage(
    input: int32, output: int32, cached: int32, toolCalls: int32, cost: Option<int32>,
    inputComplete: bool, outputComplete: bool, cachedComplete: bool)

  /** Whether the text passes the role schema, and if so whether its content passes the durable-content check. */
  datatype Output = Invalid | Valid(durable: bool)

  /** What one runtime call returns; `durableId` says whether its provider request id passes that check. */
  datatype Answer = Answer(
    finish: AdkStream.FinishReason, output: Output, durableId: bool, usage: Usage, durationMs: int32)

  /** A measured usage record. Input is stored without its cached part; `price` is `None` when unknown. */
  datatype Record = Record(
    uncached: nat, output: nat, cached: nat, toolCalls: nat, durationMs: nat,
    inputComplete: bool, outputComplete: bool, cachedComplete: bool, price: Option<nat>)

  datatype Status = Succeeded | BudgetExceeded | TimedOut | Cancelled | Failed

  /**
   What a request ends in. `Refused` is the raw value error an error with usage raises while it is built,
   and `Interrupted` the cancellation that passes through.
   */
  datatype Outcome =
    | Returned(status: Status, usage: Record, attempts: seq<Record>, toolCalls: nat, durationMs: nat)
    | BudgetError(carried: Option<Record>, attempts: seq<Record>)
    | PromptDrift(attempts: seq<Record>)
    | RepairFailure(attempts: seq<Record>)
    | OutputInvalid(usage: Record, attempts: seq<Record>)
    | GatewayError
    | PromptChanged
    | Refused
    | Interrupted

  /** How a runtime call ends: answered, broken off by an error, or cancelled. */
  datatype Call = Answered(answer: Answer) | Broken | Stopped

  /** The repair: the prompt has changed, the invocation cannot be built, or the runtime is called. */
  datatype Repair = Drifted | Unbuilt | Attempted(call: Call)

  /** The preparation of the first call: it succeeds, or the first of its steps to fail decides the outcome. */
  datatype Setup = Ready | Unusable | Unpriceable | Drifting

  /**
   The world around one execution: whether provider and role are known, how the preparation goes, what
   the two calls come to, and the price table.
   */
  datatype World = World(
    known: bool, setup: Setup, first: Call, repair: Limits -> Repair, price: Record -> Option<int>)

  // ---- limits ----

  function LimitsOf(b: Budget): Option<Limits> {
    if (b.input.Some? && !(0 < b.input.value <= INT64_MAX))
       || (b.output.Some? && !(0 < b.output.value <= INT64_MAX))
       || (b.total.Some? && !(0 < b.total.value <= INT64_MAX))
       || b.toolCalls < 0 || b.durationSeconds < 0 || b.costMinor < 0
       || b.durationSeconds * 1000 > INT32_MAX || b.toolCalls > INT32_MAX || b.costMinor > INT32_MAX
    then None
    else
      Some(Limits(if b.input.Some? then Some(b.input.value) else None,
                  if b.output.Some? then Some(b.output.value) else None,
                  if b.total.Some? then Some(b.total.value) else None,
                  b.toolCalls, b.durationSeconds * 1000, b.costMinor))
  }

  function Remaining(limit: nat, used: nat): nat {
    if used > limit then 0 else limit - used
  }

  function RemainingOf(limit: Option<nat>, used: nat): Option<nat> {
    if limit.None? then None else Some(Remaining(limit.value, used))
  }

  function Leftover(l: Limits, a: Aggregate, cost: nat): Limits {
    Limits(RemainingOf(l.input, a.input), RemainingOf(l.output, a.output), RemainingOf(l.total, a.input + a.output),
           Remaining(l.toolCalls, a.toolCalls), Remaining(l.durationMs, a.durationMs), Remaining(l.costMinor, cost))
  }

  // ---- aggregation ----

  datatype Aggregate = Aggregate(
    input: nat, output: nat, cached: nat, toolCalls: nat, durationMs: nat, providerCost: nat, providerCostKnown: bool,
    inputComplete: bool, outputComplete: bool, cachedComplete: bool)

  const EMPTY := Aggregate(0, 0, 0, 0, 0, 0, true, true, true, true)

  /** Adds one answer; `None` when a counter leaves the int32 range. */
  function Add(a: Aggregate, r: Answer): Option<Aggregate> {
    var u := r.usage;
    var counted := u.cost.Some? && a.providerCostKnown;
    var cost := if counted then a.providerCost + u.cost.value else a.providerCost;
    if a.input + u.input > INT32_MAX || a.output + u.output > INT32_MAX || a.cached + u.cached > INT32_MAX
       || a.toolCalls + u.toolCalls > INT32_MAX || a.durationMs + r.durationMs > INT32_MAX
       || (counted && cost > INT32_MAX)
    then None
    else
      Some(Aggregate(a.input + u.input, a.output + u.output, a.cached + u.cached, a.toolCalls + u.toolCalls,
                     a.durationMs + r.durationMs, cost, a.providerCostKnown && u.cost.Some?,
                     a.inputComplete && u.inputComplete, a.outputComplete && u.outputComplete,
                     a.cachedComplete && u.cachedComplete))
  }

  /** A record cannot hold more cached than input tokens. */
  function Unpriced(a: Aggregate): Option<Record> {
    if a.cached > a.input then None
    else Some(Record(a.input - a.cached, a.output, a.cached, a.toolCalls, a.durationMs,
                     a.inputComplete, a.outputComplete, a.cachedComplete, None))
  }

  function Price(w: World, a: Aggregate): Option<Record> {
    var r := Unpriced(a);
    if r.None? then None
    else
      var estimate := w.price(r.value);
      if estimate.None? || !(0 <= estimate.value <= INT32_MAX) then None
      else Some(r.value.(price := Some(estimate.value)))
  }

  function Alone(r: Answer): Aggregate {
    var u := r.usage;
    Aggregate(u.input, u.output, u.cached, u.toolCalls, r.durationMs, u.cost.Or(0), u.cost.Some?,
              u.inputComplete, u.outputComplete, u.cachedComplete)
  }

  function EffectiveCost(r: Answer, priced: Record): nat {
    AdkStream.Max(priced.price.Or(0), r.usage.cost.Or(0))
  }

  function AggregateCost(a: Aggregate, priced: Record): nat {
    AdkStream.Max(priced.price.Or(0), if a.providerCostKnown then a.providerCost else 0)
  }

  predicate Exceeds(used: nat, limit: Option<nat>) {
    limit.Some? && used > limit.value
  }

  predicate OverBudget(r: Answer, l: Limits, cost: nat) {
    || Exceeds(r.usage.input, l.input)
    || Exceeds(r.usage.input + r.usage.output, l.total)
    || Exceeds(r.usage.output, l.output)
    || r.usage.toolCalls > l.toolCalls || r.durationMs > l.durationMs || cost > l.costMinor
  }

  function StatusOf(f: AdkStream.FinishReason): Status {
    match f
    case Completed => Succeeded
    case BudgetExhausted => BudgetExceeded
    case TimedOut => TimedOut
    case Cancelled => Cancelled
    case Failed => Failed
  }

  // ---- results ----

  function SumOf(records: seq<Record>, f: Record -> nat): nat {
    if records == [] then 0 else SumOf(records[..|records| - 1], f) + f(records[|records| - 1])
  }

  /** The attempts kept beside a usage record add up to it, and it claims no completeness they lack. */
  predicate Consistent(usage: Record, attempts: seq<Record>) {
    && |attempts| <= 2
    && SumOf(attempts, (r: Record) => r.uncached) == usage.uncached
    && SumOf(attempts, (r: Record) => r.output) == usage.output
    && SumOf(attempts, (r: Record) => r.cached) == usage.cached
    && SumOf(attempts, (r: Record) => r.toolCalls) == usage.toolCalls
    && SumOf(attempts, (r: Record) => r.durationMs) == usage.durationMs
    && forall r :: r in attempts ==>
      (usage.inputComplete ==> r.inputComplete) && (usage.outputComplete ==> r.outputComplete)
      && (usage.cachedComplete ==> r.cachedComplete)
  }

  /** A result is built only when its counters agree and all its content is durable. */
  function ResultOf(durable: bool, a: Aggregate, usage: Record, attempts: seq<Record>, status: Status): Outcome {
    if !durable || a.toolCalls != usage.toolCalls || a.durationMs != usage.durationMs || !Consistent(usage, attempts)
    then GatewayError
    else Returned(status, usage, attempts, a.toolCalls, a.durationMs)
  }

  /** An error that carries usage makes the same checks on it, and a failed check replaces the error. */
  function Carry(durable: bool, usage: Record, attempts: seq<Record>, error: Outcome): Outcome {
    if !durable || !Consistent(usage, attempts) then Refused else error
  }

  /** The outcome, and the limits of each runtime call made. */
  datatype Execution = Execution(outcome: Outcome, calls: seq<Limits>)

  /** What the second call's answer comes to; `id` says whether the first call's request id is durable. */
  function Settle(w: World, l: Limits, left: Limits, a: Aggregate, id: bool, first: Record, second: Answer): Outcome {
    var ids := id && second.durableId;
    match Add(a, second)
    case None => BudgetError(None, [])
    case Some(both) =>
      var secondPriced := Price(w, Alone(second));
      if secondPriced.None? then
        if Unpriced(Alone(second)).None? || Unpriced(both).None? then BudgetError(None, [])
        else
          var records := [first, Unpriced(Alone(second)).value];
          Carry(ids, Unpriced(both).value, records, BudgetError(Unpriced(both), records))
      else
        var records := [first, secondPriced.value];
        var bothPriced := Price(w, both);
        if bothPriced.None? then
          if Unpriced(both).None? then BudgetError(None, [])
          else Carry(ids, Unpriced(both).value, records, BudgetError(Unpriced(both), records))
        else if OverBudget(second, left, EffectiveCost(second, secondPriced.value))
                || AggregateCost(both, bothPriced.value) > l.costMinor then
          ResultOf(ids, both, bothPriced.value, records, BudgetExceeded)
        else if second.finish != AdkStream.Completed then
          ResultOf(ids, both, bothPriced.value, records, StatusOf(second.finish))
        else if second.output.Invalid? then
          Carry(ids, bothPriced.value, records, OutputInvalid(bothPriced.value, records))
        else ResultOf(ids && second.output.durable, both, bothPriced.value, records, Succeeded)
  }

  /** What a repair comes to. */
  function Repaired(w: World, l: Limits, left: Limits, r: Answer, first: Record): Execution {
    match w.repair(left)
    case Drifted => Execution(Carry(r.durableId, first, [first], PromptDrift([first])), [l])
    case Unbuilt => Execution(Carry(r.durableId, first, [first], RepairFailure([first])), [l])
    case Attempted(Broken) => Execution(Carry(r.durableId, first, [first], RepairFailure([first])), [l, left])
    case Attempted(Stopped) => Execution(Interrupted, [l, left])
    case Attempted(Answered(second)) =>
      Execution(Settle(w, l, left, Alone(r), r.durableId, first, second), [l, left])
  }

  /** What the first answer comes to. */
  function FirstAnswer(w: World, l: Limits, r: Answer): Execution {
    var a := Alone(r);
    var priced := Price(w, a);
    if priced.None? then
      var measured := Unpriced(a);
      if measured.None? then Execution(BudgetError(None, []), [l])
      else Execution(Carry(r.durableId, measured.value, [measured.value], BudgetError(measured, [measured.value])), [l])
    else
      var first := priced.value;
      var cost := EffectiveCost(r, first);
      var left := Leftover(l, a, cost);
      if OverBudget(r, l, cost) then Execution(ResultOf(r.durableId, a, first, [first], BudgetExceeded), [l])
      else if r.finish != AdkStream.Completed then
        Execution(ResultOf(r.durableId, a, first, [first], StatusOf(r.finish)), [l])
      else if r.output.Valid? then
        Execution(ResultOf(r.durableId && r.output.durable, a, first, [first], Succeeded), [l])
      else if left.input == Some(0) || left.output == Some(0) || left.total == Some(0) then
        Execution(ResultOf(r.durableId, a, first, [first], BudgetExceeded), [l])
      else Repaired(w, l, left, r, first)
  }

  function Execute(w: World, b: Budget): Execution {
    var limits := LimitsOf(b);
    if !w.known then Execution(GatewayError, [])
    else if limits.None? then Execution(BudgetError(None, []), [])
    else
      match w.setup
      case Unusable => Execution(GatewayError, [])
      case Unpriceable => Execution(BudgetError(None, []), [])
      case Drifting => Execution(PromptChanged, [])
      case Ready =>
        match w.first
        case Broken => Execution(GatewayError, [limits.value])
        case Stopped => Execution(Interrupted, [limits.value])
        case Answered(r) => FirstAnswer(w, limits.value, r)
  }

  // ---- the gateway as the code runs it ----

  class AggregateUsage {
    var input: nat
    var output: nat
    var cached: nat
    var toolCalls: nat
    var durationMs: nat
    var providerCost: nat
    var providerCostKnown: bool
    var inputComplete: bool
    var outputComplete: bool
    var cachedComplete: bool

    function State(): Aggregate
      reads this
    {
      Aggregate(input, output, cached, toolCalls, durationMs, providerCost, providerCostKnown,
                inputComplete, outputComplete, cachedComplete)
    }

    constructor ()
      ensures State() == EMPTY
    {
      input, output, cached, toolCalls, durationMs := 0, 0, 0, 0, 0;
      providerCost, providerCostKnown := 0, true;
      inputComplete, outputComplete, cachedComplete := true, true, true;
    }

    method AddTokens(u: Usage) returns (ok: bool)
      modifies this`input, this`output, this`cached, this`inputComplete, this`outputComplete, this`cachedComplete
      ensures ok <==> old(input) + u.input <= INT32_MAX && old(output) + u.output <= INT32_MAX && old(cached) + u.cached <= INT32_MAX
      ensures ok ==> input == old(input) + u.input && output == old(output) + u.output && cached == old(cached) + u.cached
      ensures ok ==> inputComplete == (old(inputComplete) && u.inputComplete)
      ensures ok ==> outputComplete == (old(outputComplete) && u.outputComplete)
      ensures ok ==> cachedComplete == (old(cachedComplete) && u.cachedComplete)
    {
      ok := input + u.input <= INT32_MAX && output + u.output <= INT32_MAX && cached + u.cached <= INT32_MAX;
      if ok {
        input, output, cached := input + u.input, output + u.output, cached + u.cached;
        inputComplete := inputComplete && u.inputComplete;
        outputComplete := outputComplete && u.outputComplete;
        cachedComplete := cachedComplete && u.cachedComplete;
      }
    }

    method AddCost(cost: Option<int32>) returns (ok: bool)
      modifies this`providerCost, this`providerCostKnown
      ensures var counted := cost.Some? && old(providerCostKnown);
        && (ok <==> !(counted && old(providerCost) + cost.value > INT32_MAX))
        && providerCost == (if counted then old(providerCost) + cost.value else old(providerCost))
        && providerCostKnown == (old(providerCostKnown) && cost.Some?)
    {
      ok := true;
      if cost.None? {
        providerCostKnown := false;
      } else if providerCostKnown {
        providerCost := providerCost + cost.value;
        ok := providerCost <= INT32_MAX;
      }
    }

    /** Adds counter by counter; on an overflow the aggregate is abandoned part-way. */
    method AddAnswer(r: Answer) returns (ok: bool)
      modifies this
      ensures ok <==> Add(old(State()), r).Some?
      ensures ok ==> State() == Add(old(State()), r).value
    {
      ok := AddTokens(r.usage);
      if !ok {
        return;
      }
      ok := toolCalls + r.usage.toolCalls <= INT32_MAX && durationMs + r.durationMs <= INT32_MAX;
      if !ok {
        return;
      }
      toolCalls, durationMs := toolCalls + r.usage.toolCalls, durationMs + r.durationMs;
      ok := AddCost(r.usage.cost);
    }
  }

  /** One request, with the running aggregate as the object the calls are added to. */
  method ExecuteRequest(w: World, b: Budget) returns (outcome: Outcome, calls: seq<Limits>)
    ensures Execution(outcome, calls) == Execute(w, b)
  {
    hide FirstAnswer, LimitsOf;
    calls := [];
    if !w.known {
      return GatewayError, calls;
    }
    var limits := LimitsOf(b);
    if limits.None? {
      return BudgetError(None, []), calls;
    }
    match w.setup {
      case Unusable => return GatewayError, calls;
      case Unpriceable => return BudgetError(None, []), calls;
      case Drifting => return PromptChanged, calls;
      case Ready =>
    }
    calls := [limits.value];
    match w.first {
      case Broken => return GatewayError, calls;
      case Stopped => return Interrupted, calls;
      case Answered(first) => outcome, calls := SettleFirst(w, limits.value, first);
    }
  }

  method SettleFirst(w: World, l: Limits, first: Answer) returns (outcome: Outcome, calls: seq<Limits>)
    ensures Execution(outcome, calls) == FirstAnswer(w, l, first)
  {
    hide Price, Settle, Leftover, OverBudget, EffectiveCost, ResultOf, Carry;
    calls := [l];
    var aggregate := new AggregateUsage();
    FirstAdditionFits(first);
    var added := aggregate.AddAnswer(first);
    var a := aggregate.State();
    assert a == Alone(first);
    var priced := Price(w, a);
    if priced.None? {
      var measured := Unpriced(a);
      if measured.None? {
        return BudgetError(None, []), calls;
      }
      return Carry(first.durableId, measured.value, [measured.value], BudgetError(measured, [measured.value])), calls;
    }
    var record := priced.value;
    var cost := EffectiveCost(first, record);
    if OverBudget(first, l, cost) {
      return ResultOf(first.durableId, a, record, [record], BudgetExceeded), calls;
    }
    if first.finish != AdkStream.Completed {
      return ResultOf(first.durableId, a, record, [record], StatusOf(first.finish)), calls;
    }
    if first.output.Valid? {
      return ResultOf(first.durableId && first.output.durable, a, record, [record], Succeeded), calls;
    }
    var left := Leftover(l, a, cost);
    if left.input == Some(0) || left.output == Some(0) || left.total == Some(0) {
      return ResultOf(first.durableId, a, record, [record], BudgetExceeded), calls;
    }
    var repair := w.repair(left);
    if repair.Attempted? {
      calls := calls + [left];
    }
    match repair {
      case Drifted =>
        return Carry(first.durableId, record, [record], PromptDrift([record])), calls;
      case Unbuilt =>
        return Carry(first.durableId, record, [record], RepairFailure([record])), calls;
      case Attempted(Broken) =>
        return Carry(first.durableId, record, [record], RepairFailure([record])), calls;
      case Attempted(Stopped) =>
        return Interrupted, calls;
      case Attempted(Answered(second)) =>
        outcome := SettleRepair(w, l, left, aggregate, first.durableId, record, second);
    }
  }

  method SettleRepair(
      w: World, l: Limits, left: Limits, aggregate: AggregateUsage, id: bool, first: Record, second: Answer)
    returns (outcome: Outcome)
    modifies aggregate
    ensures outcome == Settle(w, l, left, old(aggregate.State()), id, first, second)
  {
    hide Price, OverBudget, EffectiveCost, AggregateCost, ResultOf, Carry, Add;
    var ids := id && second.durableId;
    var added := aggregate.AddAnswer(second);
    if !added {
      return BudgetError(None, []);
    }
    var both := aggregate.State();
    var secondPriced := Price(w, Alone(second));
    if secondPriced.None? {
      var measured := Unpriced(Alone(second));
      if measured.None? || Unpriced(both).None? {
        return BudgetError(None, []);
      }
      return Carry(ids, Unpriced(both).value, [first, measured.value],
                   BudgetError(Unpriced(both), [first, measured.value]));
    }
    var records := [first, secondPriced.value];
    var bothPriced := Price(w, both);
    if bothPriced.None? {
      if Unpriced(both).None? {
        return BudgetError(None, []);
      }
      return Carry(ids, Unpriced(both).value, records, BudgetError(Unpriced(both), records));
    }
    if OverBudget(second, left, EffectiveCost(second, secondPriced.value))
       || AggregateCost(both, bothPriced.value) > l.costMinor {
      return ResultOf(ids, both, bothPriced.value, records, BudgetExceeded);
    }
    if second.finish != AdkStream.Completed {
      return ResultOf(ids, both, bothPriced.value, records, StatusOf(second.finish));
    }
    if second.output.Invalid? {
      return Carry(ids, bothPriced.value, records, OutputInvalid(bothPriced.value, records));
    }
    return ResultOf(ids && second.output.durable, both, bothPriced.value, records, Succeeded);
  }

  lemma FirstAdditionFits(r: Answer)
    ensures Add(EMPTY, r) == Some(Alone(r))
  {
  }

  // ---- the main results ----

  /** At most two runtime calls: the first under the whole budget, the second under what the first left. */
  lemma AtMostTwoCalls(w: World, b: Budget)
    ensures var calls := Execute(w, b).calls;
      && |calls| <= 2
      && (|calls| > 0 ==> LimitsOf(b) == Some(calls[0]))
      && (|calls| == 2 ==>
            && w.first.Answered? && Price(w, Alone(w.first.answer)).Some?
            && calls[1] == Leftover(calls[0], Alone(w.first.answer), CostOf(w, w.first.answer)))
  {
    hide Price, Settle, ResultOf, Carry, OverBudget, LimitsOf, Leftover;
  }

  /** The answers the runtime gave during an execution. */
  function AnswersOf(w: World, b: Budget): seq<Answer> {
    var calls := Execute(w, b).calls;
    if calls == [] || !w.first.Answered? then []
    else if |calls| == 2 && w.repair(calls[1]).Attempted? && w.repair(calls[1]).call.Answered? then
      [w.first.answer, w.repair(calls[1]).call.answer]
    else [w.first.answer]
  }

  function CostOf(w: World, r: Answer): nat {
    match Price(w, Alone(r))
    case None => 0
    case Some(priced) => EffectiveCost(r, priced)
  }

  function Total(rs: seq<Answer>, f: Answer -> nat): nat {
    if rs == [] then 0 else Total(rs[..|rs| - 1], f) + f(rs[|rs| - 1])
  }

  lemma TotalOfTwo(a: Answer, b: Answer, f: Answer -> nat)
    ensures Total([a], f) == f(a) && Total([a, b], f) == f(a) + f(b)
  {
    assert [a][..0] == [] && [a, b][..1] == [a];
  }

  lemma SumOfTwo(a: Record, b: Record, f: Record -> nat)
    ensures SumOf([a], f) == f(a) && SumOf([a, b], f) == f(a) + f(b)
  {
    assert [a][..0] == [] && [a, b][..1] == [a];
  }

  predicate WithinBudget(w: World, l: Limits, rs: seq<Answer>) {
    && !Exceeds(Total(rs, (r: Answer) => r.usage.input), l.input)
    && !Exceeds(Total(rs, (r: Answer) => r.usage.output), l.output)
    && !Exceeds(Total(rs, (r: Answer) => r.usage.input + r.usage.output), l.total)
    && Total(rs, (r: Answer) => r.usage.toolCalls) <= l.toolCalls
    && Total(rs, (r: Answer) => r.durationMs) <= l.durationMs
    && Total(rs, (r: Answer) => CostOf(w, r)) <= l.costMinor
  }

  /** A counter that fits its cap, plus one that fits what was left of it, fit the cap together. */
  lemma LeftoverSplits(l: Limits, r: Answer, cost: nat, second: Answer, cost2: nat)
    requires !OverBudget(r, l, cost) && !OverBudget(second, Leftover(l, Alone(r), cost), cost2)
    ensures !Exceeds(r.usage.input + second.usage.input, l.input)
    ensures !Exceeds(r.usage.output + second.usage.output, l.output)
    ensures !Exceeds(r.usage.input + r.usage.output + (second.usage.input + second.usage.output), l.total)
    ensures r.usage.toolCalls + second.usage.toolCalls <= l.toolCalls
    ensures r.durationMs + second.durationMs <= l.durationMs && cost + cost2 <= l.costMinor
  {
  }

  lemma OneCallWithin(w: World, l: Limits, r: Answer)
    requires !OverBudget(r, l, CostOf(w, r))
    ensures WithinBudget(w, l, [r])
  {
    hide CostOf, Total;
    TotalOfTwo(r, r, (r: Answer) => r.usage.input);
    TotalOfTwo(r, r, (r: Answer) => r.usage.output);
    TotalOfTwo(r, r, (r: Answer) => r.usage.input + r.usage.output);
    TotalOfTwo(r, r, (r: Answer) => r.usage.toolCalls);
    TotalOfTwo(r, r, (r: Answer) => r.durationMs);
    TotalOfTwo(r, r, (r: Answer) => CostOf(w, r));
  }

  lemma TwoCallsWithin(w: World, l: Limits, r: Answer, second: Answer)
    requires !OverBudget(r, l, CostOf(w, r))
    requires !OverBudget(second, Leftover(l, Alone(r), CostOf(w, r)), CostOf(w, second))
    ensures WithinBudget(w, l, [r, second])
  {
    hide CostOf, Total, OverBudget, Leftover;
    LeftoverSplits(l, r, CostOf(w, r), second, CostOf(w, second));
    TotalOfTwo(r, second, (r: Answer) => r.usage.input);
    TotalOfTwo(r, second, (r: Answer) => r.usage.output);
    TotalOfTwo(r, second, (r: Answer) => r.usage.input + r.usage.output);
    TotalOfTwo(r, second, (r: Answer) => r.usage.toolCalls);
    TotalOfTwo(r, second, (r: Answer) => r.durationMs);
    TotalOfTwo(r, second, (r: Answer) => CostOf(w, r));
  }

  /** A success spends, over all its calls together, no more than any of the original limits. */
  lemma SuccessIsWithinBudget(w: World, b: Budget)
    requires Execute(w, b).outcome.Returned? && Execute(w, b).outcome.status == Succeeded
    ensures LimitsOf(b).Some? && AnswersOf(w, b) != [] && WithinBudget(w, LimitsOf(b).value, AnswersOf(w, b))
  {
    hide Price, LimitsOf, Leftover, OverBudget, WithinBudget, EffectiveCost, AggregateCost, Add, Unpriced, Consistent;
    var l := LimitsOf(b).value;
    var r := w.first.answer;
    if Execute(w, b).calls == [l] {
      OneCallWithin(w, l, r);
    } else {
      var second := w.repair(Leftover(l, Alone(r), CostOf(w, r))).call.answer;
      TwoCallsWithin(w, l, r, second);
    }
  }

  // ---- counters ----

  /** A record holds exactly what one answer measured. */
  predicate Measures(record: Record, r: Answer) {
    && record.uncached + record.cached == r.usage.input && record.cached == r.usage.cached
    && record.output == r.usage.output && record.toolCalls == r.usage.toolCalls && record.durationMs == r.durationMs
    && record.inputComplete == r.usage.inputComplete && record.outputComplete == r.usage.outputComplete
    && record.cachedComplete == r.usage.cachedComplete
  }

  predicate Holds(usage: Record, a: Aggregate) {
    && usage.uncached + usage.cached == a.input && usage.cached == a.cached && usage.output == a.output
    && usage.toolCalls == a.toolCalls && usage.durationMs == a.durationMs
    && usage.inputComplete == a.inputComplete && usage.outputComplete == a.outputComplete
    && usage.cachedComplete == a.cachedComplete
  }

  lemma PriceHolds(w: World, a: Aggregate)
    ensures Price(w, a).Some? ==> Holds(Price(w, a).value, a)
    ensures Unpriced(a).Some? ==> Holds(Unpriced(a).value, a)
    ensures Unpriced(a).Some? <==> a.cached <= a.input
    ensures Price(w, a).Some? ==> Unpriced(a).Some?
  {
  }

  lemma OneAttemptConsistent(usage: Record)
    ensures Consistent(usage, [usage])
  {
    hide SumOf;
    SumOfTwo(usage, usage, (r: Record) => r.uncached);
    SumOfTwo(usage, usage, (r: Record) => r.output);
    SumOfTwo(usage, usage, (r: Record) => r.cached);
    SumOfTwo(usage, usage, (r: Record) => r.toolCalls);
    SumOfTwo(usage, usage, (r: Record) => r.durationMs);
  }

  lemma TwoAttemptsConsistent(usage: Record, first: Record, second: Record, r: Answer, q: Answer)
    requires Measures(first, r) && Measures(second, q) && Add(Alone(r), q).Some? && Holds(usage, Add(Alone(r), q).value)
    ensures Consistent(usage, [first, second])
  {
    hide SumOf;
    SumOfTwo(first, second, (r: Record) => r.uncached);
    SumOfTwo(first, second, (r: Record) => r.output);
    SumOfTwo(first, second, (r: Record) => r.cached);
    SumOfTwo(first, second, (r: Record) => r.toolCalls);
    SumOfTwo(first, second, (r: Record) => r.durationMs);
  }

  function AttemptsOf(o: Outcome): seq<Record> {
    if o.GatewayError? || o.PromptChanged? || o.Refused? || o.Interrupted? then [] else o.attempts
  }

  /** Every answered call appears in the outcome with its own counters. */
  predicate Accounted(o: Outcome, rs: seq<Answer>) {
    |AttemptsOf(o)| == |rs| && forall i :: 0 <= i < |rs| ==> Measures(AttemptsOf(o)[i], rs[i])
  }

  /** What the answers must satisfy for their counters to fit usage records and the running sum, with durable ids. */
  predicate Recordable(rs: seq<Answer>) {
    && (forall r :: r in rs ==> r.usage.cached <= r.usage.input && r.durableId)
    && (|rs| == 2 ==> Add(Alone(rs[0]), rs[1]).Some?)
  }

  /** The first answer is accepted as output: priced, within the limits, completed and schema-valid. */
  predicate FirstAccepted(w: World, l: Limits, r: Answer) {
    && Price(w, Alone(r)).Some? && !OverBudget(r, l, CostOf(w, r))
    && r.finish == AdkStream.Completed && r.output.Valid?
  }

  /** The same for the second: within what the first left, and the cost of both within the original limit. */
  predicate SecondAccepted(w: World, l: Limits, r: Answer, second: Answer) {
    && Price(w, Alone(second)).Some? && !OverBudget(second, Leftover(l, Alone(r), CostOf(w, r)), CostOf(w, second))
    && Add(Alone(r), second).Some?
    && var both := Add(Alone(r), second).value;
    && Price(w, both).Some? && AggregateCost(both, Price(w, both).value) <= l.costMinor
    && second.finish == AdkStream.Completed && second.output.Valid?
  }

  /** The answer accepted as output holds content that the durable-content check refuses. */
  predicate RefusesOutput(w: World, l: Limits, rs: seq<Answer>) {
    || (|rs| == 1 && FirstAccepted(w, l, rs[0]) && !rs[0].output.durable)
    || (|rs| == 2 && SecondAccepted(w, l, rs[0], rs[1]) && !rs[1].output.durable)
  }

  /** The runtime was called a second time and that call was cancelled. */
  predicate RepairStopped(w: World, calls: seq<Limits>) {
    |calls| == 2 && w.repair(calls[1]) == Attempted(Stopped)
  }

  /** What one request loses, given the limits of its calls and the answers to them. */
  predicate Loses(w: World, calls: seq<Limits>, rs: seq<Answer>) {
    calls != [] && (RefusesOutput(w, calls[0], rs) || RepairStopped(w, calls))
  }

  lemma SettleAccounts(w: World, l: Limits, r: Answer, first: Record, second: Answer)
    requires Measures(first, r) && r.usage.cached <= r.usage.input
    ensures var o := Settle(w, l, Leftover(l, Alone(r), CostOf(w, r)), Alone(r), r.durableId, first, second);
      && (Accounted(o, [r, second]) <==>
            Recordable([r, second]) && !(SecondAccepted(w, l, r, second) && !second.output.durable))
      && (o.Returned? ==> Consistent(o.usage, o.attempts))
  {
    hide Consistent, OverBudget, EffectiveCost, AggregateCost, Price, Unpriced, Leftover;
    PriceHolds(w, Alone(second));
    if Add(Alone(r), second).Some? {
      var both := Add(Alone(r), second).value;
      PriceHolds(w, both);
      if Unpriced(Alone(second)).Some? && Unpriced(both).Some? {
        TwoAttemptsConsistent(Unpriced(both).value, first, Unpriced(Alone(second)).value, r, second);
        if Price(w, Alone(second)).Some? {
          TwoAttemptsConsistent(Unpriced(both).value, first, Price(w, Alone(second)).value, r, second);
          if Price(w, both).Some? {
            TwoAttemptsConsistent(Price(w, both).value, first, Price(w, Alone(second)).value, r, second);
          }
        }
      }
    }
  }

  lemma FirstAccounts(w: World, l: Limits, r: Answer)
    requires var calls := FirstAnswer(w, l, r).calls;
      |calls| == 2 && w.repair(calls[1]).Attempted? ==> !w.repair(calls[1]).call.Answered?
    ensures var e := FirstAnswer(w, l, r);
      Accounted(e.outcome, [r]) <==> Recordable([r]) && !Loses(w, e.calls, [r])
  {
    hide Price, Leftover, OverBudget, EffectiveCost, Settle, Consistent, Unpriced;
    PriceHolds(w, Alone(r));
    if Price(w, Alone(r)).Some? {
      OneAttemptConsistent(Price(w, Alone(r)).value);
    } else if Unpriced(Alone(r)).Some? {
      OneAttemptConsistent(Unpriced(Alone(r)).value);
    }
  }

  /**
   The outcome of every execution carries the usage of all its answered calls, whatever else went wrong, if
   and only if no answer reports more cached than input tokens or an undurable request id, the counters of
   two answers add up within 32 bits, no output with undurable content is accepted, and the repair call is
   not cancelled.
   */
  lemma UsageIsCarriedIff(w: World, b: Budget)
    ensures var rs := AnswersOf(w, b);
      Accounted(Execute(w, b).outcome, rs) <==> Recordable(rs) && !Loses(w, Execute(w, b).calls, rs)
  {
    hide Price, LimitsOf, Leftover, OverBudget, EffectiveCost, Settle, Consistent, Unpriced, FirstAccepted, SecondAccepted;
    if AnswersOf(w, b) != [] {
      var l := LimitsOf(b).value;
      var r := w.first.answer;
      PriceHolds(w, Alone(r));
      var calls := Execute(w, b).calls;
      if |calls| == 2 && w.repair(calls[1]).call.Answered? {
        SettleAccounts(w, l, r, Price(w, Alone(r)).value, w.repair(calls[1]).call.answer);
      } else {
        FirstAccounts(w, l, r);
      }
    }
  }

  lemma SettleReturns(w: World, l: Limits, left: Limits, a: Aggregate, id: bool, first: Record, second: Answer)
    requires Settle(w, l, left, a, id, first, second).Returned?
    ensures var o := Settle(w, l, left, a, id, first, second);
      && o.toolCalls == o.usage.toolCalls && o.durationMs == o.usage.durationMs && Consistent(o.usage, o.attempts)
      && Price(w, Alone(second)).Some? && o.attempts == [first, Price(w, Alone(second)).value]
  {
    hide Price, Leftover, OverBudget, EffectiveCost, AggregateCost, Consistent, Unpriced, Add;
  }

  /** A returned result's counters are the sums over its attempts, which are its answered calls. */
  lemma ReturnedCountersAreTheSum(w: World, b: Budget)
    requires Execute(w, b).outcome.Returned?
    ensures var o := Execute(w, b).outcome;
      && o.toolCalls == o.usage.toolCalls && o.durationMs == o.usage.durationMs
      && Consistent(o.usage, o.attempts) && Accounted(o, AnswersOf(w, b))
  {
    hide Price, LimitsOf, Leftover, OverBudget, EffectiveCost, Consistent, Unpriced, Settle;
    var l := LimitsOf(b).value;
    var r := w.first.answer;
    PriceHolds(w, Alone(r));
    var first := Price(w, Alone(r)).value;
    if |Execute(w, b).calls| == 2 {
      var left := Leftover(l, Alone(r), EffectiveCost(r, first));
      var second := w.repair(left).call.answer;
      PriceHolds(w, Alone(second));
      SettleReturns(w, l, left, Alone(r), r.durableId, first, second);
    }
  }

  // ---- inputs that lose usage ----

  const ONE_UNIT := Budget(None, None, None, 0, 1, 1)
  const TEN_TOKENS := Usage(10, 0, 0, 0, None, true, true, true)

  /** A world that prices everything at nothing. */
  function FreeWorld(first: Answer, repair: Call): World {
    World(true, Ready, Answered(first), (_: Limits) => Attempted(repair), (_: Record) => Some(0))
  }

  /** Two answers of 2147483647 and 1 input tokens: the sum does not fit, and neither call's usage is reported. */
  lemma OverflowLosesUsage()
    ensures var u := Usage(INT32_MAX, 0, 0, 0, None, true, true, true);
            var w := FreeWorld(Answer(AdkStream.Completed, Invalid, true, u, 0),
                               Answered(Answer(AdkStream.Completed, Valid(true), true, u.(input := 1), 0)));
      Execute(w, ONE_UNIT).outcome == BudgetError(None, []) && |AnswersOf(w, ONE_UNIT)| == 2
  {
  }

  /** More cached than input tokens fit no usage record. */
  lemma ExcessCacheLosesUsage()
    ensures var w := FreeWorld(Answer(AdkStream.Completed, Valid(true), true, TEN_TOKENS.(cached := 11), 0), Broken);
      Execute(w, ONE_UNIT).outcome == BudgetError(None, []) && |AnswersOf(w, ONE_UNIT)| == 1
  {
  }

  /** A complete, valid, affordable answer whose output holds a credential: a gateway error without its usage. */
  lemma UndurableOutputLosesUsage()
    ensures var w := FreeWorld(Answer(AdkStream.Completed, Valid(false), true, TEN_TOKENS, 0), Broken);
      Execute(w, ONE_UNIT).outcome == GatewayError && |AnswersOf(w, ONE_UNIT)| == 1 && Recordable(AnswersOf(w, ONE_UNIT))
  {
  }

  /** The same for a request id that reads as a credential, in a result and in an error that carries usage. */
  lemma UndurableIdLosesUsage()
    ensures var r := Answer(AdkStream.Completed, Valid(true), false, TEN_TOKENS, 0);
      && Execute(FreeWorld(r, Broken), ONE_UNIT).outcome == GatewayError
      && Execute(FreeWorld(r.(output := Invalid), Broken), ONE_UNIT).outcome == Refused
  {
  }

  /** An invalid first answer and a repair call that is cancelled: the first call's usage is not reported. */
  lemma CancelledRepairLosesUsage()
    ensures var w := FreeWorld(Answer(AdkStream.Completed, Invalid, true, TEN_TOKENS, 0), Stopped);
      Execute(w, ONE_UNIT).outcome == Interrupted && |AnswersOf(w, ONE_UNIT)| == 1 && Recordable(AnswersOf(w, ONE_UNIT))
  {
  }
}
