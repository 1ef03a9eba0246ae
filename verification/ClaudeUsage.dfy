/**
 The token meter of one Claude attempt: per-message cumulative counters with partly unknown
 dimensions, merged into aggregates.
 */
module ClaudeUsage {
  import opened Prelude

  const MAX_MESSAGES: nat := 1024

  /** The seven retained numbers of one provider message; `None` is unmeasured. */
  datatype Message = Message(
    input: Option<nat>, output: Option<nat>, cached: Option<nat>, reasoning: Option<nat>,
    uncached: Option<nat>, read: Option<nat>, created: Option<nat>)

  datatype Dimension = Input | Output | Cached | Reasoning | Uncached | CacheRead | CacheCreated

  function Part(m: Message, d: Dimension): Option<nat> {
    match d
    case Input => m.input
    case Output => m.output
    case Cached => m.cached
    case Reasoning => m.reasoning
    case Uncached => m.uncached
    case CacheRead => m.read
    case CacheCreated => m.created
  }

  type Messages = map<string, Message>

  /** Everything the meter remembers between two observations. */
  datatype Usage = Usage(
    input: Option<nat>, output: Option<nat>, cached: Option<nat>, reasoning: Option<nat>,
    uncached: Option<nat>, read: Option<nat>, created: Option<nat>,
    cacheComplete: bool, messages: Messages)

  const FRESH := Usage(None, None, None, None, None, None, None, false, map[])

  /** One constructor per place that raises. */
  datatype Refusal =
    | MalformedCache | CacheRegressed | CacheOverflow
    | ForeignSession | Unidentified | MalformedCounters | InputOverflow
    | CachedExceedsInput | Regressed | TooManyMessages
    | TotalOverflow | CacheTotalOverflow | CachedTotalExceedsInput

  datatype Verdict = Ignored | Merged | Refused(why: Refusal)

  // ---- one payload ----

  predicate Measurable(v: Json) {
    v.Null? || (v.Int? && 0 <= v.n <= MAX_SIGNED_BIGINT)
  }

  function Counter(v: Json): Option<nat> {
    if v.Int? && 0 <= v.n then Some(v.n) else None
  }

  /** A malformed reasoning count, or one above the output, is dropped and never an error. */
  function OptionalReasoning(v: Json, output: Option<nat>): Option<nat> {
    if !v.Int? || !(0 <= v.n <= MAX_SIGNED_BIGINT) then None
    else if output.None? || v.n <= output.value then Some(v.n)
    else None
  }

  predicate Below(next: Option<nat>, prior: Option<nat>) {
    next.Some? && prior.Some? && next.value < prior.value
  }

  datatype Cache = Cache(read: Option<nat>, created: Option<nat>, total: Option<nat>)

  function CacheReadField(value: JObj): Json {
    GetEither(value, "cache_read_input_tokens", "cached_input_tokens")
  }

  function CacheCreatedField(value: JObj): Json {
    Get(value, "cache_creation_input_tokens")
  }

  function CacheUpdate(value: JObj, priorRead: Option<nat>, priorCreated: Option<nat>): Result<Cache, Refusal> {
    var r := CacheReadField(value);
    var c := CacheCreatedField(value);
    if !Measurable(r) || !Measurable(c) then Err(MalformedCache)
    else if r.Null? && c.Null? && priorRead.None? && priorCreated.None? then Ok(Cache(None, None, None))
    else
      var silent := r.Null? && c.Null?;
      var read := if silent then priorRead else Some(Counter(r).Or(priorRead.Or(0)));
      var created := if silent then priorCreated else Some(Counter(c).Or(priorCreated.Or(0)));
      if Below(read, priorRead) || Below(created, priorCreated) then Err(CacheRegressed)
      else if read.Or(0) + created.Or(0) > MAX_SIGNED_BIGINT then Err(CacheOverflow)
      else Ok(Cache(read, created, Some(read.Or(0) + created.Or(0))))
  }

  function ReasoningField(value: JObj): Json {
    GetEither(value, "thinking_tokens", "reasoning_output_tokens")
  }

  predicate ReasoningPresent(value: JObj) {
    "thinking_tokens" in value || "reasoning_output_tokens" in value
  }

  function KeepReasoning(r: Option<nat>, output: Option<nat>, prior: Option<nat>): Option<nat> {
    if r.Some? && output.Some? && r.value > output.value then None
    else if Below(r, prior) then None
    else r
  }

  function NormalizedInput(uncached: Option<nat>, cacheTotal: Option<nat>): Option<nat> {
    if uncached.None? then None else Some(uncached.value + cacheTotal.Or(0))
  }

  /** What one assistant payload makes of its own message; `Ok(None)` says it carries no news. */
  function MergeMessage(prior: Option<Message>, value: JObj): Result<Option<Message>, Refusal> {
    var source := Get(value, "input_tokens");
    var target := Get(value, "output_tokens");
    if !Measurable(source) || !Measurable(target) then Err(MalformedCounters)
    else
      var before := prior.Or(Message(None, None, None, None, None, None, None));
      match CacheUpdate(value, before.read, before.created)
      case Err(why) => Err(why)
      case Ok(cache) =>
        var output := if target.Null? then before.output else Counter(target);
        var uncached := if source.Null? then before.uncached else Counter(source);
        var input := NormalizedInput(uncached, cache.total);
        if input.Some? && input.value > MAX_SIGNED_BIGINT then Err(InputOverflow)
        else if cache.total.Some? && input.Some? && cache.total.value > input.value then Err(CachedExceedsInput)
        else
          var offered := if ReasoningPresent(value) then OptionalReasoning(ReasoningField(value), output) else before.reasoning;
          var reasoning := KeepReasoning(offered, output, before.reasoning);
          var next := Message(input, output, cache.total, reasoning, uncached, cache.read, cache.created);
          if input.None? && output.None? && cache.total.None? && reasoning.None? then Ok(None)
          else if prior == Some(next) then Ok(None)
          else if Below(input, before.input) || Below(output, before.output) then Err(Regressed)
          else Ok(Some(next))
  }

  // ---- aggregates ----

  /** The sum of one dimension over the messages, unmeasured entries counting nothing. */
  ghost function Total(ms: Messages, d: Dimension): nat
    decreases |ms|
  {
    if ms == map[] then 0
    else
      var k :| k in ms;
      Part(ms[k], d).Or(0) + Total(ms - {k}, d)
  }

  ghost predicate AllKnown(ms: Messages, d: Dimension) {
    forall k :: k in ms ==> Part(ms[k], d).Some?
  }

  ghost predicate SomeKnown(ms: Messages, d: Dimension) {
    exists k :: k in ms && Part(ms[k], d).Some?
  }

  /** `_sum_messages`: one unmeasured message makes the aggregate unmeasured. */
  ghost function StrictSum(ms: Messages, d: Dimension): Option<nat> {
    if AllKnown(ms, d) then Some(Total(ms, d)) else None
  }

  /** `_sum_known_messages`. */
  ghost function KnownSum(ms: Messages, d: Dimension): Option<nat> {
    if SomeKnown(ms, d) then Some(Total(ms, d)) else None
  }

  predicate Overflows(total: Option<nat>) {
    total.Some? && total.value > MAX_SIGNED_BIGINT
  }

  ghost function ReasoningSum(ms: Messages, output: Option<nat>): Option<nat> {
    var total := StrictSum(ms, Reasoning);
    if total.None? || Overflows(total) || (output.Some? && total.value > output.value) then None else total
  }

  /** The aggregates a non-empty message table stands for. */
  ghost function Aggregated(ms: Messages): Usage {
    var output := StrictSum(ms, Output);
    Usage(StrictSum(ms, Input), output, StrictSum(ms, Cached), ReasoningSum(ms, output),
          StrictSum(ms, Uncached), KnownSum(ms, CacheRead), KnownSum(ms, CacheCreated),
          StrictSum(ms, Cached).Some?, ms)
  }

  function TotalsObjection(agg: Usage): Option<Refusal> {
    if Overflows(agg.input) || Overflows(agg.output) || Overflows(agg.cached)
       || Overflows(agg.uncached) || Overflows(agg.read) || Overflows(agg.created) then Some(TotalOverflow)
    else if agg.read.Or(0) + agg.created.Or(0) > MAX_SIGNED_BIGINT then Some(CacheTotalOverflow)
    else if agg.cached.Some? && agg.input.Some? && agg.cached.value > agg.input.value then Some(CachedTotalExceedsInput)
    else None
  }

  /** The merge of one identified payload into the table. */
  ghost function MergeStep(u: Usage, id: string, value: JObj): (Usage, Verdict) {
    var prior := if id in u.messages then Some(u.messages[id]) else None;
    match MergeMessage(prior, value)
    case Err(why) => (u, Refused(why))
    case Ok(None) => (u, Ignored)
    case Ok(Some(next)) =>
      if prior.None? && |u.messages| >= MAX_MESSAGES then (u, Refused(TooManyMessages))
      else
        var ms := u.messages[id := next];
        var agg := Aggregated(ms);
        match TotalsObjection(agg)
        case Some(why) => (u, Refused(why))
        case None => (agg, Merged)
  }

  datatype Delivery = NotUsage | Bad(why: Refusal) | Payload(id: string, value: JObj)

  /** How a stream frame is recognised as an assistant usage report. */
  function AssistantPayload(frame: JObj, session: string): Delivery {
    if Get(frame, "type") != Str("assistant") then NotUsage
    else
      match GetObj(frame, "message")
      case None => NotUsage
      case Some(message) =>
        if Get(message, "usage").Null? then NotUsage
        else if Get(frame, "session_id") != Str(session) then Bad(ForeignSession)
        else
          var id := Get(message, "id");
          var usage := Get(message, "usage");
          if !id.Str? || id.s == "" || !usage.Obj? then Bad(Unidentified)
          else Payload(id.s, usage.fields)
  }

  ghost function AssistantStep(u: Usage, frame: JObj, session: string): (Usage, Verdict) {
    match AssistantPayload(frame, session)
    case NotUsage => (u, Ignored)
    case Bad(why) => (u, Refused(why))
    case Payload(id, value) => MergeStep(u, id, value)
  }

  // ---- the closing report ----

  predicate CachePresent(value: JObj) {
    "cache_read_input_tokens" in value || "cached_input_tokens" in value || "cache_creation_input_tokens" in value
  }

  predicate SaysNothing(value: JObj) {
    && GetEither(value, "input_tokens", "inputTokens").Null?
    && GetEither(value, "output_tokens", "outputTokens").Null?
    && !CachePresent(value) && !ReasoningPresent(value)
  }

  /** The counters a closing report would leave behind. */
  function Draft(u: Usage, value: JObj, cache: Cache): Usage {
    var source := GetEither(value, "input_tokens", "inputTokens");
    var target := GetEither(value, "output_tokens", "outputTokens");
    var uncached := if source.Int? then Counter(source) else u.uncached;
    var input := NormalizedInput(uncached, cache.total);
    var complete :=
      || u.cacheComplete
      || (cache.total.Some? && CachePresent(value)
          && (u.messages == map[] || (CacheReadField(value).Int? && CacheCreatedField(value).Int?)));
    var output := if target.Int? then Counter(target) else u.output;
    var offered := if ReasoningPresent(value) then OptionalReasoning(ReasoningField(value), output) else u.reasoning;
    Usage(input, output, if complete then cache.total else None, KeepReasoning(offered, output, u.reasoning),
          uncached, cache.read, cache.created, complete, u.messages)
  }

  /** The checks a draft must pass against the counters it would replace. */
  function Objection(u: Usage, draft: Usage, target: Json): Option<Refusal> {
    var effectiveInput := if draft.input.Some? then draft.input else u.input;
    if Overflows(draft.input) then Some(InputOverflow)
    else if draft.cached.Some? && effectiveInput.Some? && draft.cached.value > effectiveInput.value then
      Some(CachedExceedsInput)
    else if Below(draft.input, u.input) || Below(Counter(target), u.output) then Some(Regressed)
    else None
  }

  function ClosingStep(u: Usage, report: Json): (Usage, Verdict) {
    if !report.Obj? || SaysNothing(report.fields) then (u, Ignored)
    else
      var value := report.fields;
      var target := GetEither(value, "output_tokens", "outputTokens");
      if !Measurable(GetEither(value, "input_tokens", "inputTokens")) || !Measurable(target) then
        (u, Refused(MalformedCounters))
      else
        match CacheUpdate(value, u.read, u.created)
        case Err(why) => (u, Refused(why))
        case Ok(cache) =>
          var draft := Draft(u, value, cache);
          match Objection(u, draft, target)
          case Some(why) => (u, Refused(why))
          case None => (draft.(input := if draft.input.Some? then draft.input else u.input), Merged)
  }

  // ---- the meter as the code keeps it ----

  class UsageMeter {
    var input: Option<nat>
    var output: Option<nat>
    var cached: Option<nat>
    var reasoning: Option<nat>
    var uncached: Option<nat>
    var cacheRead: Option<nat>
    var cacheCreated: Option<nat>
    var cacheComplete: bool
    var messages: Messages

    ghost function State(): Usage
      reads this
    {
      Usage(input, output, cached, reasoning, uncached, cacheRead, cacheCreated, cacheComplete, messages)
    }

    constructor ()
      ensures State() == FRESH
    {
      input, output, cached, reasoning := None, None, None, None;
      uncached, cacheRead, cacheCreated := None, None, None;
      cacheComplete, messages := false, map[];
    }

    /** Adds up one dimension, noting whether every message, and whether any, has measured it. */
    static method SumMessages(ms: Messages, d: Dimension) returns (total: nat, all: bool, any: bool)
      ensures total == Total(ms, d)
      ensures all == AllKnown(ms, d)
      ensures any == SomeKnown(ms, d)
    {
      total, all, any := 0, true, false;
      var rest := ms;
      while rest != map[]
        invariant rest.Keys <= ms.Keys && forall k :: k in rest ==> rest[k] == ms[k]
        invariant total + Total(rest, d) == Total(ms, d)
        invariant all == forall k :: k in ms && k !in rest ==> Part(ms[k], d).Some?
        invariant any == exists k :: k in ms && k !in rest && Part(ms[k], d).Some?
        decreases |rest|
      {
        var k :| k in rest;
        TotalRemove(rest, k, d);
        var part := Part(rest[k], d);
        total := total + part.Or(0);
        all := all && part.Some?;
        any := any || part.Some?;
        rest := rest - {k};
      }
    }

    static method StrictTotal(ms: Messages, d: Dimension) returns (r: Option<nat>)
      ensures r == StrictSum(ms, d)
    {
      var total, all, _ := SumMessages(ms, d);
      r := if all then Some(total) else None;
    }

    static method KnownTotal(ms: Messages, d: Dimension) returns (r: Option<nat>)
      ensures r == KnownSum(ms, d)
    {
      var total, _, any := SumMessages(ms, d);
      r := if any then Some(total) else None;
    }

    /** The aggregates of a table, added up dimension by dimension. */
    static method Aggregate(ms: Messages) returns (agg: Usage)
      ensures agg == Aggregated(ms)
    {
      var input := StrictTotal(ms, Input);
      var output := StrictTotal(ms, Output);
      var cached := StrictTotal(ms, Cached);
      var thought := StrictTotal(ms, Reasoning);
      var uncached := StrictTotal(ms, Uncached);
      var read := KnownTotal(ms, CacheRead);
      var created := KnownTotal(ms, CacheCreated);
      var reasoning := if thought.None? || Overflows(thought) || (output.Some? && thought.value > output.value)
                       then None else thought;
      agg := Usage(input, output, cached, reasoning, uncached, read, created, cached.Some?, ms);
    }

    method Store(u: Usage)
      modifies this
      ensures State() == u
    {
      input, output, cached, reasoning := u.input, u.output, u.cached, u.reasoning;
      uncached, cacheRead, cacheCreated := u.uncached, u.read, u.created;
      cacheComplete, messages := u.cacheComplete, u.messages;
    }

    method ObserveAssistant(frame: JObj, session: string) returns (v: Verdict)
      modifies this
      ensures (State(), v) == AssistantStep(old(State()), frame, session)
      ensures v != Merged ==> State() == old(State())
    {
      var delivery := AssistantPayload(frame, session);
      if !delivery.Payload? {
        return if delivery.Bad? then Refused(delivery.why) else Ignored;
      }
      var id := delivery.id;
      var prior := if id in messages then Some(messages[id]) else None;
      var merged := MergeMessage(prior, delivery.value);
      if merged.Err? {
        return Refused(merged.error);
      }
      if merged.value.None? {
        return Ignored;
      }
      if prior.None? && |messages| >= MAX_MESSAGES {
        return Refused(TooManyMessages);
      }
      var next := Aggregate(messages[id := merged.value.value]);
      var objection := TotalsObjection(next);
      if objection.Some? {
        return Refused(objection.value);
      }
      Store(next);
      v := Merged;
    }

    method Observe(report: Json) returns (v: Verdict)
      modifies this
      ensures (State(), v) == ClosingStep(old(State()), report)
      ensures v != Merged ==> State() == old(State())
    {
      if !report.Obj? || SaysNothing(report.fields) {
        return Ignored;
      }
      var value := report.fields;
      var target := GetEither(value, "output_tokens", "outputTokens");
      if !Measurable(GetEither(value, "input_tokens", "inputTokens")) || !Measurable(target) {
        return Refused(MalformedCounters);
      }
      var updated := CacheUpdate(value, cacheRead, cacheCreated);
      if updated.Err? {
        return Refused(updated.error);
      }
      var before := Usage(input, output, cached, reasoning, uncached, cacheRead, cacheCreated, cacheComplete, messages);
      var draft := Draft(before, value, updated.value);
      var objection := Objection(before, draft, target);
      if objection.Some? {
        return Refused(objection.value);
      }
      Store(draft.(input := if draft.input.Some? then draft.input else input));
      v := Merged;
    }
  }

  // ---- sums over the table ----

  lemma {:induction false} TotalRemove(ms: Messages, k: string, d: Dimension)
    requires k in ms
    ensures Total(ms, d) == Part(ms[k], d).Or(0) + Total(ms - {k}, d)
    decreases |ms|
  {
    var j :| j in ms && Total(ms, d) == Part(ms[j], d).Or(0) + Total(ms - {j}, d);
    if j != k {
      TotalRemove(ms - {j}, k, d);
      TotalRemove(ms - {k}, j, d);
      assert ms - {j} - {k} == ms - {k} - {j};
    }
  }

  lemma {:induction false} TotalGrows(ms: Messages, ms2: Messages, d: Dimension)
    requires forall k :: k in ms ==> k in ms2 && Part(ms[k], d).Or(0) <= Part(ms2[k], d).Or(0)
    ensures Total(ms, d) <= Total(ms2, d)
    decreases |ms|
  {
    if ms != map[] {
      var k :| k in ms;
      TotalRemove(ms, k, d);
      TotalRemove(ms2, k, d);
      TotalGrows(ms - {k}, ms2 - {k}, d);
    }
  }

  lemma {:induction false} TotalOfUnknown(ms: Messages, d: Dimension)
    requires !SomeKnown(ms, d)
    ensures Total(ms, d) == 0
    decreases |ms|
  {
    if ms != map[] {
      var k :| k in ms;
      TotalRemove(ms, k, d);
      TotalOfUnknown(ms - {k}, d);
    }
  }

  // ---- conservation ----

  /** Input is uncached plus cache traffic, known exactly when uncached is; cached is the cache traffic. */
  ghost predicate Balanced(
    input: Option<nat>, uncached: Option<nat>, cached: Option<nat>, read: Option<nat>, created: Option<nat>)
  {
    && (input.Some? <==> uncached.Some?)
    && (input.Some? ==> input.value == uncached.value + read.Or(0) + created.Or(0) <= MAX_SIGNED_BIGINT)
    && read.Or(0) + created.Or(0) <= MAX_SIGNED_BIGINT
    && (cached.Some? ==> (read.Some? || created.Some?) && cached.value == read.Or(0) + created.Or(0))
  }

  ghost predicate BalancedMessage(m: Message) {
    && Balanced(m.input, m.uncached, m.cached, m.read, m.created)
    && (m.cached.Some? <==> m.read.Some? || m.created.Some?)
  }

  ghost predicate Conserved(u: Usage) {
    && Balanced(u.input, u.uncached, u.cached, u.read, u.created)
    && u.cacheComplete == u.cached.Some?
    && forall k :: k in u.messages ==> BalancedMessage(u.messages[k])
  }

  lemma MergeBalances(prior: Option<Message>, value: JObj)
    requires prior.Some? ==> BalancedMessage(prior.value)
    ensures MergeMessage(prior, value) != Err(CachedExceedsInput)
    ensures MergeMessage(prior, value) != Err(CachedTotalExceedsInput)
    ensures var r := MergeMessage(prior, value); r.Ok? && r.value.Some? ==> BalancedMessage(r.value.value)
  {
    var before := prior.Or(Message(None, None, None, None, None, None, None));
    assert BalancedMessage(before);
    var c := CacheUpdate(value, before.read, before.created);
  }

  lemma {:induction false} TotalsBalance(ms: Messages)
    requires forall k :: k in ms ==> BalancedMessage(ms[k])
    ensures Total(ms, Cached) == Total(ms, CacheRead) + Total(ms, CacheCreated)
    ensures AllKnown(ms, Input) ==> Total(ms, Input) == Total(ms, Uncached) + Total(ms, Cached)
    decreases |ms|
  {
    if ms != map[] {
      var k :| k in ms;
      forall d { TotalRemove(ms, k, d); }
      TotalsBalance(ms - {k});
      assert BalancedMessage(ms[k]);
      assert AllKnown(ms, Input) ==> AllKnown(ms - {k}, Input) && Part(ms[k], Input).Some?;
    }
  }

  lemma KnownTogether(ms: Messages)
    requires ms != map[] && forall k :: k in ms ==> BalancedMessage(ms[k])
    ensures AllKnown(ms, Input) <==> AllKnown(ms, Uncached)
    ensures AllKnown(ms, Cached) ==> SomeKnown(ms, CacheRead) || SomeKnown(ms, CacheCreated)
  {
    var k :| k in ms;
    assert forall j :: j in ms ==> (Part(ms[j], Input).Some? <==> Part(ms[j], Uncached).Some?);
    if AllKnown(ms, Cached) {
      assert Part(ms[k], Cached).Some? && BalancedMessage(ms[k]);
      assert Part(ms[k], CacheRead).Some? || Part(ms[k], CacheCreated).Some?;
    }
  }

  lemma AggregateBalances(ms: Messages)
    requires ms != map[] && forall k :: k in ms ==> BalancedMessage(ms[k])
    ensures TotalsObjection(Aggregated(ms)) != Some(CachedTotalExceedsInput)
    ensures TotalsObjection(Aggregated(ms)).None? ==> Conserved(Aggregated(ms))
  {
    hide Total, AllKnown, SomeKnown, BalancedMessage, ReasoningSum;
    TotalsBalance(ms);
    KnownTogether(ms);
    if !SomeKnown(ms, CacheRead) { TotalOfUnknown(ms, CacheRead); }
    if !SomeKnown(ms, CacheCreated) { TotalOfUnknown(ms, CacheCreated); }
  }

  datatype Event = Live(frame: JObj, session: string) | Closing(report: Json)

  ghost function Step(u: Usage, e: Event): (Usage, Verdict) {
    match e
    case Live(frame, session) => AssistantStep(u, frame, session)
    case Closing(report) => ClosingStep(u, report)
  }

  ghost function Run(u: Usage, es: seq<Event>): Usage {
    if es == [] then u else Step(Run(u, es[..|es| - 1]), es[|es| - 1]).0
  }

  function Prior(u: Usage, id: string): Option<Message> {
    if id in u.messages then Some(u.messages[id]) else None
  }

  lemma AggregatedTable(ms: Messages)
    ensures Aggregated(ms).messages == ms
  {
  }

  /** A merge leaves the meter alone or re-aggregates the table with the new message in it. */
  lemma MergeStepShape(u: Usage, id: string, value: JObj)
    ensures var (w, v) := MergeStep(u, id, value);
            var merged := MergeMessage(Prior(u, id), value);
      && (v != Merged ==> w == u)
      && (v == Ignored ==> merged == Ok(None))
      && (v == Merged ==> merged.Ok? && merged.value.Some? && w.messages == u.messages[id := merged.value.value]
                          && w == Aggregated(w.messages) && TotalsObjection(w).None?)
      && (v == Refused(CachedExceedsInput) ==> merged == Err(CachedExceedsInput))
      && (v == Refused(CachedTotalExceedsInput) && merged != Err(CachedTotalExceedsInput) ==>
            merged.Ok? && merged.value.Some?
            && TotalsObjection(Aggregated(u.messages[id := merged.value.value])) == Some(CachedTotalExceedsInput))
  {
    hide MergeMessage, Aggregated;
    var merged := MergeMessage(Prior(u, id), value);
    if merged.Ok? && merged.value.Some? {
      AggregatedTable(u.messages[id := merged.value.value]);
    }
  }

  lemma MergeStepConserves(u: Usage, id: string, value: JObj)
    requires Conserved(u)
    ensures Conserved(MergeStep(u, id, value).0)
    ensures var v := MergeStep(u, id, value).1; v != Refused(CachedExceedsInput) && v != Refused(CachedTotalExceedsInput)
  {
    hide MergeMessage, Aggregated, MergeStep, TotalsObjection, Balanced;
    MergeBalances(Prior(u, id), value);
    MergeStepShape(u, id, value);
    var merged := MergeMessage(Prior(u, id), value);
    if merged.Ok? && merged.value.Some? {
      var ms := u.messages[id := merged.value.value];
      assert id in ms;
      AggregateBalances(ms);
    }
  }

  lemma CacheAddsUp(value: JObj, read: Option<nat>, created: Option<nat>)
    requires CacheUpdate(value, read, created).Ok?
    ensures var c := CacheUpdate(value, read, created).value;
      && (c.total.Some? ==> (c.read.Some? || c.created.Some?)
                            && c.total.value == c.read.Or(0) + c.created.Or(0) <= MAX_SIGNED_BIGINT)
      && (c.total.None? ==> c.read.None? && c.created.None? && read.None? && created.None?)
      && (c.read.None? ==> read.None?) && (c.created.None? ==> created.None?)
      && read.Or(0) <= c.read.Or(0) && created.Or(0) <= c.created.Or(0)
  {
    hide CacheReadField, CacheCreatedField;
  }

  lemma DraftConserves(u: Usage, value: JObj, cache: Cache)
    requires Conserved(u) && CacheUpdate(value, u.read, u.created) == Ok(cache)
    requires Measurable(GetEither(value, "input_tokens", "inputTokens"))
    ensures var draft := Draft(u, value, cache);
      && Objection(u, draft, GetEither(value, "output_tokens", "outputTokens")) != Some(CachedExceedsInput)
      && Objection(u, draft, GetEither(value, "output_tokens", "outputTokens")) != Some(CachedTotalExceedsInput)
      && (Objection(u, draft, GetEither(value, "output_tokens", "outputTokens")).None? ==>
            Conserved(draft.(input := if draft.input.Some? then draft.input else u.input)))
  {
    hide CacheUpdate, KeepReasoning, OptionalReasoning, CachePresent, ReasoningPresent, CacheReadField, CacheCreatedField;
    CacheAddsUp(value, u.read, u.created);
  }

  lemma ClosingConserves(u: Usage, report: Json)
    requires Conserved(u)
    ensures Conserved(ClosingStep(u, report).0)
    ensures ClosingStep(u, report).1 != Refused(CachedExceedsInput)
    ensures ClosingStep(u, report).1 != Refused(CachedTotalExceedsInput)
  {
    hide SaysNothing, Draft, Objection, Conserved, CacheUpdate, Measurable;
    if report.Obj? && Measurable(GetEither(report.fields, "input_tokens", "inputTokens")) {
      var updated := CacheUpdate(report.fields, u.read, u.created);
      if updated.Ok? {
        DraftConserves(u, report.fields, updated.value);
      } else {
        CacheErrors(report.fields, u.read, u.created);
      }
    }
  }

  lemma CacheErrors(value: JObj, read: Option<nat>, created: Option<nat>)
    requires CacheUpdate(value, read, created).Err?
    ensures CacheUpdate(value, read, created).error in {MalformedCache, CacheRegressed, CacheOverflow}
  {
    hide CacheReadField, CacheCreatedField;
  }

  lemma StepConserves(u: Usage, e: Event)
    requires Conserved(u)
    ensures Conserved(Step(u, e).0)
    ensures Step(u, e).1 != Refused(CachedExceedsInput) && Step(u, e).1 != Refused(CachedTotalExceedsInput)
  {
    hide MergeStep, ClosingStep, Conserved;
    match e {
      case Live(frame, session) =>
        match AssistantPayload(frame, session) {
          case Payload(id, value) => MergeStepConserves(u, id, value);
          case _ =>
        }
      case Closing(report) => ClosingConserves(u, report);
    }
  }

  /** After any mixture of live and closing reports, accepted or refused, the counters balance. */
  lemma {:induction false} UsageIsConserved(es: seq<Event>)
    ensures Conserved(Run(FRESH, es))
  {
    if es != [] {
      UsageIsConserved(es[..|es| - 1]);
      StepConserves(Run(FRESH, es[..|es| - 1]), es[|es| - 1]);
    }
  }

  /** What conservation says to a reader of the counters. */
  lemma KnownInputIsItsParts(es: seq<Event>)
    ensures var u := Run(FRESH, es);
      && (u.input.Some? <==> u.uncached.Some?)
      && (u.input.Some? ==> u.input.value == u.uncached.value + u.read.Or(0) + u.created.Or(0) <= MAX_SIGNED_BIGINT)
      && (u.input.Some? && u.cached.Some? ==> u.cached.value <= u.input.value)
  {
    UsageIsConserved(es);
  }

  /** The cached-exceeds-input checks of both entry points are unreachable. */
  lemma CachedChecksNeverFire(es: seq<Event>, e: Event)
    ensures var v := Step(Run(FRESH, es), e).1; v != Refused(CachedExceedsInput) && v != Refused(CachedTotalExceedsInput)
  {
    UsageIsConserved(es);
    StepConserves(Run(FRESH, es), e);
  }

  // ---- order independence ----

  /** A whole run of identified reports, stopping at the first refusal as the attempt does. */
  ghost function MergeAll(reports: seq<(string, JObj)>): Result<Usage, Refusal> {
    if reports == [] then Ok(FRESH)
    else
      var last := reports[|reports| - 1];
      match MergeAll(reports[..|reports| - 1])
      case Err(why) => Err(why)
      case Ok(u) =>
        var (next, v) := MergeStep(u, last.0, last.1);
        if v.Refused? then Err(v.why) else Ok(next)
  }

  /** The reports of one message, in their own order. */
  function Own(reports: seq<(string, JObj)>, id: string): seq<JObj> {
    if reports == [] then []
    else
      var last := reports[|reports| - 1];
      Own(reports[..|reports| - 1], id) + if last.0 == id then [last.1] else []
  }

  /** What a message's own reports make of it, on their own. */
  function History(values: seq<JObj>): Option<Message> {
    if values == [] then None
    else
      var before := History(values[..|values| - 1]);
      match MergeMessage(before, values[|values| - 1])
      case Ok(Some(next)) => Some(next)
      case _ => before
  }

  ghost predicate TableIsHistories(u: Usage, reports: seq<(string, JObj)>) {
    && u == (if u.messages == map[] then FRESH else Aggregated(u.messages))
    && forall id :: History(Own(reports, id)) == if id in u.messages then Some(u.messages[id]) else None
  }

  lemma {:induction false} MergedTable(reports: seq<(string, JObj)>)
    requires MergeAll(reports).Ok?
    ensures TableIsHistories(MergeAll(reports).value, reports)
  {
    hide MergeMessage, Aggregated, TotalsObjection, MergeStep;
    if reports != [] {
      var front := reports[..|reports| - 1];
      var (key, value) := reports[|reports| - 1];
      MergedTable(front);
      var u := MergeAll(front).value;
      var w := MergeAll(reports).value;
      MergeStepShape(u, key, value);
      forall id
        ensures History(Own(reports, id)) == if id in w.messages then Some(w.messages[id]) else None
      {
        if id == key {
          assert Own(reports, id)[..|Own(reports, id)| - 1] == Own(front, id);
        } else {
          assert Own(reports, id) == Own(front, id);
        }
      }
    }
  }

  /** Two accepted interleavings that keep each message's own order end in the same meter. */
  lemma MergeIsConfluent(a: seq<(string, JObj)>, b: seq<(string, JObj)>)
    requires forall id :: Own(a, id) == Own(b, id)
    requires MergeAll(a).Ok? && MergeAll(b).Ok?
    ensures MergeAll(a) == MergeAll(b)
  {
    hide MergeMessage, Aggregated, MergeAll, History, Own;
    MergedTable(a);
    MergedTable(b);
    var u, w := MergeAll(a).value, MergeAll(b).value;
    forall id
      ensures (id in u.messages <==> id in w.messages) && (id in u.messages ==> u.messages[id] == w.messages[id])
    {
      assert History(Own(a, id)) == History(Own(b, id));
    }
    assert u.messages == w.messages;
  }

  // ---- readings over time ----

  predicate NotBelow(later: Option<nat>, earlier: Option<nat>) {
    earlier.Some? ==> later.Some? && earlier.value <= later.value
  }

  /** A message only ever gains: what was measured stays measured and does not shrink. */
  ghost predicate MessageGrows(a: Message, b: Message) {
    && NotBelow(b.input, a.input) && NotBelow(b.output, a.output) && NotBelow(b.cached, a.cached)
    && NotBelow(b.read, a.read) && NotBelow(b.created, a.created)
  }

  ghost predicate TableGrows(a: Messages, b: Messages) {
    forall k :: k in a ==> k in b && MessageGrows(a[k], b[k])
  }

  lemma MergeGrows(prior: Message, value: JObj)
    requires BalancedMessage(prior)
    ensures var r := MergeMessage(Some(prior), value); r.Ok? && r.value.Some? ==> MessageGrows(prior, r.value.value)
  {
    var c := CacheUpdate(value, prior.read, prior.created);
    if c.Ok? {
      assert NotBelow(c.value.read, prior.read) && NotBelow(c.value.created, prior.created);
    }
  }

  ghost function RunLive(frames: seq<JObj>, session: string): Usage {
    if frames == [] then FRESH
    else AssistantStep(RunLive(frames[..|frames| - 1], session), frames[|frames| - 1], session).0
  }

  ghost predicate Settled(u: Usage) {
    && Conserved(u)
    && u == if u.messages == map[] then FRESH else Aggregated(u.messages)
  }

  lemma LiveStepGrows(u: Usage, frame: JObj, session: string)
    requires Settled(u)
    ensures var w := AssistantStep(u, frame, session).0; Settled(w) && TableGrows(u.messages, w.messages)
  {
    hide MergeMessage, Aggregated, MergeStep;
    match AssistantPayload(frame, session) {
      case Payload(id, value) =>
        MergeStepConserves(u, id, value);
        MergeStepShape(u, id, value);
        if id in u.messages { MergeGrows(u.messages[id], value); }
      case _ =>
    }
  }

  lemma TableGrowsOn(a: Messages, b: Messages, c: Messages)
    requires TableGrows(a, b) && TableGrows(b, c)
    ensures TableGrows(a, c)
  {
  }

  lemma {:induction false} LiveRunSettled(frames: seq<JObj>, session: string)
    ensures Settled(RunLive(frames, session))
  {
    hide AssistantStep, TableGrows, Settled;
    if frames == [] {
      FreshIsSettled();
    } else {
      LiveRunSettled(frames[..|frames| - 1], session);
      LiveStepGrows(RunLive(frames[..|frames| - 1], session), frames[|frames| - 1], session);
    }
  }

  lemma FreshIsSettled()
    ensures Settled(FRESH)
  {
  }

  lemma {:induction false} LiveRunGrows(frames: seq<JObj>, i: nat, session: string)
    requires i <= |frames|
    ensures Settled(RunLive(frames, session)) && Settled(RunLive(frames[..i], session))
    ensures TableGrows(RunLive(frames[..i], session).messages, RunLive(frames, session).messages)
  {
    hide AssistantStep, Settled, MessageGrows;
    LiveRunSettled(frames, session);
    LiveRunSettled(frames[..i], session);
    if i == |frames| {
      assert frames[..i] == frames;
      TableGrowsItself(RunLive(frames, session).messages);
    } else {
      var front := frames[..|frames| - 1];
      LiveRunGrows(front, i, session);
      assert front[..i] == frames[..i];
      LiveStepGrows(RunLive(front, session), frames[|frames| - 1], session);
      TableGrowsOn(RunLive(frames[..i], session).messages, RunLive(front, session).messages, RunLive(frames, session).messages);
    }
  }

  lemma TableGrowsItself(a: Messages)
    ensures TableGrows(a, a)
  {
  }

  lemma SumsNotBelow(a: Messages, b: Messages)
    requires TableGrows(a, b)
    ensures Total(a, Input) <= Total(b, Input) && Total(a, Output) <= Total(b, Output)
    ensures Total(a, Cached) <= Total(b, Cached)
    ensures Total(a, CacheRead) <= Total(b, CacheRead) && Total(a, CacheCreated) <= Total(b, CacheCreated)
  {
    TotalGrows(a, b, Input);
    TotalGrows(a, b, Output);
    TotalGrows(a, b, Cached);
    TotalGrows(a, b, CacheRead);
    TotalGrows(a, b, CacheCreated);
  }

  lemma SettledReadings(u: Usage)
    requires Settled(u)
    ensures u.input.Some? ==> u.input.value == Total(u.messages, Input)
    ensures u.output.Some? ==> u.output.value == Total(u.messages, Output)
    ensures u.cached.Some? ==> u.cached.value == Total(u.messages, Cached)
    ensures u.read.Or(0) == Total(u.messages, CacheRead) && u.created.Or(0) == Total(u.messages, CacheCreated)
  {
    if !SomeKnown(u.messages, CacheRead) { TotalOfUnknown(u.messages, CacheRead); }
    if !SomeKnown(u.messages, CacheCreated) { TotalOfUnknown(u.messages, CacheCreated); }
  }

  /** Two known live readings of a counter never go down, even across unmeasured stretches between them. */
  lemma LiveReadingsNeverFall(frames: seq<JObj>, i: nat, session: string)
    requires i <= |frames|
    ensures var u := RunLive(frames[..i], session);
            var w := RunLive(frames, session);
            !Below(w.input, u.input) && !Below(w.output, u.output) && !Below(w.cached, u.cached)
  {
    hide RunLive, Settled;
    LiveRunGrows(frames, i, session);
    SumsNotBelow(RunLive(frames[..i], session).messages, RunLive(frames, session).messages);
    SettledReadings(RunLive(frames[..i], session));
    SettledReadings(RunLive(frames, session));
  }

  /** The closing report never lowers the cached reading. */
  lemma ClosingKeepsCached(frames: seq<JObj>, i: nat, session: string, report: Json)
    requires i <= |frames|
    ensures !Below(ClosingStep(RunLive(frames, session), report).0.cached, RunLive(frames[..i], session).cached)
  {
    hide RunLive, ClosingStep;
    LiveReadingsNeverFall(frames, i, session);
    CacheTrafficNotBelow(frames, i, session);
    LiveRunGrows(frames, i, session);
    ClosingCachedFloor(RunLive(frames, session), report);
  }

  lemma ClosingCachedFloor(u: Usage, report: Json)
    requires Conserved(u)
    ensures var w := ClosingStep(u, report).0;
      w.cached.Some? ==> w.cached.value >= u.read.Or(0) + u.created.Or(0)
  {
    hide SaysNothing, KeepReasoning, OptionalReasoning, CachePresent;
  }

  lemma CacheTrafficNotBelow(frames: seq<JObj>, i: nat, session: string)
    requires i <= |frames|
    ensures var u := RunLive(frames[..i], session);
            var w := RunLive(frames, session);
            u.cached.Some? ==> u.cached.value <= w.read.Or(0) + w.created.Or(0)
  {
    hide RunLive;
    LiveRunGrows(frames, i, session);
    var u, w := RunLive(frames[..i], session), RunLive(frames, session);
    SumsNotBelow(u.messages, w.messages);
    SettledReadings(u);
    SettledReadings(w);
    TotalsBalance(u.messages);
  }

  /**
   The closing report is compared only with a reading that is known at that moment. So it keeps an
   earlier reading `peak` of the input, whatever it says, if and only if the input is known when it
   arrives or the retained cache traffic alone reaches `peak`.
   */
  lemma ClosingKeepsInputIff(frames: seq<JObj>, i: nat, session: string, peak: nat)
    requires i <= |frames| && RunLive(frames[..i], session).input == Some(peak)
    ensures var u := RunLive(frames, session);
      (forall report :: !Below(ClosingStep(u, report).0.input, Some(peak)))
      <==> u.input.Some? || peak <= u.read.Or(0) + u.created.Or(0)
  {
    hide ClosingStep, AssistantStep;
    LiveReadingsNeverFall(frames, i, session);
    LiveRunGrows(frames, i, session);
    var u := RunLive(frames, session);
    if u.input.Some? || peak <= u.read.Or(0) + u.created.Or(0) {
      forall report ensures !Below(ClosingStep(u, report).0.input, Some(peak)) {
        ClosingInputFloor(u, report);
      }
    } else {
      ClosingWithZeroInput(u);
      assert Below(ClosingStep(u, ZERO_INPUT).0.input, Some(peak));
    }
  }

  const ZERO_INPUT := Obj(map["input_tokens" := Int(0)])

  lemma ClosingInputFloor(u: Usage, report: Json)
    requires Conserved(u)
    ensures var w := ClosingStep(u, report).0;
      !Below(w.input, u.input) && (w.input.Some? ==> u.read.Or(0) + u.created.Or(0) <= w.input.value)
  {
  }

  lemma ClosingWithZeroInput(u: Usage)
    requires Conserved(u) && u.input.None?
    ensures ClosingStep(u, ZERO_INPUT).1 == Merged
    ensures ClosingStep(u, ZERO_INPUT).0.input == Some(u.read.Or(0) + u.created.Or(0))
  {
  }

  /** The same for the output, which has no floor but the reading known on arrival. */
  lemma ClosingKeepsOutputIff(frames: seq<JObj>, i: nat, session: string, peak: nat)
    requires i <= |frames| && RunLive(frames[..i], session).output == Some(peak)
    ensures var u := RunLive(frames, session);
      (forall report :: !Below(ClosingStep(u, report).0.output, Some(peak))) <==> u.output.Some? || peak == 0
  {
    hide ClosingStep, AssistantStep;
    LiveReadingsNeverFall(frames, i, session);
    LiveRunGrows(frames, i, session);
    var u := RunLive(frames, session);
    if u.output.Some? || peak == 0 {
      forall report ensures !Below(ClosingStep(u, report).0.output, Some(peak)) {
        ClosingOutputFloor(u, report);
      }
    } else {
      ClosingWithZeroOutput(u);
      assert Below(ClosingStep(u, ZERO_OUTPUT).0.output, Some(peak));
    }
  }

  const ZERO_OUTPUT := Obj(map["output_tokens" := Int(0)])

  lemma ClosingOutputFloor(u: Usage, report: Json)
    requires Conserved(u)
    ensures !Below(ClosingStep(u, report).0.output, u.output)
  {
    hide Conserved, CacheUpdate, SaysNothing;
  }

  lemma ClosingWithZeroOutput(u: Usage)
    requires Conserved(u) && u.output.None?
    ensures ClosingStep(u, ZERO_OUTPUT).1 == Merged && ClosingStep(u, ZERO_OUTPUT).0.output == Some(0)
  {
  }

  /** Reading 100 input tokens, then a message without an input count, then a closing report of 0. */
  lemma ClosingCanLowerInput(session: string)
    ensures var frames := [Report(session, "a", "input_tokens", 100), Report(session, "b", "output_tokens", 1)];
      && RunLive(frames[..1], session).input == Some(100)
      && ClosingStep(RunLive(frames, session), ZERO_INPUT).0.input == Some(0)
  {
    hide ClosingStep, MergeMessage, Aggregated, MergeStep, RunLive, AssistantStep;
    var first, second := Report(session, "a", "input_tokens", 100), Report(session, "b", "output_tokens", 1);
    var frames := [first, second];
    var one: Messages := map["a" := Message(Some(100), None, None, None, Some(100), None, None)];
    var two := one["b" := Message(None, Some(1), None, None, None, None, None)];
    SmallAggregates(one, two);
    SmallRun(session, one, two);
    assert frames[..1] == [first];
    LiveRunSettled(frames, session);
    ClosingWithZeroInput(Aggregated(two));
  }

  lemma SmallRun(session: string, one: Messages, two: Messages)
    requires one == map["a" := Message(Some(100), None, None, None, Some(100), None, None)]
    requires two == one["b" := Message(None, Some(1), None, None, None, None, None)]
    ensures var first := Report(session, "a", "input_tokens", 100);
      && RunLive([first], session) == Aggregated(one)
      && RunLive([first, Report(session, "b", "output_tokens", 1)], session) == Aggregated(two)
  {
    hide MergeMessage, Aggregated;
    var first, second := Report(session, "a", "input_tokens", 100), Report(session, "b", "output_tokens", 1);
    FirstReport("input_tokens", 100);
    FirstReport("output_tokens", 1);
    SmallAggregates(one, two);
    AggregatedTable(one);
    assert AssistantPayload(first, session) == Payload("a", map["input_tokens" := Int(100)]);
    assert AssistantPayload(second, session) == Payload("b", map["output_tokens" := Int(1)]);
    assert [first, second][..1] == [first] && [first][..0] == [];
    assert RunLive([], session) == FRESH;
  }

  lemma FirstReport(counter: string, n: int)
    requires (counter == "input_tokens" && n == 100) || (counter == "output_tokens" && n == 1)
    ensures MergeMessage(None, map[counter := Int(n)]) == Ok(Some(
      if n == 100 then Message(Some(100), None, None, None, Some(100), None, None)
      else Message(None, Some(1), None, None, None, None, None)))
  {
  }

  lemma SmallAggregates(one: Messages, two: Messages)
    requires one == map["a" := Message(Some(100), None, None, None, Some(100), None, None)]
    requires two == one["b" := Message(None, Some(1), None, None, None, None, None)]
    ensures Aggregated(one).input == Some(100) && TotalsObjection(Aggregated(one)).None?
    ensures Aggregated(two).input.None? && Aggregated(two).read.None? && Aggregated(two).created.None?
    ensures TotalsObjection(Aggregated(two)).None?
  {
    assert one - {"a"} == map[] && two - {"b"} == one;
    forall d: Dimension ensures Total(one, d) == Part(one["a"], d).Or(0) {
      TotalRemove(one, "a", d);
    }
    assert "b" in two && Part(two["b"], Input).None?;
    assert "a" in two && Part(two["a"], Output).None? && Part(two["a"], Cached).None?;
    assert forall k :: k in two ==> Part(two[k], CacheRead).None? && Part(two[k], CacheCreated).None?;
  }

  /** An assistant frame that reports one counter of one message. */
  function Report(session: string, id: string, counter: string, n: int): JObj {
    map["type" := Str("assistant"), "session_id" := Str(session),
        "message" := Obj(map["id" := Str(id), "usage" := Obj(map[counter := Int(n)])])]
  }

  // ---- replays ----

  lemma CacheRepeats(value: JObj, read: Option<nat>, created: Option<nat>)
    requires CacheUpdate(value, read, created).Ok?
    ensures var c := CacheUpdate(value, read, created).value; CacheUpdate(value, c.read, c.created) == Ok(c)
  {
    hide CacheReadField, CacheCreatedField;
  }

  /** Repeating a report leaves every counter of its message but reasoning alone. */
  lemma RepeatedReport(prior: Option<Message>, value: JObj)
    requires prior.Some? ==> BalancedMessage(prior.value)
    requires MergeMessage(prior, value).Ok? && MergeMessage(prior, value).value.Some?
    ensures var next := MergeMessage(prior, value).value.value;
            var again := MergeMessage(Some(next), value);
            again.Ok? && (again.value.Some? ==> again.value.value.(reasoning := next.reasoning) == next)
  {
    hide CacheUpdate, OptionalReasoning, KeepReasoning, ReasoningPresent;
    var before := prior.Or(Message(None, None, None, None, None, None, None));
    CacheRepeats(value, before.read, before.created);
  }

  /** Tables that differ in reasoning only have the same aggregates but reasoning. */
  lemma SameButReasoning(a: Messages, b: Messages)
    requires a.Keys == b.Keys
    requires forall k :: k in a ==> a[k] == b[k].(reasoning := a[k].reasoning)
    ensures Aggregated(b) == Aggregated(a).(reasoning := Aggregated(b).reasoning, messages := b)
  {
    forall d: Dimension | d != Reasoning
      ensures StrictSum(a, d) == StrictSum(b, d) && KnownSum(a, d) == KnownSum(b, d)
    {
      assert forall k :: k in a ==> Part(a[k], d) == Part(b[k], d);
      TotalGrows(a, b, d);
      TotalGrows(b, a, d);
      assert AllKnown(a, d) == AllKnown(b, d) && SomeKnown(a, d) == SomeKnown(b, d);
    }
  }

  /** Delivering an accepted report twice changes neither input, output nor cached, and is never refused. */
  lemma ReplayKeepsCounters(u: Usage, id: string, value: JObj)
    requires Settled(u) && MergeStep(u, id, value).1 == Merged
    ensures var w := MergeStep(u, id, value).0;
            var (x, v) := MergeStep(w, id, value);
            !v.Refused? && x.input == w.input && x.output == w.output && x.cached == w.cached
  {
    hide MergeMessage, Aggregated;
    var prior := if id in u.messages then Some(u.messages[id]) else None;
    RepeatedReport(prior, value);
    var next := MergeMessage(prior, value).value.value;
    var ms := u.messages[id := next];
    AggregatedTable(ms);
    var again := MergeMessage(Some(next), value);
    if again.value.Some? {
      SameButReasoning(ms, ms[id := again.value.value]);
    }
  }

  /** Why reasoning is excepted: a regressing count is forgotten, and its repetition then stands. */
  lemma ReasoningCanReappear()
    ensures var prior := Message(None, Some(20), None, Some(10), None, None, None);
            var value: JObj := map["thinking_tokens" := Int(5)];
      && MergeMessage(Some(prior), value) == Ok(Some(prior.(reasoning := None)))
      && MergeMessage(Some(prior.(reasoning := None)), value) == Ok(Some(prior.(reasoning := Some(5))))
  {
  }
}
