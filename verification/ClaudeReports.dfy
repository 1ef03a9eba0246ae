/**
 What usage reports leave in the meter, read off the keys the provider writes: the counters of one message,
 the sums over messages, and the closing report.
 */
module ClaudeReports {
  import opened Prelude
  import opened ClaudeUsage

  /** The largest signed 64-bit number. */
  const LARGEST: nat := 9223372036854775807

  /** The counts of one report; a missing part is `None`. */
  datatype Said = Said(
    input: Option<nat>, output: Option<nat>, read: Option<nat>, created: Option<nat>, thought: Option<nat>)

  predicate Holds(value: JObj, key: string, n: Option<nat>) {
    Get(value, key) == if n.Some? then Int(n.value) else Null
  }

  /** Cache traffic and thinking have two spellings each; the second is read only where the first is missing. */
  predicate SaysRest(value: JObj, said: Said) {
    && Holds(value, if "cache_read_input_tokens" in value then "cache_read_input_tokens" else "cached_input_tokens", said.read)
    && Holds(value, "cache_creation_input_tokens", said.created)
    && Holds(value, if "thinking_tokens" in value then "thinking_tokens" else "reasoning_output_tokens", said.thought)
    && (said.thought.None? ==> "thinking_tokens" !in value && "reasoning_output_tokens" !in value)
  }

  predicate Says(value: JObj, said: Said) {
    Holds(value, "input_tokens", said.input) && Holds(value, "output_tokens", said.output) && SaysRest(value, said)
  }

  predicate InRange(said: Said) {
    && said.input.Or(0) <= LARGEST && said.output.Or(0) <= LARGEST
    && said.read.Or(0) + said.created.Or(0) <= LARGEST && said.thought.Or(0) <= LARGEST
  }

  function Newer(now: Option<nat>, before: Option<nat>): Option<nat> {
    if now.Some? then now else before
  }

  /** A part of the cache traffic: one that is reported alone makes the other zero. */
  function CachePart(now: Option<nat>, other: Option<nat>, before: Option<nat>): Option<nat> {
    if now.Some? then now else if other.Some? then Some(before.Or(0)) else before
  }

  function Both(read: Option<nat>, created: Option<nat>): Option<nat> {
    if read.None? && created.None? then None else Some(read.Or(0) + created.Or(0))
  }

  function WithCache(uncached: Option<nat>, cached: Option<nat>): Option<nat> {
    if uncached.None? then None else Some(uncached.value + cached.Or(0))
  }

  /** A thinking count stands unless it is above the output or below an earlier one. */
  function Thought(now: Option<nat>, output: Option<nat>, before: Option<nat>): Option<nat> {
    var offered := Newer(now, before);
    if offered.None? || (output.Some? && offered.value > output.value) || (before.Some? && offered.value < before.value)
    then None else offered
  }

  const UNHEARD := Message(None, None, None, None, None, None, None)

  /** The message a report leaves: what it says, and for the rest what was known. */
  function After(m: Message, said: Said): Message {
    var read := CachePart(said.read, said.created, m.read);
    var created := CachePart(said.created, said.read, m.created);
    var cached, uncached, output := Both(read, created), Newer(said.input, m.uncached), Newer(said.output, m.output);
    Message(WithCache(uncached, cached), output, cached, Thought(said.thought, output, m.reasoning), uncached, read, created)
  }

  predicate NotBelow(now: Option<nat>, before: Option<nat>) {
    before.Some? && now.Some? ==> before.value <= now.value
  }

  /** The report lowers no counter of the message, and the counters stay within 63 bits. */
  predicate Raises(m: Message, next: Message) {
    && NotBelow(next.input, m.input) && NotBelow(next.output, m.output)
    && NotBelow(next.read, m.read) && NotBelow(next.created, m.created)
    && next.input.Or(0) <= LARGEST && next.cached.Or(0) <= LARGEST
  }

  predicate SomethingKnown(m: Message) {
    m.input.Some? || m.output.Some? || m.cached.Some? || m.reasoning.Some?
  }

  lemma CacheFieldsAre(value: JObj, said: Said)
    requires SaysRest(value, said)
    ensures CacheReadField(value) == (if said.read.Some? then Int(said.read.value) else Null)
    ensures CacheCreatedField(value) == (if said.created.Some? then Int(said.created.value) else Null)
  {
  }

  lemma CacheIs(value: JObj, said: Said, read: Option<nat>, created: Option<nat>)
    requires SaysRest(value, said) && InRange(said)
    ensures var r, c := CachePart(said.read, said.created, read), CachePart(said.created, said.read, created);
      && (CacheUpdate(value, read, created).Ok? <==>
            NotBelow(r, read) && NotBelow(c, created) && Both(r, c).Or(0) <= LARGEST)
      && (CacheUpdate(value, read, created).Ok? ==> CacheUpdate(value, read, created).value == Cache(r, c, Both(r, c)))
  {
    hide SaysRest, CacheReadField, CacheCreatedField;
    CacheFieldsAre(value, said);
  }

  lemma ThoughtIs(value: JObj, said: Said, output: Option<nat>, before: Option<nat>)
    requires SaysRest(value, said) && InRange(said)
    ensures var offered := if ReasoningPresent(value) then OptionalReasoning(ReasoningField(value), output) else before;
      KeepReasoning(offered, output, before) == Thought(said.thought, output, before)
  {
  }

  /**
   One message: a report that lowers nothing leaves exactly what it says and, for the rest, what was known;
   one that lowers something, or leaves the range, is refused.
   */
  lemma MessageIs(prior: Option<Message>, value: JObj, said: Said)
    requires Says(value, said) && InRange(said)
    ensures var m := prior.Or(UNHEARD);
      && var next := After(m, said);
      && (MergeMessage(prior, value).Ok? <==> Raises(m, next))
      && var news := if SomethingKnown(next) && prior != Some(next) then Some(next) else None;
      && (Raises(m, next) ==> MergeMessage(prior, value).value == news)
  {
    hide CacheUpdate, ReasoningPresent, OptionalReasoning, KeepReasoning, ReasoningField, SaysRest, Thought, CachePart;
    var m := prior.Or(UNHEARD);
    CacheIs(value, said, m.read, m.created);
    ThoughtIs(value, said, After(m, said).output, m.reasoning);
  }

  // ---- one live report ----

  /** The frame of an assistant report, with whatever else it carries. */
  function ReportFrame(session: string, id: string, value: JObj, rest: JObj): JObj {
    rest + map["type" := Str("assistant"), "session_id" := Str(session),
               "message" := Obj(map["id" := Str(id), "usage" := Obj(value)])]
  }

  lemma FrameIsPayload(session: string, id: string, value: JObj, rest: JObj)
    requires id != ""
    ensures AssistantPayload(ReportFrame(session, id, value, rest), session) == Payload(id, value)
  {
  }

  /** The sums over the table fit 63 bits. */
  ghost predicate Fits(ms: Messages) {
    && Total(ms, Input) <= LARGEST && Total(ms, Output) <= LARGEST
    && Total(ms, Uncached) <= LARGEST
    && Total(ms, CacheRead) + Total(ms, CacheCreated) <= LARGEST
  }

  /** A counter of the meter: the sum over all messages, known when every one of them knows it. */
  ghost predicate IsSum(reading: Option<nat>, ms: Messages, d: Dimension) {
    reading == if forall k :: k in ms ==> Part(ms[k], d).Some? then Some(Total(ms, d)) else None
  }

  ghost predicate Sums(u: Usage) {
    IsSum(u.input, u.messages, Input) && IsSum(u.output, u.messages, Output) && IsSum(u.cached, u.messages, Cached)
  }

  lemma StepPuts(u: Usage, id: string, value: JObj, next: Message)
    requires MergeMessage(Prior(u, id), value) == Ok(Some(next)) && (id in u.messages || |u.messages| < 1024)
    requires TotalsObjection(Aggregated(u.messages[id := next])).None?
    ensures MergeStep(u, id, value) == (Aggregated(u.messages[id := next]), Merged)
  {
    hide MergeMessage, Aggregated, TotalsObjection;
  }

  /**
   In any state a live report that lowers nothing and leaves room for the sums puts its message into the
   table, and the meter then reads the sums over the table.
   */
  lemma LiveReportIs(u: Usage, session: string, id: string, value: JObj, said: Said, rest: JObj)
    requires Conserved(u) && id != "" && Says(value, said) && InRange(said)
    requires id in u.messages || |u.messages| < 1024
    requires var m := Prior(u, id).Or(UNHEARD); Raises(m, After(m, said)) && SomethingKnown(After(m, said))
    requires Prior(u, id) != Some(After(Prior(u, id).Or(UNHEARD), said))
    requires Fits(u.messages[id := After(Prior(u, id).Or(UNHEARD), said)])
    ensures var (w, v) := AssistantStep(u, ReportFrame(session, id, value, rest), session);
      && v == Merged && Sums(w) && Conserved(w)
      && w.messages == u.messages[id := After(Prior(u, id).Or(UNHEARD), said)]
  {
    hide MergeMessage, Aggregated, TotalsObjection, After, Raises, Balanced, Total, Says, IsSum, Fits, SomethingKnown, MergeStep;
    FrameIsPayload(session, id, value, rest);
    MessageIs(Prior(u, id), value, said);
    var next := After(Prior(u, id).Or(UNHEARD), said);
    var ms := u.messages[id := next];
    MergeBalances(Prior(u, id), value);
    assert id in ms;
    AggregateBalances(ms);
    NothingObjected(ms);
    AggregatesAreSums(ms);
    AggregatedTable(ms);
    StepPuts(u, id, value, next);
  }

  lemma NothingObjected(ms: Messages)
    requires Fits(ms) && TotalsObjection(Aggregated(ms)) != Some(CachedTotalExceedsInput)
    requires forall k :: k in ms ==> BalancedMessage(ms[k])
    ensures TotalsObjection(Aggregated(ms)).None?
  {
    hide Total, BalancedMessage, ReasoningSum, AllKnown, SomeKnown;
    TotalsBalance(ms);
  }

  lemma AggregatesAreSums(ms: Messages)
    ensures Sums(Aggregated(ms))
  {
    hide Total, ReasoningSum, KnownSum;
  }

  // ---- a run of first reports ----

  datatype Filed = Filed(id: string, said: Said, value: JObj, rest: JObj)

  function Frames(session: string, reports: seq<Filed>): seq<JObj> {
    seq(|reports|, i requires 0 <= i < |reports| => ReportFrame(session, reports[i].id, reports[i].value, reports[i].rest))
  }

  function Add(reports: seq<Filed>, f: Said -> nat): nat {
    if reports == [] then 0 else Add(reports[..|reports| - 1], f) + f(reports[|reports| - 1].said)
  }

  function InputOf(said: Said): nat {
    if said.input.None? then 0 else said.input.value + said.read.Or(0) + said.created.Or(0)
  }

  function CachedOf(said: Said): nat {
    said.read.Or(0) + said.created.Or(0)
  }

  function OutputOf(said: Said): nat {
    said.output.Or(0)
  }

  /** Each report is of a message of its own, in range, and says something. */
  ghost predicate Distinct(reports: seq<Filed>) {
    && |reports| <= 1024
    && (forall i :: 0 <= i < |reports| ==> Proper(reports[i]))
    && forall i, j :: 0 <= i < j < |reports| ==> reports[i].id != reports[j].id
  }

  ghost predicate Proper(r: Filed) {
    && r.id != "" && Says(r.value, r.said) && InRange(r.said) && InputOf(r.said) <= LARGEST
    && SomethingKnown(After(UNHEARD, r.said))
  }

  /** The table holds each report's message and nothing else. */
  ghost predicate TableIs(ms: Messages, reports: seq<Filed>) {
    && |ms| == |reports|
    && (forall i :: 0 <= i < |reports| ==> reports[i].id in ms && ms[reports[i].id] == After(UNHEARD, reports[i].said))
    && forall k :: k in ms ==> exists i :: 0 <= i < |reports| && reports[i].id == k
  }

  lemma FirstMessage(said: Said)
    ensures var m := After(UNHEARD, said);
      && m.input.Or(0) == InputOf(said) && m.output.Or(0) == OutputOf(said) && m.cached.Or(0) == CachedOf(said)
      && m.uncached.Or(0) == said.input.Or(0) && m.read.Or(0) + m.created.Or(0) == CachedOf(said)
      && (m.input.Some? <==> said.input.Some?) && (m.output.Some? <==> said.output.Some?)
      && (m.cached.Some? <==> said.read.Some? || said.created.Some?)
  {
  }

  lemma FirstRaises(said: Said)
    requires InRange(said) && InputOf(said) <= LARGEST
    ensures Raises(UNHEARD, After(UNHEARD, said))
  {
  }

  /** One more message adds its counts. */
  lemma TotalAdd(ms: Messages, id: string, m: Message, d: Dimension)
    requires id !in ms
    ensures Total(ms[id := m], d) == Total(ms, d) + Part(m, d).Or(0)
  {
    TotalRemove(ms[id := m], id, d);
    assert ms[id := m] - {id} == ms;
  }

  /** What the totals over the table of such a run are. */
  ghost predicate TotalsAre(ms: Messages, reports: seq<Filed>) {
    && Total(ms, Input) == Add(reports, InputOf)
    && Total(ms, Output) == Add(reports, OutputOf)
    && Total(ms, Cached) == Add(reports, CachedOf)
    && Total(ms, CacheRead) + Total(ms, CacheCreated) == Add(reports, CachedOf)
    && Total(ms, Uncached) == Add(reports, (said: Said) => said.input.Or(0))
  }

  lemma TotalsAddUp(ms: Messages, reports: seq<Filed>, r: Filed)
    requires TotalsAre(ms, reports) && r.id !in ms
    ensures TotalsAre(ms[r.id := After(UNHEARD, r.said)], reports + [r])
  {
    hide Total, After;
    var more := reports + [r];
    assert more[..|more| - 1] == reports;
    FirstMessage(r.said);
    forall d { TotalAdd(ms, r.id, After(UNHEARD, r.said), d); }
  }

  lemma TableAddUp(ms: Messages, reports: seq<Filed>, r: Filed)
    requires TableIs(ms, reports) && r.id !in ms
    ensures TableIs(ms[r.id := After(UNHEARD, r.said)], reports + [r])
  {
    hide After;
    var more, next := reports + [r], ms[r.id := After(UNHEARD, r.said)];
    forall k | k in next ensures exists i :: 0 <= i < |more| && more[i].id == k {
      if k == r.id {
        assert more[|reports|].id == k;
      } else {
        var i :| 0 <= i < |reports| && reports[i].id == k;
        assert more[i].id == k;
      }
    }
  }

  lemma {:induction false} AddGrows(reports: seq<Filed>, n: nat, f: Said -> nat)
    requires n <= |reports|
    ensures Add(reports[..n], f) <= Add(reports, f)
    decreases |reports|
  {
    if n < |reports| {
      AddGrows(reports[..|reports| - 1], n, f);
      assert reports[..|reports| - 1][..n] == reports[..n];
    } else {
      assert reports[..n] == reports;
    }
  }

  lemma {:induction false} UncachedIsLess(reports: seq<Filed>)
    ensures Add(reports, (said: Said) => said.input.Or(0)) <= Add(reports, InputOf)
  {
    if reports != [] { UncachedIsLess(reports[..|reports| - 1]); }
  }

  lemma {:induction false} TableOfRun(session: string, reports: seq<Filed>)
    requires Distinct(reports)
    requires Add(reports, InputOf) <= LARGEST && Add(reports, OutputOf) <= LARGEST
    requires Add(reports, CachedOf) <= LARGEST
    ensures var u := RunLive(Frames(session, reports), session);
      && Conserved(u) && (reports != [] ==> Sums(u))
      && TableIs(u.messages, reports) && TotalsAre(u.messages, reports)
  {
    hide Conserved, Sums, After, Total, Says, InRange, AssistantStep, TableIs, TotalsAre, Proper;
    if reports == [] {
      NothingReported(session);
    } else {
      var n := |reports| - 1;
      var front, r := reports[..n], reports[n];
      AddGrows(reports, n, InputOf);
      AddGrows(reports, n, OutputOf);
      AddGrows(reports, n, CachedOf);
      TableOfRun(session, front);
      var frames := Frames(session, reports);
      assert frames[..n] == Frames(session, front);
      var u := RunLive(frames[..n], session);
      NewId(u.messages, reports);
      NextReport(u, session, reports);
      TotalsAddUp(u.messages, front, r);
      TableAddUp(u.messages, front, r);
      assert front + [r] == reports;
    }
  }

  lemma NothingReported(session: string)
    ensures var u := RunLive(Frames(session, []), session);
      Conserved(u) && TableIs(u.messages, []) && TotalsAre(u.messages, [])
  {
  }

  lemma NewId(ms: Messages, reports: seq<Filed>)
    requires reports != [] && Distinct(reports) && TableIs(ms, reports[..|reports| - 1])
    ensures reports[|reports| - 1].id !in ms
  {
    var n := |reports| - 1;
    forall i | 0 <= i < n ensures reports[..n][i].id != reports[n].id {}
  }

  lemma TotalsFit(ms: Messages, reports: seq<Filed>)
    requires TotalsAre(ms, reports)
    requires Add(reports, InputOf) <= LARGEST && Add(reports, OutputOf) <= LARGEST
    requires Add(reports, CachedOf) <= LARGEST
    ensures Fits(ms)
  {
    hide Total;
    UncachedIsLess(reports);
  }

  lemma NotFull(ms: Messages, reports: seq<Filed>)
    requires reports != [] && |reports| <= 1024 && TableIs(ms, reports[..|reports| - 1])
    ensures |ms| < 1024
  {
  }

  lemma NextReport(u: Usage, session: string, reports: seq<Filed>)
    requires reports != [] && Distinct(reports) && Conserved(u)
    requires var front := reports[..|reports| - 1]; TableIs(u.messages, front) && TotalsAre(u.messages, front)
    requires reports[|reports| - 1].id !in u.messages
    requires Add(reports, InputOf) <= LARGEST && Add(reports, OutputOf) <= LARGEST
    requires Add(reports, CachedOf) <= LARGEST
    ensures var r := reports[|reports| - 1];
      && var (w, v) := AssistantStep(u, ReportFrame(session, r.id, r.value, r.rest), session);
      && v == Merged && Conserved(w) && Sums(w)
      && w.messages == u.messages[r.id := After(UNHEARD, r.said)]
  {
    hide Conserved, Sums, After, Total, Says, InRange, AssistantStep, Raises, SomethingKnown, Fits, TotalsAre;
    var front, r := reports[..|reports| - 1], reports[|reports| - 1];
    assert front + [r] == reports;
    assert Proper(r);
    TotalsAddUp(u.messages, front, r);
    TotalsFit(u.messages[r.id := After(UNHEARD, r.said)], reports);
    NotFull(u.messages, reports);
    FirstRaises(r.said);
    LiveReportIs(u, session, r.id, r.value, r.said, r.rest);
  }

  /**
   After a run of first reports, one for each of its messages, the meter reads the sums over the reports:
   input with all its cache traffic, output, and cached; each is known when every report says its part.
   */
  lemma ReadingsAreSums(session: string, reports: seq<Filed>)
    requires reports != [] && Distinct(reports)
    requires Add(reports, InputOf) <= LARGEST && Add(reports, OutputOf) <= LARGEST
    requires Add(reports, CachedOf) <= LARGEST
    ensures var u := RunLive(Frames(session, reports), session);
      && (u.input == if forall r :: r in reports ==> r.said.input.Some? then Some(Add(reports, InputOf)) else None)
      && (u.output == if forall r :: r in reports ==> r.said.output.Some? then Some(Add(reports, OutputOf)) else None)
      && (u.cached == if forall r :: r in reports ==> r.said.read.Some? || r.said.created.Some?
                      then Some(Add(reports, CachedOf)) else None)
  {
    hide Total, After, Distinct, RunLive, Conserved;
    TableOfRun(session, reports);
    var ms := RunLive(Frames(session, reports), session).messages;
    KnownIff(ms, reports);
  }

  lemma KnownIff(ms: Messages, reports: seq<Filed>)
    requires TableIs(ms, reports)
    ensures (forall k :: k in ms ==> Part(ms[k], Input).Some?) <==> forall r :: r in reports ==> r.said.input.Some?
    ensures (forall k :: k in ms ==> Part(ms[k], Output).Some?) <==> forall r :: r in reports ==> r.said.output.Some?
    ensures (forall k :: k in ms ==> Part(ms[k], Cached).Some?)
      <==> forall r :: r in reports ==> r.said.read.Some? || r.said.created.Some?
  {
    hide After;
    forall r | r in reports ensures r.id in ms && ms[r.id] == After(UNHEARD, r.said) {
      var i :| 0 <= i < |reports| && reports[i] == r;
    }
    forall said { FirstMessage(said); }
    forall k | k in ms ensures exists r :: r in reports && r.id == k {
      var i :| 0 <= i < |reports| && reports[i].id == k;
      assert reports[i] in reports;
    }
  }

  // ---- the closing report ----

  /** The closing report also spells its two counters in camel case. */
  predicate SaysAtClose(value: JObj, said: Said) {
    && Holds(value, if "input_tokens" in value then "input_tokens" else "inputTokens", said.input)
    && Holds(value, if "output_tokens" in value then "output_tokens" else "outputTokens", said.output)
    && SaysRest(value, said)
  }

  predicate NamesCache(value: JObj) {
    "cache_read_input_tokens" in value || "cached_input_tokens" in value || "cache_creation_input_tokens" in value
  }

  /** The meter a closing report leaves: cached is known when it was, or when the report settles all of it. */
  function AtClose(u: Usage, value: JObj, said: Said): Usage {
    var read, created := CachePart(said.read, said.created, u.read), CachePart(said.created, said.read, u.created);
    var cached, uncached, output := Both(read, created), Newer(said.input, u.uncached), Newer(said.output, u.output);
    var settled :=
      || u.cacheComplete
      || (cached.Some? && NamesCache(value) && (u.messages == map[] || (said.read.Some? && said.created.Some?)));
    Usage(Newer(WithCache(uncached, cached), u.input), output, if settled then cached else None,
          Thought(said.thought, output, u.reasoning), uncached, read, created, settled, u.messages)
  }

  predicate RaisesAtClose(u: Usage, w: Usage) {
    && NotBelow(w.input, u.input) && NotBelow(w.output, u.output)
    && NotBelow(w.read, u.read) && NotBelow(w.created, u.created)
    && w.input.Or(0) <= LARGEST && w.read.Or(0) + w.created.Or(0) <= LARGEST
  }

  lemma DraftIs(u: Usage, value: JObj, said: Said)
    requires SaysAtClose(value, said) && InRange(said)
    ensures var w := AtClose(u, value, said);
      Draft(u, value, Cache(w.read, w.created, Both(w.read, w.created)))
      == w.(input := WithCache(w.uncached, Both(w.read, w.created)))
  {
    hide OptionalReasoning, KeepReasoning, ReasoningPresent, ReasoningField, CacheReadField, CacheCreatedField, CachePresent,
      SaysRest, Thought, CachePart, NamesCache;
    ThoughtIs(value, said, Newer(said.output, u.output), u.reasoning);
    PresenceIs(value, said);
  }

  /** No objection is raised to a draft that lowers neither input nor output and stays in range. */
  lemma ObjectionIs(u: Usage, value: JObj, said: Said)
    requires Conserved(u) && SaysAtClose(value, said) && InRange(said)
    ensures var w := AtClose(u, value, said);
      && var draft := w.(input := WithCache(w.uncached, Both(w.read, w.created)));
      Objection(u, draft, GetEither(value, "output_tokens", "outputTokens")).None?
      <==> NotBelow(w.input, u.input) && NotBelow(w.output, u.output) && w.input.Or(0) <= LARGEST
  {
    hide Thought, BalancedMessage, NamesCache, SaysRest, CachePart;
  }

  /** A closing report that says something is taken exactly when it lowers nothing, and then reads as said. */
  lemma ClosingIs(u: Usage, value: JObj, said: Said)
    requires Conserved(u) && SaysAtClose(value, said) && InRange(said)
    requires said.input.Some? || said.output.Some? || NamesCache(value) || said.thought.Some?
    ensures var w := AtClose(u, value, said);
      if RaisesAtClose(u, w) then ClosingStep(u, Obj(value)) == (w, Merged)
      else ClosingStep(u, Obj(value)).0 == u && ClosingStep(u, Obj(value)).1.Refused?
  {
    hide CacheUpdate, Conserved, Draft, Objection, SaysRest, Thought, CachePart, NamesCache, SaysNothing;
    CacheIs(value, said, u.read, u.created);
    DraftIs(u, value, said);
    ObjectionIs(u, value, said);
    SpeaksUp(value, said);
  }

  lemma SpeaksUp(value: JObj, said: Said)
    requires SaysAtClose(value, said)
    requires said.input.Some? || said.output.Some? || NamesCache(value) || said.thought.Some?
    ensures !SaysNothing(value)
  {
    PresenceIs(value, said);
  }

  lemma PresenceIs(value: JObj, said: Said)
    requires SaysRest(value, said)
    ensures CachePresent(value) == NamesCache(value)
    ensures said.thought.Some? ==> ReasoningPresent(value)
    ensures CacheReadField(value).Int? == said.read.Some? && CacheCreatedField(value).Int? == said.created.Some?
  {
  }

  /** On a fresh meter the closing report's own counts are read. */
  lemma ClosingAlone(value: JObj, said: Said)
    requires SaysAtClose(value, said) && InRange(said) && InputOf(said) <= LARGEST
    requires said.input.Some? && said.output.Some? && (said.read.Some? || said.created.Some?)
    ensures var (w, v) := ClosingStep(FRESH, Obj(value));
      && v == Merged
      && w.input == Some(InputOf(said)) && w.output == said.output && w.cached == Some(CachedOf(said))
  {
    hide ClosingStep;
    FreshIsSettled();
    ClosingIs(FRESH, value, said);
  }
}
