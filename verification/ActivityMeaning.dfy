/** What may share a group of the activity feed and what a group shows, told by the fields of the events. */
module ActivityMeaning {
  import opened ActivityGroups
  import opened Decimals
  import opened Framing
  import opened Prelude
  import opened Text

  // ---- which events are successful reads ----

  const READERS: set<string> := {
    "repository.read_file", "repository.list_files", "repository.search", "repository.search_semantic",
    "repository.read_instructions", "git.status", "git.diff", "validation-results.read", "review-artifacts.read"}

  /** A completed call of a reading tool that reports success and nothing against it. */
  predicate SuccessfulRead(r: Runtime, e: Event) {
    var p := e.payload.Or(map[]);
    && e.kind == "tool_call.completed"
    && r.lower(if Get(p, "status") == Null then "unknown" else r.stringOf(Get(p, "status"))) == "succeeded"
    && Get(p, "authorized") != Bool(false)
    && Get(p, "caller_cancelled") != Bool(true)
    && Get(p, "timed_out") != Bool(true)
    && "error_code" !in p
    && Get(p, "tool_name") != Null && r.stringOf(Get(p, "tool_name")) in READERS
  }

  lemma SuccessfulReadIff(r: Runtime, e: Event)
    ensures IsReadOnly(r, e) <==> SuccessfulRead(r, e)
  {
    hide READERS, READ_ONLY_TOOLS;
    SameTools();
    CompletedIsNotDenied();
  }

  lemma SameTools()
    ensures READERS == READ_ONLY_TOOLS && "" !in READERS
  {
  }

  lemma CompletedIsNotDenied()
    ensures !EndsWith("tool_call.completed", ".denied")
  {
    assert "tool_call.completed"[12..][0] == 'm';
  }

  // ---- lineage ----

  /** A field is absent, or an identity with no white space around it. */
  predicate Identity(v: Json) {
    v == Null || (v.Str? && v.s != "" && !IsSpace(v.s[0]) && !IsSpace(v.s[|v.s| - 1]))
  }

  function Part(name: string, v: Json): seq<string> {
    if v.Str? then [name + ":" + v.s] else []
  }

  /**
   An event has a lineage key exactly when its four identities are proper and an execution or an attempt is
   among them; the key is those present, each behind its name, in the fixed order.
   */
  lemma LineageIs(e: Event)
    ensures var p := e.payload.Or(map[]);
      && var a, b := Get(p, "agent_execution_id"), Get(p, "subscription_attempt_id");
      && var c, d := Get(p, "subscription_task_id"), Get(p, "step_id");
      LineageKey(e) ==
        if Identity(a) && Identity(b) && Identity(c) && Identity(d) && !(a == Null && b == Null)
        then Some(Between(Part("agent_execution_id", a) + Part("subscription_attempt_id", b)
                          + Part("subscription_task_id", c) + Part("step_id", d), "|"))
        else None
  {
    hide Between, IsIdentifier, Identity;
    var p := e.payload.Or(map[]);
    var keys := LINEAGE_KEYS;
    assert keys[1..][1..] == keys[2..] && keys[2..][1..] == keys[3..] && keys[3..][1..] == [];
    assert keys[1..][0] == "subscription_attempt_id" && keys[2..][0] == "subscription_task_id" && keys[3..][0] == "step_id";
    forall v { IdentityIs(v); }
    PartsOf(p, keys[3..]);
    PartsOf(p, keys[2..]);
    PartsOf(p, keys[1..]);
    PartsOf(p, keys);
    TogetherParts(
      Part("agent_execution_id", Get(p, "agent_execution_id")), Part("subscription_attempt_id", Get(p, "subscription_attempt_id")),
      Part("subscription_task_id", Get(p, "subscription_task_id")), Part("step_id", Get(p, "step_id")));
  }

  lemma TogetherParts(a: seq<string>, b: seq<string>, c: seq<string>, d: seq<string>)
    ensures a + (b + (c + (d + []))) == a + b + c + d
  {
  }

  lemma PartsOf(p: JObj, keys: seq<string>)
    requires keys != []
    ensures Parts(p, keys) ==
      if !(Get(p, keys[0]) == Null || IsIdentifier(Get(p, keys[0]))) || Parts(p, keys[1..]).None? then None
      else Some(Part(keys[0], Get(p, keys[0])) + Parts(p, keys[1..]).value)
  {
    hide IsSpace, Trim;
    if Get(p, keys[0]) == Null && Parts(p, keys[1..]).Some? {
      assert [] + Parts(p, keys[1..]).value == Parts(p, keys[1..]).value;
    }
  }

  lemma IdentityIs(v: Json)
    ensures Identity(v) <==> v == Null || IsIdentifier(v)
  {
    hide IsSpace;
    if v.Str? && v.s != "" { TrimmedIff(v.s); }
    if v.Str? && v.s == "" { assert Trim("") == ""; }
  }

  // ---- which events may share a group ----

  function TimeOf(r: Runtime, e: Event): Option<int> {
    var raw := if e.occurredAt.Some? then e.occurredAt.value else e.createdAt.Or("");
    if raw == "" then None else r.parseTime(raw)
  }

  /** The upper of two events is not the earlier one, and the lower at most the gap before it. */
  predicate Near(upper: Option<int>, lower: Option<int>, gap: int) {
    upper.Some? && lower.Some? && lower.value <= upper.value <= lower.value + gap
  }

  predicate SafeVersion(v: Option<int>) {
    v.Some? && -9007199254740991 <= v.value <= 9007199254740991
  }

  /**
   Two events may share a group exactly when both are successful reads of one known lineage at one safe
   version, close in time and in the order shown.
   */
  lemma TogetherIff(r: Runtime, gap: int, upper: Event, lower: Event)
    ensures Together(r, gap, upper, lower) <==>
      && SuccessfulRead(r, upper) && SuccessfulRead(r, lower)
      && LineageKey(upper).Some? && LineageKey(upper) == LineageKey(lower)
      && SafeVersion(upper.version) && upper.version == lower.version
      && Near(TimeOf(r, upper), TimeOf(r, lower), gap)
  {
    hide SuccessfulRead, IsReadOnly, LineageKey;
    SuccessfulReadIff(r, upper);
    SuccessfulReadIff(r, lower);
  }

  // ---- what a group shows ----

  predicate ReadsFile(e: Event) {
    Get(e.payload.Or(map[]), "tool_name") == Str("repository.read_file")
  }

  /**
   Every group shows its items with their number, its newest event first and its oldest last; alone an event
   keeps its own title, and together they are counted as file reads when all of them are, or else as reads.
   */
  lemma GroupShows(r: Runtime, groups: seq<Group>, i: nat)
    requires WellMade(r, groups) && i < |groups|
    ensures var g := groups[i];
      && g.items != [] && g.count == |g.items| && g.isGroup == (|g.items| > 1)
      && g.latest == g.items[0] && g.first == g.items[|g.items| - 1]
      && g.summary == (if |g.items| == 1 then r.title(g.items[0])
                       else if forall e :: e in g.items ==> ReadsFile(e) then Numeral(|g.items|) + " file reads"
                       else Numeral(|g.items|) + " read actions")
      && (g.latest.sequence.Some? ==>
            g.key == "group-" + Numeral(g.latest.sequence.value) + "-" + Numeral(|g.items|))
      && (g.latest.sequence.None? && g.latest.id.Some? ==> g.key == "group-" + g.latest.id.value + "-" + Numeral(|g.items|))
      && (g.latest.sequence.None? && g.latest.id.None? ==> g.key == "group-" + Numeral(i) + "-" + Numeral(|g.items|))
  {
    hide Numeral;
    var items := groups[i].items;
    if forall k :: 0 <= k < |items| ==> IsFileRead(items[k]) {
      forall e | e in items ensures ReadsFile(e) {
        var k :| 0 <= k < |items| && items[k] == e;
      }
    } else {
      var k :| 0 <= k < |items| && !IsFileRead(items[k]);
      assert items[k] in items && !ReadsFile(items[k]);
    }
  }
}
