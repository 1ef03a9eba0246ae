/** Greedy grouping of the recent activity feed, newest event first. */
module ActivityGroups {
  import opened Prelude
  import opened Framing
  import opened Decimals
  import opened Text


  /** `version` is `None` when it is missing or not a whole number; `payload` when it is not an object. */
  datatype Event = Event(
    kind: string, payload: Option<JObj>, occurredAt: Option<string>, createdAt: Option<string>,
    sequence: Option<nat>, version: Option<int>, id: Option<string>)

  /** `String`, `toLowerCase` and `Date.parse` of the browser, and the single-event title. */
  datatype Runtime = Runtime(
    stringOf: Json -> string, lower: string -> string, parseTime: string -> Option<int>, title: Event -> string)

  const READ_ONLY_TOOLS: set<string> := {
    "repository.read_file", "repository.list_files", "repository.search", "repository.search_semantic",
    "repository.read_instructions", "git.status", "git.diff", "validation-results.read", "review-artifacts.read"}

  function PayloadOf(e: Event): JObj {
    e.payload.Or(map[])
  }

  // ---- the rules ----

  predicate EndsWith(s: string, suffix: string) {
    |suffix| <= |s| && s[|s| - |suffix|..] == suffix
  }

  datatype ToolStatus = Unknown | Denied | Cancelled | Failed | Succeeded | Waiting

  function RawStatus(r: Runtime, p: JObj, kind: string): string {
    var status := Get(p, "status");
    r.lower(if !status.Null? then r.stringOf(status) else if EndsWith(kind, ".denied") then "denied" else "unknown")
  }

  function ToolLifecycle(r: Runtime, p: JObj, kind: string): ToolStatus {
    var raw := RawStatus(r, p, kind);
    if raw == "denied" || Get(p, "authorized") == Bool(false) then Denied
    else if raw == "cancelled" || Get(p, "caller_cancelled") == Bool(true) then Cancelled
    else if raw == "failed" || Get(p, "timed_out") == Bool(true) || "error_code" in p then Failed
    else if raw == "succeeded" then Succeeded
    else if raw == "pending" || raw == "running" then Waiting
    else Unknown
  }

  predicate IsReadOnly(r: Runtime, e: Event) {
    var tool := Get(PayloadOf(e), "tool_name");
    && e.kind == "tool_call.completed"
    && ToolLifecycle(r, PayloadOf(e), e.kind) == Succeeded
    && (if tool.Null? then "" else r.stringOf(tool)) in READ_ONLY_TOOLS
  }

  const LINEAGE_KEYS: seq<string> := ["agent_execution_id", "subscription_attempt_id", "subscription_task_id", "step_id"]

  predicate IsIdentifier(v: Json) {
    v.Str? && Trim(v.s) != "" && v.s == Trim(v.s)
  }

  /** The parts of the lineage key, unless some value is not a trimmed string. */
  function Parts(p: JObj, keys: seq<string>): Option<seq<string>> {
    if keys == [] then Some([])
    else
      var v := Get(p, keys[0]);
      if v.Null? then Parts(p, keys[1..])
      else if !IsIdentifier(v) then None
      else
        match Parts(p, keys[1..])
        case None => None
        case Some(rest) => Some([keys[0] + ":" + v.s] + rest)
  }

  const BAR: string := "|"

  function LineageKey(e: Event): Option<string> {
    var p := PayloadOf(e);
    match Parts(p, LINEAGE_KEYS)
    case None => None
    case Some(parts) =>
      if Get(p, "agent_execution_id").Null? && Get(p, "subscription_attempt_id").Null? then None else Some(Between(parts, BAR))
  }

  function Prepend(parts: seq<string>, rest: Option<seq<string>>): Option<seq<string>> {
    if rest.None? then None else Some(parts + rest.value)
  }

  lemma Prepended(parts: seq<string>, rest: Option<seq<string>>)
    ensures Prepend([], rest) == rest
    ensures parts != [] && rest.Some? ==>
      parts[..|parts| - 1] + ([parts[|parts| - 1]] + rest.value) == parts + rest.value
  {
    if rest.Some? {
      assert [] + rest.value == rest.value;
    }
    if parts != [] && rest.Some? {
      assert parts[..|parts| - 1] + [parts[|parts| - 1]] == parts;
    }
  }

  method BuildLineageKey(e: Event) returns (key: Option<string>)
    ensures key == LineageKey(e)
  {
    hide Between, Trim;
    var p := PayloadOf(e);
    var parts: seq<string> := [];
    assert LINEAGE_KEYS[0..] == LINEAGE_KEYS;
    Prepended(parts, Parts(p, LINEAGE_KEYS));
    for i := 0 to |LINEAGE_KEYS|
      invariant Parts(p, LINEAGE_KEYS) == Prepend(parts, Parts(p, LINEAGE_KEYS[i..]))
    {
      assert LINEAGE_KEYS[i..][1..] == LINEAGE_KEYS[i + 1..];
      var name := LINEAGE_KEYS[i];
      var v := Get(p, name);
      if !v.Null? {
        if !IsIdentifier(v) {
          return None;
        }
        Prepended(parts + [name + ":" + v.s], Parts(p, LINEAGE_KEYS[i + 1..]));
        parts := parts + [name + ":" + v.s];
      }
    }
    assert parts + [] == parts;
    if Get(p, "agent_execution_id").Null? && Get(p, "subscription_attempt_id").Null? {
      return None;
    }
    key := Some(Between(parts, BAR));
  }

  function Timestamp(r: Runtime, e: Event): Option<int> {
    var raw := if e.occurredAt.Some? then e.occurredAt else e.createdAt;
    if raw.None? || raw.value == "" then None else r.parseTime(raw.value)
  }

  predicate IsSafe(version: Option<int>) {
    version.Some? && -MAX_SAFE <= version.value <= MAX_SAFE
  }

  /** Whether an event joins the group that starts with `head` and so far ends with `prev`. */
  predicate CanGroup(r: Runtime, gap: int, e: Event, prev: Event, head: Event) {
    && IsReadOnly(r, e)
    && IsReadOnly(r, prev)
    && LineageKey(e).Some?
    && LineageKey(e) == LineageKey(head)
    && IsSafe(e.version)
    && e.version == head.version
    && Timestamp(r, e).Some? && Timestamp(r, prev).Some? && Timestamp(r, head).Some?
    && Timestamp(r, e).value <= Timestamp(r, prev).value
    && Timestamp(r, head).value - Timestamp(r, e).value <= gap
  }

  // ---- grouping ----

  datatype Group = Group(
    key: string, isGroup: bool, items: seq<Event>, count: nat, summary: string, first: Event, latest: Event)

  predicate IsFileRead(e: Event) {
    Get(PayloadOf(e), "tool_name") == Str("repository.read_file")
  }

  function KeyText(e: Event, index: nat, count: nat): string {
    var name :=
      if e.sequence.Some? then Numeral(e.sequence.value) else if e.id.Some? then e.id.value else Numeral(index);
    "group-" + name + "-" + Numeral(count)
  }

  function MakeGroup(r: Runtime, items: seq<Event>, index: nat): Group
    requires items != []
  {
    var n := |items|;
    var summary :=
      if n == 1 then r.title(items[0])
      else if forall i :: 0 <= i < n ==> IsFileRead(items[i]) then Numeral(n) + " file reads"
      else Numeral(n) + " read actions";
    Group(KeyText(items[0], index, n), n > 1, items, n, summary, items[n - 1], items[0])
  }

  function Extends(r: Runtime, gap: int, current: seq<Event>, e: Event): bool
    requires current != []
  {
    CanGroup(r, gap, e, current[|current| - 1], current[0])
  }

  /** The item lists of the groups, given the group that is still open. */
  function Grouped(r: Runtime, gap: int, current: seq<Event>, events: seq<Event>): seq<seq<Event>>
    decreases |events|
  {
    if events == [] then if current == [] then [] else [current]
    else if current == [] || Extends(r, gap, current, events[0]) then
      Grouped(r, gap, current + [events[0]], events[1..])
    else [current] + Grouped(r, gap, [events[0]], events[1..])
  }

  function ItemLists(groups: seq<Group>): seq<seq<Event>> {
    if groups == [] then [] else [groups[0].items] + ItemLists(groups[1..])
  }

  ghost predicate WellMade(r: Runtime, groups: seq<Group>) {
    forall i :: 0 <= i < |groups| ==> groups[i].items != [] && groups[i] == MakeGroup(r, groups[i].items, i)
  }

  lemma {:induction false} ItemListsAppend(groups: seq<Group>, g: Group)
    ensures ItemLists(groups + [g]) == ItemLists(groups) + [g.items]
  {
    if groups == [] {
      assert groups + [g] == [g] && [g][1..] == [];
    } else {
      assert (groups + [g])[1..] == groups[1..] + [g];
      ItemListsAppend(groups[1..], g);
    }
  }

  method Flush(r: Runtime, groups: seq<Group>, current: seq<Event>) returns (more: seq<Group>)
    requires WellMade(r, groups)
    ensures WellMade(r, more)
    ensures ItemLists(more) == ItemLists(groups) + if current == [] then [] else [current]
  {
    hide MakeGroup;
    if current == [] {
      return groups;
    }
    var g := MakeGroup(r, current, |groups|);
    MadeOfItems(r, current, |groups|);
    ItemListsAppend(groups, g);
    more := groups + [g];
  }

  lemma MadeOfItems(r: Runtime, items: seq<Event>, index: nat)
    requires items != []
    ensures MakeGroup(r, items, index).items == items
  {
  }

  method GroupRecentActivity(r: Runtime, events: seq<Event>, gap: int) returns (groups: seq<Group>)
    ensures WellMade(r, groups)
    ensures ItemLists(groups) == Grouped(r, gap, [], events)
  {
    hide CanGroup, WellMade, ItemLists;
    groups := Flush(r, [], []) by { assert WellMade(r, []) by { NoneMade(r); } }
    NoneMade(r);
    var current: seq<Event> := [];
    for i := 0 to |events|
      invariant WellMade(r, groups)
      invariant ItemLists(groups) + Grouped(r, gap, current, events[i..]) == Grouped(r, gap, [], events)
    {
      assert events[i..][1..] == events[i + 1..];
      var event := events[i];
      if current == [] {
        assert current + [event] == [event];
        current := [event];
        continue;
      }
      var prev := current[|current| - 1];
      if CanGroup(r, gap, event, prev, current[0]) {
        current := current + [event];
      } else {
        ghost var rest := Grouped(r, gap, [event], events[i + 1..]);
        assert ItemLists(groups) + ([current] + rest) == ItemLists(groups) + [current] + rest;
        groups := Flush(r, groups, current);
        current := [event];
      }
    }
    groups := Flush(r, groups, current);
  }

  lemma NoneMade(r: Runtime)
    ensures WellMade(r, []) && ItemLists([]) == []
  {
  }

  // ---- what a group means ----

  /** Two events, the first one shown above the second, may share a group. */
  predicate Together(r: Runtime, gap: int, upper: Event, lower: Event) {
    && IsReadOnly(r, upper) && IsReadOnly(r, lower)
    && LineageKey(lower).Some? && LineageKey(lower) == LineageKey(upper)
    && IsSafe(lower.version) && lower.version == upper.version
    && Timestamp(r, lower).Some? && Timestamp(r, upper).Some?
    && 0 <= Timestamp(r, upper).value - Timestamp(r, lower).value <= gap
  }

  ghost predicate Pairwise(r: Runtime, gap: int, items: seq<Event>) {
    forall i, j :: 0 <= i < j < |items| ==> Together(r, gap, items[i], items[j])
  }

  /** Every event after the first passed the test against its predecessor and the head. */
  ghost predicate Chained(r: Runtime, gap: int, items: seq<Event>) {
    forall i :: 0 < i < |items| ==> CanGroup(r, gap, items[i], items[i - 1], items[0])
  }

  lemma {:induction false} ChainDescends(r: Runtime, gap: int, items: seq<Event>, i: nat, j: nat)
    requires Chained(r, gap, items) && i < j < |items|
    ensures Timestamp(r, items[i]).Some? && Timestamp(r, items[j]).Some?
    ensures Timestamp(r, items[j]).value <= Timestamp(r, items[i]).value
    decreases j
  {
    hide Timestamp, IsReadOnly, LineageKey;
    assert CanGroup(r, gap, items[j], items[j - 1], items[0]);
    if i < j - 1 {
      ChainDescends(r, gap, items, i, j - 1);
    }
  }

  /** The test against predecessor and head is the test of every pair. */
  lemma ChainedIffPairwise(r: Runtime, gap: int, items: seq<Event>)
    ensures Chained(r, gap, items) <==> Pairwise(r, gap, items)
  {
    hide Timestamp, IsReadOnly, LineageKey;
    if Chained(r, gap, items) {
      forall i, j | 0 <= i < j < |items| ensures Together(r, gap, items[i], items[j]) {
        ChainDescends(r, gap, items, i, j);
        assert CanGroup(r, gap, items[j], items[j - 1], items[0]);
        assert CanGroup(r, gap, items[i + 1], items[i], items[0]);
        if i > 0 {
          ChainDescends(r, gap, items, 0, i);
          assert CanGroup(r, gap, items[i], items[i - 1], items[0]);
        }
      }
    }
    if Pairwise(r, gap, items) {
      forall i | 0 < i < |items| ensures CanGroup(r, gap, items[i], items[i - 1], items[0]) {
        assert Together(r, gap, items[i - 1], items[i]) && Together(r, gap, items[0], items[i]);
      }
    }
  }

  function Flatten(groups: seq<seq<Event>>): seq<Event> {
    if groups == [] then [] else groups[0] + Flatten(groups[1..])
  }

  /** Non-empty groups of events that belong together. */
  ghost predicate Sound(r: Runtime, gap: int, groups: seq<seq<Event>>) {
    forall i :: 0 <= i < |groups| ==> groups[i] != [] && Pairwise(r, gap, groups[i])
  }

  lemma ChainGrows(r: Runtime, gap: int, items: seq<Event>, e: Event)
    requires Chained(r, gap, items) && (items == [] || Extends(r, gap, items, e))
    ensures Chained(r, gap, items + [e])
  {
    hide CanGroup;
  }

  lemma {:induction false} GroupsAreSound(r: Runtime, gap: int, current: seq<Event>, events: seq<Event>)
    requires Chained(r, gap, current)
    ensures Sound(r, gap, Grouped(r, gap, current, events))
    decreases |events|
  {
    hide CanGroup, Pairwise, Chained;
    ChainedIffPairwise(r, gap, current);
    if events != [] {
      var e := events[0];
      if current == [] || Extends(r, gap, current, e) {
        ChainGrows(r, gap, current, e);
        GroupsAreSound(r, gap, current + [e], events[1..]);
      } else {
        SingleIsChained(r, gap, e);
        GroupsAreSound(r, gap, [e], events[1..]);
      }
    }
  }

  lemma SingleIsChained(r: Runtime, gap: int, e: Event)
    ensures Chained(r, gap, [e])
  {
  }

  lemma {:induction false} GroupsKeepAll(r: Runtime, gap: int, current: seq<Event>, events: seq<Event>)
    ensures Flatten(Grouped(r, gap, current, events)) == current + events
    decreases |events|
  {
    hide CanGroup;
    if events == [] {
      assert [current][1..] == [];
    } else {
      var e := events[0];
      assert [e] + events[1..] == events;
      if current == [] || Extends(r, gap, current, e) {
        GroupsKeepAll(r, gap, current + [e], events[1..]);
        assert current + [e] + events[1..] == current + events;
      } else {
        GroupsKeepAll(r, gap, [e], events[1..]);
        var rest := Grouped(r, gap, [e], events[1..]);
        assert ([current] + rest)[1..] == rest;
      }
    }
  }

  /** Group i could not have taken the head of the next one. */
  ghost predicate Full(r: Runtime, gap: int, groups: seq<seq<Event>>, i: int) {
    0 <= i < |groups| - 1 && groups[i] != [] && groups[i + 1] != [] ==> !Extends(r, gap, groups[i], groups[i + 1][0])
  }

  ghost predicate Greedy(r: Runtime, gap: int, groups: seq<seq<Event>>) {
    && (forall i :: 0 <= i < |groups| ==> groups[i] != [])
    && (forall i :: 0 <= i < |groups| - 1 ==> Full(r, gap, groups, i))
  }

  lemma {:induction false} GroupsAreGreedy(r: Runtime, gap: int, current: seq<Event>, events: seq<Event>)
    ensures var groups := Grouped(r, gap, current, events);
      && Greedy(r, gap, groups)
      && (current != [] ==> groups != [] && current <= groups[0])
    decreases |events|
  {
    hide CanGroup;
    if events != [] {
      var e := events[0];
      if current == [] || Extends(r, gap, current, e) {
        GroupsAreGreedy(r, gap, current + [e], events[1..]);
      } else {
        GroupsAreGreedy(r, gap, [e], events[1..]);
        var rest := Grouped(r, gap, [e], events[1..]);
        assert rest[0][0] == e;
        var groups := [current] + rest;
        forall i | 0 <= i < |groups| - 1 ensures Full(r, gap, groups, i) {
          if i > 0 { assert Full(r, gap, rest, i - 1) && groups[i] == rest[i - 1] && groups[i + 1] == rest[i]; }
        }
      }
    }
  }

  lemma PairwisePart(r: Runtime, gap: int, front: seq<Event>, back: seq<Event>)
    requires Pairwise(r, gap, front + back)
    ensures Pairwise(r, gap, back)
  {
    hide Together;
    var all := front + back;
    forall i, j | 0 <= i < j < |back| ensures Together(r, gap, back[i], back[j]) {
      assert all[|front| + i] == back[i] && all[|front| + j] == back[j];
    }
  }

  lemma PastTheEnd(r: Runtime, gap: int, groups: seq<seq<Event>>, q: seq<Event>)
    requires groups != [] && forall i :: 0 <= i < |groups| ==> groups[i] != []
    requires Pairwise(r, gap, q) && q <= Flatten(groups) && |q| > |groups[0]|
    ensures |groups| > 1 && !Full(r, gap, groups, 0)
  {
    hide CanGroup, Pairwise;
    var g := groups[0];
    assert Flatten(groups)[..|g|] == g;
    assert groups[1..] != [] && Flatten(groups)[|g|] == groups[1][0];
    ChainedIffPairwise(r, gap, q);
    assert q[|g|] == groups[1][0] && q[|g| - 1] == g[|g| - 1] && q[0] == g[0];
  }

  /** A group that starts where a greedy one starts cannot reach past its end. */
  lemma GreedyReachesFurthest(r: Runtime, gap: int, groups: seq<seq<Event>>, q: seq<Event>)
    requires Greedy(r, gap, groups) && groups != []
    requires Pairwise(r, gap, q) && q <= Flatten(groups)
    ensures |q| <= |groups[0]|
  {
    hide CanGroup, Pairwise, Full;
    if |q| > |groups[0]| {
      PastTheEnd(r, gap, groups, q);
    }
  }

  /**
   Greedy groups are no more than any other sound groups, even when the others start `ahead` events
   earlier: greedy stays ahead.
   */
  lemma {:induction false} GreedyStaysAhead(
    r: Runtime, gap: int, groups: seq<seq<Event>>, others: seq<seq<Event>>, ahead: seq<Event>)
    requires Greedy(r, gap, groups) && Sound(r, gap, others)
    requires Flatten(others) == ahead + Flatten(groups)
    ensures |groups| <= |others|
    decreases |others|
  {
    hide CanGroup, Pairwise;
    if groups != [] {
      NotEmpty(groups);
      assert others != [];
      var p, all := others[0], Flatten(others);
      assert all[..|p|] == p && all[|p|..] == Flatten(others[1..]);
      if |p| <= |ahead| {
        assert Flatten(others[1..]) == ahead[|p|..] + Flatten(groups);
        GreedyStaysAhead(r, gap, groups, others[1..], ahead[|p|..]);
      } else {
        var q := p[|ahead|..];
        assert p == ahead + q by { assert p[..|ahead|] == all[..|ahead|] == ahead; }
        PairwisePart(r, gap, ahead, q);
        assert q == Flatten(groups)[..|q|];
        GreedyReachesFurthest(r, gap, groups, q);
        var g := groups[0];
        assert Flatten(groups) == g + Flatten(groups[1..]);
        assert Flatten(others[1..]) == g[|q|..] + Flatten(groups[1..]);
        GreedyTail(r, gap, groups);
        GreedyStaysAhead(r, gap, groups[1..], others[1..], g[|q|..]);
      }
    }
  }

  lemma NotEmpty(groups: seq<seq<Event>>)
    requires groups != [] && groups[0] != []
    ensures Flatten(groups) != []
  {
  }

  lemma GreedyTail(r: Runtime, gap: int, groups: seq<seq<Event>>)
    requires Greedy(r, gap, groups) && groups != []
    ensures Greedy(r, gap, groups[1..])
  {
    hide CanGroup;
    var rest := groups[1..];
    forall i | 0 <= i < |rest| - 1 ensures Full(r, gap, rest, i) {
      assert Full(r, gap, groups, i + 1) && rest[i] == groups[i + 1] && rest[i + 1] == groups[i + 1 + 1];
    }
  }

  /**
   The groups put together are the list; inside each, every pair keeps the lineage, version, order and gap
   rules; and no other way of cutting the list into such groups needs fewer.
   */
  lemma GroupingIsOptimal(r: Runtime, gap: int, events: seq<Event>, others: seq<seq<Event>>)
    ensures var groups := Grouped(r, gap, [], events);
      && Flatten(groups) == events
      && Sound(r, gap, groups)
      && (Sound(r, gap, others) && Flatten(others) == events ==> |groups| <= |others|)
  {
    hide CanGroup, Pairwise, Grouped, Greedy, Flatten, Sound;
    GroupsKeepAll(r, gap, [], events);
    assert [] + events == events;
    assert Chained(r, gap, []);
    GroupsAreSound(r, gap, [], events);
    GroupsAreGreedy(r, gap, [], events);
    if Sound(r, gap, others) && Flatten(others) == events {
      assert [] + Flatten(Grouped(r, gap, [], events)) == Flatten(others);
      GreedyStaysAhead(r, gap, Grouped(r, gap, [], events), others, []);
    }
  }

  // ---- group keys and lineage keys ----

  lemma DashSplits(x: string, y: string, m: string, n: string)
    requires AllDigits(x) && AllDigits(y) && x + ("-" + m) == y + ("-" + n)
    ensures x == y && m == n
  {
    var s := x + ("-" + m);
    LeadOf(x, "-" + m);
    LeadOf(y, "-" + n);
    assert x == s[..|x|] && y == s[..|y|];
    assert m == s[|x| + 1..] && n == s[|y| + 1..];
  }

  lemma KeyNamesSequence(a: Event, b: Event, i: nat, j: nat, m: nat, n: nat)
    requires a.sequence.Some? && b.sequence.Some? && KeyText(a, i, m) == KeyText(b, j, n)
    ensures a.sequence == b.sequence && m == n
  {
    hide Numeral, Value;
    var x, y := Numeral(a.sequence.value), Numeral(b.sequence.value);
    var s, t := x + ("-" + Numeral(m)), y + ("-" + Numeral(n));
    assert KeyText(a, i, m) == "group-" + s && KeyText(b, j, n) == "group-" + t;
    assert s == ("group-" + s)[6..] && t == ("group-" + t)[6..];
    DashSplits(x, y, Numeral(m), Numeral(n));
    SameValue(x, y);
    SameValue(Numeral(m), Numeral(n));
  }

  lemma SameValue(x: string, y: string)
    requires x == y && AllDigits(x)
    ensures AllDigits(y) && Value(x) == Value(y)
  {
  }

  /** When the events carry distinct sequences, no two groups share a key. */
  lemma KeysAreDistinct(r: Runtime, groups: seq<Group>, i: nat, j: nat)
    requires WellMade(r, groups) && i < |groups| && j < |groups|
    requires groups[i].latest.sequence.Some? && groups[j].latest.sequence.Some?
    requires groups[i].latest.sequence != groups[j].latest.sequence
    ensures groups[i].key != groups[j].key
  {
    hide KeyText;
    if groups[i].key == groups[j].key {
      KeyNamesSequence(groups[i].latest, groups[j].latest, i, j, groups[i].count, groups[j].count);
    }
  }

  /** The four identities of an event's lineage. */
  function Lineage(p: JObj): (Json, Json, Json, Json) {
    (Get(p, "agent_execution_id"), Get(p, "subscription_attempt_id"), Get(p, "subscription_task_id"), Get(p, "step_id"))
  }

  ghost predicate BarFree(p: JObj) {
    forall k :: k in LINEAGE_KEYS ==> Get(p, k).Str? ==> '|' !in Get(p, k).s
  }

  lemma {:induction false} PartsHaveNoBar(p: JObj, keys: seq<string>)
    requires Parts(p, keys).Some?
    requires forall i :: 0 <= i < |keys| ==> keys[i] in LINEAGE_KEYS
    requires BarFree(p)
    ensures Unmarked(Parts(p, keys).value, '|')
  {
    hide Trim;
    if keys != [] {
      PartsHaveNoBar(p, keys[1..]);
      assert keys[0] in LINEAGE_KEYS && '|' !in keys[0];
    }
  }

  ghost predicate Names(keys: seq<string>) {
    && (forall i :: 0 <= i < |keys| ==> ':' !in keys[i])
    && (forall i, j :: 0 <= i < j < |keys| ==> keys[i] != keys[j])
  }

  lemma FirstColon(k: string, l: string, v: string, w: string)
    requires ':' !in k && ':' !in l && k + ":" + v == l + ":" + w
    ensures k == l && v == w
  {
    var s := k + ":" + v;
    assert s[|k|] == ':' && s[|l|] == ':';
    assert forall i :: 0 <= i < |k| ==> s[i] == k[i];
    assert forall i :: 0 <= i < |l| ==> s[i] == l[i];
    assert k == s[..|k|] && l == s[..|l|];
    assert v == s[|k| + 1..] && w == s[|l| + 1..];
  }

  /** The first key with a value: its part comes first and the later keys give the other parts. */
  lemma {:induction false} FirstPart(p: JObj, keys: seq<string>) returns (i: nat)
    requires Parts(p, keys).Some? && Parts(p, keys).value != []
    ensures i < |keys| && Get(p, keys[i]).Str? && IsIdentifier(Get(p, keys[i]))
    ensures Parts(p, keys).value[0] == keys[i] + ":" + Get(p, keys[i]).s
    ensures Parts(p, keys[i + 1..]) == Some(Parts(p, keys).value[1..])
    ensures forall j :: 0 <= j < i ==> Get(p, keys[j]).Null?
  {
    hide Trim;
    if Get(p, keys[0]).Null? {
      var j := FirstPart(p, keys[1..]);
      i := j + 1;
      assert keys[1..][j + 1..] == keys[i + 1..];
      assert forall k :: 0 < k < i ==> keys[k] == keys[1..][k - 1];
    } else {
      i := 0;
    }
  }

  lemma {:induction false} PartsDetermineValues(p: JObj, q: JObj, keys: seq<string>)
    requires Names(keys) && Parts(p, keys).Some? && Parts(p, keys) == Parts(q, keys)
    ensures forall i :: 0 <= i < |keys| ==> Get(p, keys[i]) == Get(q, keys[i])
  {
    hide Trim;
    if keys != [] {
      var k, rest := keys[0], keys[1..];
      assert Names(rest);
      if !Get(p, k).Null? || !Get(q, k).Null? {
        var i := FirstPart(p, keys);
        var j := FirstPart(q, keys);
        FirstColon(keys[i], keys[j], Get(p, keys[i]).s, Get(q, keys[j]).s);
        SkipsFirst(p, keys, i);
        SkipsFirst(q, keys, j);
      }
      PartsTail(p, keys);
      PartsTail(q, keys);
      PartsDetermineValues(p, q, rest);
      forall i | 0 <= i < |keys| ensures Get(p, keys[i]) == Get(q, keys[i]) {
        if i > 0 { assert keys[i] == rest[i - 1]; }
      }
    }
  }

  /** The first part is the first key's own whenever that key has a value. */
  lemma SkipsFirst(p: JObj, keys: seq<string>, i: nat)
    requires Names(keys) && Parts(p, keys).Some? && i < |keys| && Get(p, keys[i]).Str? && Parts(p, keys).value != []
    requires Parts(p, keys).value[0] == keys[i] + ":" + Get(p, keys[i]).s
    ensures Get(p, keys[0]).Null? <==> i > 0
  {
    hide Trim;
    if !Get(p, keys[0]).Null? {
      FirstColon(keys[0], keys[i], Get(p, keys[0]).s, Get(p, keys[i]).s);
    }
  }

  lemma PartsTail(p: JObj, keys: seq<string>)
    requires keys != [] && Parts(p, keys).Some?
    ensures Parts(p, keys[1..]).Some?
    ensures Parts(p, keys[1..]).value == if Get(p, keys[0]).Null? then Parts(p, keys).value else Parts(p, keys).value[1..]
  {
    hide Trim;
  }

  lemma KeysAreNames()
    ensures Names(LINEAGE_KEYS)
  {
    assert |"agent_execution_id"| == 18 && |"subscription_attempt_id"| == 23;
    assert |"subscription_task_id"| == 20 && |"step_id"| == 7;
  }

  lemma SameLineage(p: JObj, q: JObj)
    requires forall i :: 0 <= i < |LINEAGE_KEYS| ==> Get(p, LINEAGE_KEYS[i]) == Get(q, LINEAGE_KEYS[i])
    ensures Lineage(p) == Lineage(q)
  {
    assert LINEAGE_KEYS[0] == "agent_execution_id" && LINEAGE_KEYS[1] == "subscription_attempt_id";
    assert LINEAGE_KEYS[2] == "subscription_task_id" && LINEAGE_KEYS[3] == "step_id";
  }

  /** When no identity contains the joining bar, equal keys mean equal identities. */
  lemma BarFreeKeysNameLineage(a: Event, b: Event)
    requires LineageKey(a).Some? && LineageKey(a) == LineageKey(b)
    requires BarFree(PayloadOf(a)) && BarFree(PayloadOf(b))
    ensures Lineage(PayloadOf(a)) == Lineage(PayloadOf(b))
  {
    hide Find, Drain, Trim, Between, Lineage, BarFree, Parts;
    var p, q := PayloadOf(a), PayloadOf(b);
    PartsHaveNoBar(p, LINEAGE_KEYS);
    PartsHaveNoBar(q, LINEAGE_KEYS);
    SomeParts(a);
    SomeParts(b);
    SplitUndoesBetween(Parts(p, LINEAGE_KEYS).value, '|');
    SplitUndoesBetween(Parts(q, LINEAGE_KEYS).value, '|');
    KeysAreNames();
    PartsDetermineValues(p, q, LINEAGE_KEYS);
    SameLineage(p, q);
  }

  lemma SomeParts(e: Event)
    requires LineageKey(e).Some?
    ensures Parts(PayloadOf(e), LINEAGE_KEYS).Some? && Parts(PayloadOf(e), LINEAGE_KEYS).value != []
  {
    hide Between, Trim;
    var p := PayloadOf(e);
    if Parts(p, LINEAGE_KEYS).value == [] {
      NoPartsNoValues(p, LINEAGE_KEYS, 0);
      NoPartsNoValues(p, LINEAGE_KEYS, 1);
    }
  }

  lemma {:induction false} NoPartsNoValues(p: JObj, keys: seq<string>, i: nat)
    requires Parts(p, keys) == Some([]) && i < |keys|
    ensures Get(p, keys[i]).Null?
  {
    hide Trim;
    if i > 0 {
      NoPartsNoValues(p, keys[1..], i - 1);
    }
  }

  /** One step of the loop over the keys, read from its end. */
  lemma NextPart(p: JObj, keys: seq<string>, i: nat, parts: seq<string>)
    requires i < |keys| && (Get(p, keys[i]).Null? || IsIdentifier(Get(p, keys[i])))
    requires var v := Get(p, keys[i]);
      if v.Null? then Parts(p, keys[i + 1..]) == Some(parts)
      else parts != [] && parts[0] == keys[i] + ":" + v.s && Parts(p, keys[i + 1..]) == Some(parts[1..])
    ensures Parts(p, keys[i..]) == Some(parts)
  {
    hide IsIdentifier;
    assert keys[i..][0] == keys[i] && keys[i..][1..] == keys[i + 1..];
    if !Get(p, keys[i]).Null? {
      assert parts == [parts[0]] + parts[1..];
    }
  }

  lemma EmptyFrom(p: JObj, n: nat, parts: seq<string>)
    requires n == |LINEAGE_KEYS| && parts == []
    ensures Parts(p, LINEAGE_KEYS[n..]) == Some(parts)
  {
  }

  /** The only part of a single identity. */
  lemma {:induction false} AloneFrom(p: JObj, i: nat, v: string, n: nat)
    requires i < |LINEAGE_KEYS| && n <= |LINEAGE_KEYS| && IsIdentifier(Str(v)) && p == map[LINEAGE_KEYS[i] := Str(v)]
    ensures Parts(p, LINEAGE_KEYS[n..]) == Some(if n <= i then [LINEAGE_KEYS[i] + ":" + v] else [])
    decreases |LINEAGE_KEYS| - n
  {
    hide IsIdentifier, Parts;
    var parts := if n <= i then [LINEAGE_KEYS[i] + ":" + v] else [];
    if n == |LINEAGE_KEYS| {
      EmptyFrom(p, n, parts);
    } else {
      KeysAreNames();
      AloneFrom(p, i, v, n + 1);
      assert n == i ==> parts[1..] == [];
      NextPart(p, LINEAGE_KEYS, n, parts);
    }
  }

  /** The two parts of two identities. */
  lemma {:induction false} PairFrom(p: JObj, i: nat, m: nat, v: string, w: string, n: nat)
    requires i < m < |LINEAGE_KEYS| && n <= |LINEAGE_KEYS| && IsIdentifier(Str(v)) && IsIdentifier(Str(w))
    requires p == map[LINEAGE_KEYS[i] := Str(v), LINEAGE_KEYS[m] := Str(w)]
    ensures Parts(p, LINEAGE_KEYS[n..])
         == Some(if n <= i then [LINEAGE_KEYS[i] + ":" + v, LINEAGE_KEYS[m] + ":" + w]
                 else if n <= m then [LINEAGE_KEYS[m] + ":" + w] else [])
    decreases |LINEAGE_KEYS| - n
  {
    hide IsIdentifier, Parts;
    var first, last := LINEAGE_KEYS[i] + ":" + v, LINEAGE_KEYS[m] + ":" + w;
    var parts := if n <= i then [first, last] else if n <= m then [last] else [];
    if n == |LINEAGE_KEYS| {
      EmptyFrom(p, n, parts);
    } else {
      KeysAreNames();
      PairFrom(p, i, m, v, w, n + 1);
      assert [first, last][1..] == [last] && [last][1..] == [];
      NextPart(p, LINEAGE_KEYS, n, parts);
    }
  }

  lemma KeyOfParts(e: Event, parts: seq<string>, i: nat)
    requires Parts(PayloadOf(e), LINEAGE_KEYS) == Some(parts) && i < 2 && Get(PayloadOf(e), LINEAGE_KEYS[i]) != Null
    ensures LineageKey(e) == Some(Between(parts, BAR))
  {
    hide Parts, Between;
    assert LINEAGE_KEYS[0] == "agent_execution_id" && LINEAGE_KEYS[1] == "subscription_attempt_id";
  }

  lemma JoinTwo(first: string, last: string)
    ensures Between([first], BAR) == first && Between([first, last], BAR) == first + BAR + last
  {
    assert [first, last][1..] == [last];
  }

  lemma IdentifierIff(s: string)
    ensures IsIdentifier(Str(s)) <==> s != "" && !IsSpace(s[0]) && !IsSpace(s[|s| - 1])
  {
    hide Trim, IsSpace;
    if s != "" {
      TrimmedIff(s);
    } else {
      TrimStartKeeps(s);
      TrimEndKeeps(s);
    }
  }

  function PartText(i: nat, v: string): string
    requires i < |LINEAGE_KEYS|
  {
    LINEAGE_KEYS[i] + ":" + v
  }

  function SplitText(v: string, m: nat, w: string): string
    requires m < |LINEAGE_KEYS|
  {
    v + BAR + PartText(m, w)
  }

  /** A value reads as v, a bar, the key numbered m, a colon and w. */
  ghost predicate SplitsAt(value: string, v: string, m: int, w: string) {
    && 0 <= m < |LINEAGE_KEYS|
    && value == SplitText(v, m, w)
    && IsIdentifier(Str(v)) && IsIdentifier(Str(w))
  }

  lemma SplitIsIdentifier(value: string, v: string, m: int, w: string)
    requires SplitsAt(value, v, m, w)
    ensures IsIdentifier(Str(value))
  {
    hide IsIdentifier, IsSpace;
    IdentifierIff(v);
    IdentifierIff(w);
    IdentifierIff(value);
    assert value[0] == v[0] && value[|value| - 1] == w[|w| - 1];
  }

  /**
   Everything behind the first key of a lineage key is itself a trimmed value; with more than one identity
   it splits at the next one.
   */
  lemma {:induction false} Merged(p: JObj, n: nat) returns (i: nat, value: string, m: int, w: string)
    requires n <= |LINEAGE_KEYS| && Parts(p, LINEAGE_KEYS[n..]).Some? && Parts(p, LINEAGE_KEYS[n..]).value != []
    ensures n <= i < |LINEAGE_KEYS| && Get(p, LINEAGE_KEYS[i]).Str? && IsIdentifier(Str(value))
    ensures var parts := Parts(p, LINEAGE_KEYS[n..]).value;
      && Between(parts, BAR) == PartText(i, value)
      && (if |parts| == 1 then value == Get(p, LINEAGE_KEYS[i]).s
          else i < m < |LINEAGE_KEYS| && SplitsAt(value, Get(p, LINEAGE_KEYS[i]).s, m, w) && Get(p, LINEAGE_KEYS[m]).Str?)
    ensures forall j :: n <= j < i ==> Get(p, LINEAGE_KEYS[j]).Null?
    ensures Parts(p, LINEAGE_KEYS[i + 1..]) == Some(Parts(p, LINEAGE_KEYS[n..]).value[1..])
    decreases |LINEAGE_KEYS| - n
  {
    hide IsIdentifier, IsSpace, Parts, Between, SplitsAt, PartText, SplitText;
    var parts := Parts(p, LINEAGE_KEYS[n..]).value;
    var v: string;
    i, v := FirstFrom(p, n);
    m, w := 0, "";
    value := v;
    JoinMore(parts);
    if |parts| > 1 {
      var next, rest, _, _ := Merged(p, i + 1);
      m, w := next, rest;
      value := SplitText(v, m, w);
      MakesSplit(v, m, w);
      JoinsSplit(i, v, m, w);
    }
  }

  /** `FirstPart` for the keys from the n-th on. */
  lemma FirstFrom(p: JObj, n: nat) returns (i: nat, v: string)
    requires n <= |LINEAGE_KEYS| && Parts(p, LINEAGE_KEYS[n..]).Some? && Parts(p, LINEAGE_KEYS[n..]).value != []
    ensures n <= i < |LINEAGE_KEYS| && Get(p, LINEAGE_KEYS[i]) == Str(v) && IsIdentifier(Str(v))
    ensures Parts(p, LINEAGE_KEYS[n..]).value[0] == PartText(i, v)
    ensures Parts(p, LINEAGE_KEYS[i + 1..]) == Some(Parts(p, LINEAGE_KEYS[n..]).value[1..])
    ensures forall j :: n <= j < i ==> Get(p, LINEAGE_KEYS[j]).Null?
  {
    hide IsIdentifier, Parts;
    var keys := LINEAGE_KEYS[n..];
    var k := FirstPart(p, keys);
    i := n + k;
    assert keys[k] == LINEAGE_KEYS[i] && keys[k + 1..] == LINEAGE_KEYS[i + 1..];
    assert forall j :: n <= j < i ==> LINEAGE_KEYS[j] == keys[j - n];
    v := Get(p, LINEAGE_KEYS[i]).s;
  }

  lemma JoinMore(parts: seq<string>)
    requires parts != []
    ensures Between(parts, BAR) == if |parts| == 1 then parts[0] else parts[0] + BAR + Between(parts[1..], BAR)
  {
  }

  lemma JoinsSplit(i: nat, v: string, m: nat, w: string)
    requires i < |LINEAGE_KEYS| && m < |LINEAGE_KEYS|
    ensures PartText(i, v) + BAR + PartText(m, w) == PartText(i, SplitText(v, m, w))
  {
    hide PartText;
    var k, tail := LINEAGE_KEYS[i], BAR + PartText(m, w);
    assert PartText(i, v) == k + ":" + v && PartText(i, SplitText(v, m, w)) == k + ":" + SplitText(v, m, w) by {
      PartTextIs(i, v);
      PartTextIs(i, SplitText(v, m, w));
    }
    assert (k + ":") + v + tail == (k + ":") + (v + tail);
  }

  lemma PartTextIs(i: nat, v: string)
    requires i < |LINEAGE_KEYS|
    ensures PartText(i, v) == LINEAGE_KEYS[i] + ":" + v
  {
  }

  lemma MakesSplit(v: string, m: int, w: string)
    requires 0 <= m < |LINEAGE_KEYS| && IsIdentifier(Str(v)) && IsIdentifier(Str(w))
    ensures SplitsAt(SplitText(v, m, w), v, m, w) && IsIdentifier(Str(SplitText(v, m, w)))
  {
    hide IsIdentifier;
    SplitIsIdentifier(SplitText(v, m, w), v, m, w);
  }

  /** Exactly one identity is present. */
  ghost predicate Only(p: JObj, i: int) {
    0 <= i < |LINEAGE_KEYS| && forall j :: 0 <= j < |LINEAGE_KEYS| ==> (Get(p, LINEAGE_KEYS[j]).Null? <==> j != i)
  }

  /** One identity is present, and its value cannot be read as a value of its own and a later identity. */
  ghost predicate Unambiguous(p: JObj) {
    exists i :: Only(p, i) && Get(p, LINEAGE_KEYS[i]).Str? && Unsplit(Get(p, LINEAGE_KEYS[i]).s, i)
  }

  ghost predicate Unsplit(value: string, i: int) {
    forall v, m, w :: i < m ==> !SplitsAt(value, v, m, w)
  }

  lemma OnePart(p: JObj, i: nat)
    requires i < |LINEAGE_KEYS| && !Get(p, LINEAGE_KEYS[i]).Null?
    requires forall j :: 0 <= j < i ==> Get(p, LINEAGE_KEYS[j]).Null?
    requires Parts(p, LINEAGE_KEYS[i + 1..]) == Some([])
    ensures Only(p, i)
  {
    hide Parts;
    forall j | i < j < |LINEAGE_KEYS| ensures Get(p, LINEAGE_KEYS[j]).Null? {
      NoPartsNoValues(p, LINEAGE_KEYS[i + 1..], j - i - 1);
    }
  }

  lemma ReadsAlone(a: Event, b: Event)
    requires LineageKey(a).Some? && LineageKey(b) == LineageKey(a) && Unambiguous(PayloadOf(a))
    ensures Lineage(PayloadOf(b)) == Lineage(PayloadOf(a))
  {
    hide IsIdentifier, Parts, Between, SplitsAt, Lineage;
    var p, q := PayloadOf(a), PayloadOf(b);
    SomeParts(a);
    SomeParts(b);
    assert LINEAGE_KEYS[0..] == LINEAGE_KEYS;
    var i :| Only(p, i) && Get(p, LINEAGE_KEYS[i]).Str? && Unsplit(Get(p, LINEAGE_KEYS[i]).s, i);
    var k, value, m, w := Merged(p, 0);
    var l, other, n, x := Merged(q, 0);
    KeysAreNames();
    KeyIsJoined(a);
    KeyIsJoined(b);
    FirstColon(LINEAGE_KEYS[k], LINEAGE_KEYS[l], value, other);
    assert k == i && l == i;
    var parts := Parts(q, LINEAGE_KEYS).value;
    assert |parts| == 1;
    assert parts[1..] == [];
    OnePart(q, i);
    SameLineage(p, q);
  }

  /** An ambiguous lineage has a rival: another lineage with the same key. */
  lemma Rival(a: Event) returns (b: Event)
    requires LineageKey(a).Some? && !Unambiguous(PayloadOf(a))
    ensures LineageKey(b) == LineageKey(a) && Lineage(PayloadOf(b)) != Lineage(PayloadOf(a))
  {
    hide IsIdentifier, Parts, Between, LineageKey, Lineage;
    var p := PayloadOf(a);
    SomeParts(a);
    KeyIsJoined(a);
    assert LINEAGE_KEYS[0..] == LINEAGE_KEYS;
    var i, value, m, w := Merged(p, 0);
    var text := LINEAGE_KEYS[i] + ":" + value;
    KeysAreNames();
    if |Parts(p, LINEAGE_KEYS).value| > 1 {
      var q: JObj := map[LINEAGE_KEYS[i] := Str(value)];
      b := a.(payload := Some(q));
      AloneFrom(q, i, value, 0);
      KeyOfParts(b, [text], i);
      JoinTwo(text, "");
      DifferentLineage(p, q, m);
    } else {
      assert Parts(p, LINEAGE_KEYS).value[1..] == [];
      OnePart(p, i);
      assert !Unsplit(value, i);
      var v, n, x :| i < n && SplitsAt(value, v, n, x);
      var q: JObj := map[LINEAGE_KEYS[i] := Str(v), LINEAGE_KEYS[n] := Str(x)];
      b := a.(payload := Some(q));
      var first, last := LINEAGE_KEYS[i] + ":" + v, LINEAGE_KEYS[n] + ":" + x;
      PairFrom(q, i, n, v, x, 0);
      KeyOfParts(b, [first, last], i);
      JoinTwo(first, last);
      assert first + BAR + last == text;
      DifferentLineage(p, q, n);
    }
  }

  /** The key is the joined parts, and the first present identity is one of the two that a key needs. */
  lemma KeyIsJoined(e: Event)
    requires LineageKey(e).Some?
    ensures Parts(PayloadOf(e), LINEAGE_KEYS).Some?
    ensures LineageKey(e) == Some(Between(Parts(PayloadOf(e), LINEAGE_KEYS).value, BAR))
    ensures !Get(PayloadOf(e), LINEAGE_KEYS[0]).Null? || !Get(PayloadOf(e), LINEAGE_KEYS[1]).Null?
  {
    hide Parts, Between;
    assert LINEAGE_KEYS[0] == "agent_execution_id" && LINEAGE_KEYS[1] == "subscription_attempt_id";
  }

  lemma DifferentLineage(p: JObj, q: JObj, i: int)
    requires 0 <= i < |LINEAGE_KEYS| && Get(p, LINEAGE_KEYS[i]) != Get(q, LINEAGE_KEYS[i])
    ensures Lineage(p) != Lineage(q)
  {
    assert LINEAGE_KEYS[0] == "agent_execution_id" && LINEAGE_KEYS[1] == "subscription_attempt_id";
    assert LINEAGE_KEYS[2] == "subscription_task_id" && LINEAGE_KEYS[3] == "step_id";
  }

  /**
   A lineage key stands for one lineage exactly when a single identity is present whose value does not
   split at the name of a later one.
   */
  lemma KeyNamesLineageIff(a: Event)
    requires LineageKey(a).Some?
    ensures (forall b :: LineageKey(b) == LineageKey(a) ==> Lineage(PayloadOf(b)) == Lineage(PayloadOf(a)))
       <==> Unambiguous(PayloadOf(a))
  {
    hide LineageKey, Lineage, Unambiguous;
    if Unambiguous(PayloadOf(a)) {
      forall b | LineageKey(b) == LineageKey(a) ensures Lineage(PayloadOf(b)) == Lineage(PayloadOf(a)) {
        ReadsAlone(a, b);
      }
    } else {
      var b := Rival(a);
    }
  }

  lemma SmallIdentifiers()
    ensures IsIdentifier(Str("x|step_id:y")) && IsIdentifier(Str("x")) && IsIdentifier(Str("y"))
  {
  }

  /** With a bar inside a value, two different lineages share a key. */
  lemma BarsCanCollide(a: Event, b: Event)
    requires a.payload == Some(map["agent_execution_id" := Str("x|step_id:y")])
    requires b.payload == Some(map["agent_execution_id" := Str("x"), "step_id" := Str("y")])
    ensures LineageKey(a).Some? && LineageKey(a) == LineageKey(b)
    ensures Lineage(PayloadOf(a)) != Lineage(PayloadOf(b))
  {
    hide IsIdentifier, Parts, Trim, LineageKey, Between;
    SmallIdentifiers();
    assert LINEAGE_KEYS[0..] == LINEAGE_KEYS;
    AloneFrom(PayloadOf(a), 0, "x|step_id:y", 0);
    PairFrom(PayloadOf(b), 0, 3, "x", "y", 0);
    var merged := "agent_execution_id" + ":" + "x|step_id:y";
    var first, last := "agent_execution_id" + ":" + "x", "step_id" + ":" + "y";
    KeyOfParts(a, [merged], 0);
    KeyOfParts(b, [first, last], 0);
    JoinTwo(merged, "");
    JoinTwo(first, last);
    assert first + BAR + last == merged;
  }
}
