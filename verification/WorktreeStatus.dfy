/** The Git status parser and the bytes a candidate's working tree is identified by. */
module WorktreeStatus {
  import opened Prelude
  import opened Framing

  const NUL: char := '\0'
  const SEP: string := [NUL]

  datatype Entry = Entry(status: string, path: string, origin: Option<string>)

  // ---- parsing ----

  function Tokens(raw: string): seq<string> {
    Split(raw, SEP)
  }

  predicate Malformed(token: string) {
    |token| < 4 || token[2] != ' '
  }

  predicate HasOrigin(status: string) {
    'R' in status || 'C' in status
  }

  /** `None` is the parse error. */
  function Entries(tokens: seq<string>): Option<seq<Entry>>
    decreases |tokens|
  {
    if tokens == [] then Some([])
    else if tokens[0] == "" then Entries(tokens[1..])
    else if Malformed(tokens[0]) then None
    else
      var status, path := tokens[0][..2], tokens[0][3..];
      var paired := HasOrigin(status) && |tokens| > 1;
      match Entries(if paired then tokens[2..] else tokens[1..])
      case None => None
      case Some(rest) => Some([Entry(status, path, if paired then Some(tokens[1]) else None)] + rest)
  }

  function ParseStatus(raw: string): Option<seq<Entry>> {
    Entries(Tokens(raw))
  }

  function Onto(front: seq<Entry>, rest: Option<seq<Entry>>): Option<seq<Entry>> {
    if rest.None? then None else Some(front + rest.value)
  }

  method ParseWorktreeStatus(raw: string) returns (r: Option<seq<Entry>>)
    ensures r == ParseStatus(raw)
  {
    hide Drain, Find;
    var tokens := Tokens(raw);
    var entries: seq<Entry> := [];
    var i := 0;
    assert tokens[0..] == tokens;
    NothingBefore(Entries(tokens));
    while i < |tokens|
      invariant 0 <= i <= |tokens|
      invariant Entries(tokens) == Onto(entries, Entries(tokens[i..]))
      decreases |tokens| - i
    {
      ghost var todo := tokens[i..];
      assert todo[1..] == tokens[i + 1..];
      var token := tokens[i];
      if token == "" {
        i := i + 1;
        continue;
      }
      if Malformed(token) {
        return None;
      }
      var status, path := token[..2], token[3..];
      var origin: Option<string> := None;
      if HasOrigin(status) && i + 1 < |tokens| {
        assert todo[2..] == tokens[i + 2..];
        i := i + 1;
        origin := Some(tokens[i]);
      }
      OneMore(entries, Entry(status, path, origin), Entries(tokens[i + 1..]));
      entries := entries + [Entry(status, path, origin)];
      i := i + 1;
    }
    assert entries + [] == entries;
    r := Some(entries);
  }

  lemma NothingBefore(rest: Option<seq<Entry>>)
    ensures Onto([], rest) == rest
  {
    if rest.Some? {
      assert [] + rest.value == rest.value;
    }
  }

  lemma OneMore(front: seq<Entry>, e: Entry, rest: Option<seq<Entry>>)
    ensures Onto(front, Onto([e], rest)) == Onto(front + [e], rest)
  {
    if rest.Some? {
      assert front + ([e] + rest.value) == front + [e] + rest.value;
    }
  }

  // ---- printing and parsing back ----

  ghost predicate WellFormed(e: Entry) {
    && |e.status| == 2 && e.path != ""
    && NUL !in e.status && NUL !in e.path && (e.origin.Some? ==> NUL !in e.origin.value)
    && (e.origin.Some? <==> HasOrigin(e.status))
  }

  function EntryTokens(e: Entry): seq<string> {
    [e.status + " " + e.path] + (if e.origin.Some? then [e.origin.value] else [])
  }

  function AllTokens(entries: seq<Entry>): seq<string> {
    if entries == [] then [] else EntryTokens(entries[0]) + AllTokens(entries[1..])
  }

  function PrintStatus(entries: seq<Entry>): string {
    Joined(AllTokens(entries), SEP)
  }

  lemma {:induction false} TokensAreNulFree(entries: seq<Entry>)
    requires forall i :: 0 <= i < |entries| ==> WellFormed(entries[i])
    ensures Unmarked(AllTokens(entries), NUL)
  {
    hide HasOrigin;
    if entries != [] {
      TokensAreNulFree(entries[1..]);
      assert WellFormed(entries[0]);
    }
  }

  lemma {:induction false} EntriesAreReadBack(entries: seq<Entry>)
    requires forall i :: 0 <= i < |entries| ==> WellFormed(entries[i])
    ensures Entries(AllTokens(entries) + [""]) == Some(entries)
  {
    hide HasOrigin;
    if entries == [] {
      assert [] + [""] == [""] && [""][1..] == [];
    } else {
      var e, rest := entries[0], AllTokens(entries[1..]) + [""];
      assert WellFormed(e);
      var tokens := AllTokens(entries) + [""];
      var first := e.status + " " + e.path;
      assert tokens == EntryTokens(e) + rest;
      assert tokens[0] == first && first[..2] == e.status && first[3..] == e.path && first[2] == ' ';
      if e.origin.Some? {
        assert tokens[1] == e.origin.value && tokens[2..] == rest;
      } else {
        assert tokens[1..] == rest;
      }
      EntriesAreReadBack(entries[1..]);
      assert entries == [e] + entries[1..];
    }
  }

  /** Any list of NUL-free entries survives printing and parsing, rename and copy sources included. */
  lemma ParseUndoesPrint(entries: seq<Entry>)
    requires forall i :: 0 <= i < |entries| ==> WellFormed(entries[i])
    ensures ParseStatus(PrintStatus(entries)) == Some(entries)
  {
    hide Drain, Joined, AllTokens, Entries, WellFormed;
    TokensAreNulFree(entries);
    DrainUndoesJoined(AllTokens(entries), NUL);
    EntriesAreReadBack(entries);
  }

  // ---- the order of paths ----

  predicate Less(s: string, t: string) {
    t != "" && (s == "" || s[0] < t[0] || (s[0] == t[0] && Less(s[1..], t[1..])))
  }

  lemma {:induction false} LessIsTotal(s: string, t: string)
    ensures s != t ==> Less(s, t) || Less(t, s)
    ensures !(Less(s, t) && Less(t, s)) && !Less(s, s)
    decreases |s|
  {
    if s != "" {
      LessIsTotal(s[1..], s[1..]);
      if t != "" && s[0] == t[0] {
        LessIsTotal(s[1..], t[1..]);
        assert s == [s[0]] + s[1..] && t == [t[0]] + t[1..];
      }
    }
  }

  lemma {:induction false} LessIsTransitive(s: string, t: string, u: string)
    requires Less(s, t) && Less(t, u)
    ensures Less(s, u)
  {
    if s != "" && s[0] == t[0] == u[0] {
      LessIsTransitive(s[1..], t[1..], u[1..]);
    }
  }

  /** Puts an entry before the first one with a greater path, so equal paths keep their order. */
  function Insert(e: Entry, sorted: seq<Entry>): seq<Entry> {
    if sorted == [] || Less(e.path, sorted[0].path) then [e] + sorted
    else [sorted[0]] + Insert(e, sorted[1..])
  }

  function SortByPath(entries: seq<Entry>): seq<Entry> {
    if entries == [] then [] else Insert(entries[|entries| - 1], SortByPath(entries[..|entries| - 1]))
  }

  ghost predicate Sorted(entries: seq<Entry>) {
    forall i, j :: 0 <= i < j < |entries| ==> !Less(entries[j].path, entries[i].path)
  }

  ghost predicate DistinctPaths(entries: multiset<Entry>) {
    && (forall e :: e in entries ==> entries[e] == 1)
    && (forall e, f :: e in entries && f in entries && e.path == f.path ==> e == f)
  }

  lemma NotBelow(s: string, t: string, u: string)
    requires !Less(s, u) && Less(t, u)
    ensures !Less(s, t)
  {
    if Less(s, t) {
      LessIsTransitive(s, t, u);
    }
  }

  lemma FrontInsert(e: Entry, sorted: seq<Entry>)
    requires Sorted(sorted) && (sorted == [] || Less(e.path, sorted[0].path))
    ensures Sorted([e] + sorted) && multiset([e] + sorted) == multiset(sorted) + multiset{e}
  {
    hide Less;
    var r := [e] + sorted;
    forall j | 0 < j < |r| ensures !Less(r[j].path, e.path) {
      assert !Less(r[j].path, sorted[0].path) by { LessIsTotal(r[j].path, sorted[0].path); }
      NotBelow(r[j].path, e.path, sorted[0].path);
    }
  }

  lemma BackInsert(head: Entry, rest: seq<Entry>, e: Entry, more: seq<Entry>)
    requires Sorted([head] + rest) && Sorted(more) && multiset(more) == multiset(rest) + multiset{e}
    requires !Less(e.path, head.path)
    ensures Sorted([head] + more) && multiset([head] + more) == multiset([head] + rest) + multiset{e}
  {
    hide Less;
    var r, all := [head] + more, [head] + rest;
    forall j | 0 < j < |r| ensures !Less(r[j].path, head.path) {
      assert r[j] in multiset(more);
      if r[j] != e {
        assert r[j] in rest;
        var k :| 0 <= k < |rest| && rest[k] == r[j];
        assert all[k + 1] == r[j] && all[0] == head && !Less(all[k + 1].path, all[0].path);
      }
    }
  }

  lemma {:induction false} InsertKeepsSorted(e: Entry, sorted: seq<Entry>)
    requires Sorted(sorted)
    ensures Sorted(Insert(e, sorted))
    ensures multiset(Insert(e, sorted)) == multiset(sorted) + multiset{e}
  {
    hide Less, Sorted;
    if sorted == [] || Less(e.path, sorted[0].path) {
      FrontInsert(e, sorted);
    } else {
      TailIsSorted(sorted);
      InsertKeepsSorted(e, sorted[1..]);
      assert sorted == [sorted[0]] + sorted[1..];
      BackInsert(sorted[0], sorted[1..], e, Insert(e, sorted[1..]));
    }
  }

  lemma TailIsSorted(sorted: seq<Entry>)
    requires Sorted(sorted) && sorted != []
    ensures Sorted(sorted[1..])
  {
    hide Less;
  }

  lemma {:induction false} SortSorts(entries: seq<Entry>)
    ensures Sorted(SortByPath(entries)) && multiset(SortByPath(entries)) == multiset(entries)
  {
    if entries != [] {
      var front := entries[..|entries| - 1];
      SortSorts(front);
      InsertKeepsSorted(entries[|entries| - 1], SortByPath(front));
      assert entries == front + [entries[|entries| - 1]];
    }
  }

  ghost predicate StrictlySorted(entries: seq<Entry>) {
    forall i, j :: 0 <= i < j < |entries| ==> Less(entries[i].path, entries[j].path)
  }

  lemma Twice(entries: seq<Entry>, i: nat, j: nat)
    requires i < j < |entries| && entries[i] == entries[j]
    ensures multiset(entries)[entries[i]] >= 2
  {
    assert entries == entries[..j] + entries[j..];
    assert entries[i] in entries[..j] && entries[j] in entries[j..];
  }

  lemma SortedIsStrict(entries: seq<Entry>)
    requires Sorted(entries) && DistinctPaths(multiset(entries))
    ensures StrictlySorted(entries)
  {
    hide Less;
    forall i, j | 0 <= i < j < |entries| ensures Less(entries[i].path, entries[j].path) {
      LessIsTotal(entries[i].path, entries[j].path);
      if entries[i].path == entries[j].path {
        assert entries[i] in multiset(entries) && entries[j] in multiset(entries);
        Twice(entries, i, j);
      }
    }
  }

  lemma SameHead(s: seq<Entry>, t: seq<Entry>)
    requires StrictlySorted(s) && StrictlySorted(t) && multiset(s) == multiset(t) && s != [] && t != []
    ensures s[0] == t[0]
  {
    hide Less;
    assert s[0] in multiset(t) && t[0] in multiset(s);
    LessIsTotal(s[0].path, t[0].path);
  }

  lemma SameTail(s: seq<Entry>, t: seq<Entry>)
    requires multiset(s) == multiset(t) && s != [] && t != [] && s[0] == t[0]
    ensures multiset(s[1..]) == multiset(t[1..])
  {
    assert s == [s[0]] + s[1..] && t == [t[0]] + t[1..];
    assert multiset(s[1..]) == multiset(s) - multiset{s[0]} && multiset(t[1..]) == multiset(t) - multiset{t[0]};
  }

  /** Sorted lists of entries with distinct paths are determined by what they hold. */
  lemma {:induction false} SortedListIsUnique(s: seq<Entry>, t: seq<Entry>)
    requires StrictlySorted(s) && StrictlySorted(t) && multiset(s) == multiset(t)
    ensures s == t
    decreases |s|
  {
    hide Less;
    assert |s| == |multiset(s)| == |multiset(t)| == |t|;
    if s != [] {
      SameHead(s, t);
      SameTail(s, t);
      SortedListIsUnique(s[1..], t[1..]);
      assert s == [s[0]] + s[1..] && t == [t[0]] + t[1..];
    }
  }

  // ---- the identity ----

  /** Reads one working-tree path under a status; `None` is a path that cannot be read. */
  type Reader = (string, string) -> Option<string>

  predicate IsHex(c: char) {
    '0' <= c <= '9' || 'a' <= c <= 'f' || 'A' <= c <= 'F'
  }

  /** The text holds a backslash, an x and two hexadecimal digits. */
  predicate Mangled(s: string) {
    exists i :: 0 <= i < |s| - 3 && s[i] == '\\' && s[i + 1] == 'x' && IsHex(s[i + 2]) && IsHex(s[i + 3])
  }

  predicate Refused(e: Entry) {
    Mangled(e.path) || (e.origin.Some? && Mangled(e.origin.value))
  }

  /** The four fields of an entry; an absent and an empty origin are written alike. */
  function Fields(e: Entry, digest: string): seq<string> {
    [e.status, e.path, e.origin.Or(""), digest]
  }

  function AllFields(read: Reader, entries: seq<Entry>): Option<seq<string>> {
    if entries == [] then Some([])
    else
      var e := entries[0];
      if Refused(e) || read(e.path, e.status).None? then None
      else
        match AllFields(read, entries[1..])
        case None => None
        case Some(rest) => Some(Fields(e, read(e.path, e.status).value) + rest)
  }

  /** What the hash is fed; `None` is an error on some entry. */
  function Feed(read: Reader, entries: seq<Entry>): Option<string> {
    match AllFields(read, SortByPath(entries))
    case None => None
    case Some(fields) => Some(Joined(fields, SEP))
  }

  lemma {:induction false} JoinedAppend(a: seq<string>, b: seq<string>)
    ensures Joined(a + b, SEP) == Joined(a, SEP) + Joined(b, SEP)
  {
    if a == [] {
      assert a + b == b;
    } else {
      assert (a + b)[1..] == a[1..] + b;
      JoinedAppend(a[1..], b);
      assert a[0] + SEP + (Joined(a[1..], SEP) + Joined(b, SEP)) == a[0] + SEP + Joined(a[1..], SEP) + Joined(b, SEP);
    }
  }

  lemma JoinedFields(e: Entry, digest: string)
    ensures Joined(Fields(e, digest), SEP) == e.status + SEP + e.path + SEP + e.origin.Or("") + SEP + digest + SEP
  {
    var f := Fields(e, digest);
    assert f[1..][1..] == f[2..] && f[2..][1..] == f[3..] && f[3..][1..] == [];
    assert Joined(f[3..], SEP) == digest + SEP;
    assert Joined(f[2..], SEP) == e.origin.Or("") + SEP + (digest + SEP);
    assert Joined(f[1..], SEP) == e.path + SEP + (e.origin.Or("") + SEP + (digest + SEP));
  }

  /** Feeds the hash entry by entry; parsing errors and unreadable or mangled paths give no digest. */
  method ComputeWorktreeDigest(read: Reader, raw: string) returns (fed: Option<string>)
    ensures fed == if ParseStatus(raw).None? then None else Feed(read, ParseStatus(raw).value)
  {
    hide Joined, Mangled, Fields, SortByPath, Entries, Tokens;
    var entries := ParseWorktreeStatus(raw);
    if entries.None? {
      return None;
    }
    if entries.value == [] {
      NothingFed(read);
      return Some("");
    }
    var sorted := SortByPath(entries.value);
    var bytes := "";
    ghost var done: seq<string> := [];
    assert sorted[0..] == sorted;
    NothingJoined([], AllFields(read, sorted));
    for i := 0 to |sorted|
      invariant bytes == Joined(done, SEP)
      invariant AllFields(read, sorted) == Fed(done, AllFields(read, sorted[i..]))
    {
      assert sorted[i..][1..] == sorted[i + 1..];
      var e := sorted[i];
      if Mangled(e.path) || (e.origin.Some? && Mangled(e.origin.value)) {
        return None;
      }
      var digest := read(e.path, e.status);
      if digest.None? {
        return None;
      }
      JoinedAppend(done, Fields(e, digest.value));
      JoinedFields(e, digest.value);
      FedOn(done, Fields(e, digest.value), AllFields(read, sorted[i + 1..]));
      done := done + Fields(e, digest.value);
      bytes := bytes + (e.status + SEP + e.path + SEP + e.origin.Or("") + SEP + digest.value + SEP);
    }
    assert done + [] == done;
    fed := Some(bytes);
  }

  function Fed(done: seq<string>, rest: Option<seq<string>>): Option<seq<string>> {
    if rest.None? then None else Some(done + rest.value)
  }

  lemma FedOn(done: seq<string>, more: seq<string>, rest: Option<seq<string>>)
    ensures Fed(done, Fed(more, rest)) == Fed(done + more, rest)
  {
    if rest.Some? {
      assert done + (more + rest.value) == done + more + rest.value;
    }
  }

  lemma NothingJoined(none: seq<string>, rest: Option<seq<string>>)
    requires none == []
    ensures Joined(none, SEP) == "" && Fed(none, rest) == rest
  {
    if rest.Some? {
      assert none + rest.value == rest.value;
    }
  }

  lemma NothingFed(read: Reader)
    ensures Feed(read, []) == Some("")
  {
  }

  /** Entries with distinct paths feed the same bytes in whatever order they were reported. */
  lemma OrderIsIrrelevant(read: Reader, a: seq<Entry>, b: seq<Entry>)
    requires multiset(a) == multiset(b) && DistinctPaths(multiset(a))
    ensures Feed(read, a) == Feed(read, b)
  {
    hide SortByPath, AllFields, Joined, Sorted, StrictlySorted;
    SortSorts(a);
    SortSorts(b);
    SortedIsStrict(SortByPath(a));
    SortedIsStrict(SortByPath(b));
    SortedListIsUnique(SortByPath(a), SortByPath(b));
  }

  ghost predicate Hashable(read: Reader, e: Entry) {
    && NUL !in e.status && NUL !in e.path && NUL !in e.origin.Or("")
    && (read(e.path, e.status).Some? ==> NUL !in read(e.path, e.status).value)
  }

  lemma {:induction false} FieldsAreNulFree(read: Reader, entries: seq<Entry>)
    requires AllFields(read, entries).Some?
    requires forall i :: 0 <= i < |entries| ==> Hashable(read, entries[i])
    ensures var fields := AllFields(read, entries).value;
      |fields| == 4 * |entries| && Unmarked(fields, NUL)
  {
    hide Mangled;
    if entries != [] {
      FieldsAreNulFree(read, entries[1..]);
      assert Hashable(read, entries[0]);
    }
  }

  /** The status, path, source and content digest of each entry. */
  ghost predicate SameRecord(a: Entry, readA: Reader, b: Entry, readB: Reader) {
    && a.status == b.status && a.path == b.path && a.origin.Or("") == b.origin.Or("")
    && readA(a.path, a.status) == readB(b.path, b.status)
  }

  lemma {:induction false} FieldsDetermineRecords(readA: Reader, a: seq<Entry>, readB: Reader, b: seq<Entry>)
    requires |a| == |b| && AllFields(readA, a).Some? && AllFields(readB, b).Some?
    ensures AllFields(readA, a) == AllFields(readB, b) <==> forall i :: 0 <= i < |a| ==> SameRecord(a[i], readA, b[i], readB)
  {
    hide Mangled;
    if a != [] {
      FieldsDetermineRecords(readA, a[1..], readB, b[1..]);
      var x, y := AllFields(readA, a).value, AllFields(readB, b).value;
      var restA, restB := AllFields(readA, a[1..]).value, AllFields(readB, b[1..]).value;
      assert x[..4] == Fields(a[0], readA(a[0].path, a[0].status).value) && x[4..] == restA;
      assert y[..4] == Fields(b[0], readB(b[0].path, b[0].status).value) && y[4..] == restB;
      assert x == y <==> x[..4] == y[..4] && x[4..] == y[4..] by { assert x == x[..4] + x[4..] && y == y[..4] + y[4..]; }
      assert x[..4] == y[..4] <==> SameRecord(a[0], readA, b[0], readB) by { SameFields(a[0], readA, b[0], readB); }
      if forall i :: 0 <= i < |a| ==> SameRecord(a[i], readA, b[i], readB) {
        forall i | 0 <= i < |a| - 1 ensures SameRecord(a[1..][i], readA, b[1..][i], readB) {
          assert SameRecord(a[i + 1], readA, b[i + 1], readB);
        }
      }
      if AllFields(readA, a) == AllFields(readB, b) {
        forall i | 0 <= i < |a| ensures SameRecord(a[i], readA, b[i], readB) {
          if i > 0 { assert SameRecord(a[1..][i - 1], readA, b[1..][i - 1], readB); }
        }
      }
    }
  }

  lemma SameFields(a: Entry, readA: Reader, b: Entry, readB: Reader)
    requires readA(a.path, a.status).Some? && readB(b.path, b.status).Some?
    ensures Fields(a, readA(a.path, a.status).value) == Fields(b, readB(b.path, b.status).value)
         <==> SameRecord(a, readA, b, readB)
  {
    var f, g := Fields(a, readA(a.path, a.status).value), Fields(b, readB(b.path, b.status).value);
    assert f[0] == a.status && f[1] == a.path && f[2] == a.origin.Or("") && f[3] == readA(a.path, a.status).value;
    assert g[0] == b.status && g[1] == b.path && g[2] == b.origin.Or("") && g[3] == readB(b.path, b.status).value;
  }

  predicate IsHexDigit(c: char) {
    c in "0123456789abcdefABCDEF"
  }

  predicate EscapeAt(s: string, i: int) {
    0 <= i <= |s| - 4 && s[i] == '\\' && s[i + 1] == 'x'
    && IsHexDigit(s[i + 2]) && IsHexDigit(s[i + 3])
  }

  /** A path holds the trace of a byte that could not be decoded. */
  ghost predicate HoldsEscape(s: string) {
    exists i :: EscapeAt(s, i)
  }

  ghost predicate Digestible(read: Reader, e: Entry) {
    !HoldsEscape(e.path) && !HoldsEscape(e.origin.Or("")) && read(e.path, e.status).Some?
  }

  lemma MangledIff(s: string)
    ensures Mangled(s) <==> HoldsEscape(s)
  {
    hide IsHex, IsHexDigit;
    forall c { HexIs(c); }
    if i :| 0 <= i < |s| - 3 && s[i] == '\\' && s[i + 1] == 'x' && IsHex(s[i + 2]) && IsHex(s[i + 3]) {
      assert EscapeAt(s, i);
    }
  }

  lemma HexIs(c: char)
    ensures IsHex(c) <==> IsHexDigit(c)
  {
  }

  lemma {:induction false} FieldsExistIff(read: Reader, entries: seq<Entry>)
    ensures AllFields(read, entries).Some? <==> forall e :: e in entries ==> Digestible(read, e)
  {
    hide Mangled, HoldsEscape, Fields, Digestible, Refused;
    if entries != [] {
      FieldsExistIff(read, entries[1..]);
      DigestibleIff(read, entries[0]);
      forall e ensures e in entries <==> e == entries[0] || e in entries[1..] {
        assert entries == [entries[0]] + entries[1..];
      }
    }
  }

  lemma DigestibleIff(read: Reader, e: Entry)
    ensures Digestible(read, e) <==> !Refused(e) && read(e.path, e.status).Some?
  {
    hide Mangled, HoldsEscape;
    MangledIff(e.path);
    MangledIff(e.origin.Or(""));
    NothingMangled();
  }

  lemma NothingMangled()
    ensures !Mangled("")
  {
  }

  /** The tree can be digested exactly when every path and source is clean and every file can be read. */
  lemma FeedSucceedsIff(read: Reader, entries: seq<Entry>)
    ensures Feed(read, entries).Some? <==> forall e :: e in entries ==> Digestible(read, e)
  {
    hide SortByPath, AllFields, Digestible, Joined;
    FieldsExistIff(read, SortByPath(entries));
    SortSorts(entries);
    forall e ensures e in entries <==> e in SortByPath(entries) {
      assert e in multiset(entries) <==> e in multiset(SortByPath(entries));
    }
  }

  lemma SortOne(e: Entry)
    ensures SortByPath([e]) == [e]
  {
    assert [e][..0] == [];
  }

  /** What one entry feeds: its status, path, source and content digest, each behind which a NUL stands. */
  lemma FeedOfOne(read: Reader, e: Entry)
    requires Digestible(read, e)
    ensures Feed(read, [e]) ==
      Some(e.status + "\0" + e.path + "\0" + e.origin.Or("") + "\0" + read(e.path, e.status).value + "\0")
  {
    hide Mangled, HoldsEscape, Joined;
    assert [e][1..] == [];
    MangledIff(e.path);
    MangledIff(e.origin.Or(""));
    var digest := read(e.path, e.status).value;
    assert SortByPath([e]) == [e] by { SortOne(e); }
    assert AllFields(read, []) == Some([]);
    assert Fields(e, digest) + [] == Fields(e, digest);
    JoinedFields(e, digest);
  }

  /**
   Two working trees feed the same bytes exactly when, sorted by path, they agree entry by entry on status,
   path, source and content, an absent and an empty source counting as the same.
   */
  lemma BytesIdentifyEntries(readA: Reader, a: seq<Entry>, readB: Reader, b: seq<Entry>)
    requires Feed(readA, a).Some? && Feed(readB, b).Some?
    requires forall i :: 0 <= i < |a| ==> Hashable(readA, a[i])
    requires forall i :: 0 <= i < |b| ==> Hashable(readB, b[i])
    ensures var s, t := SortByPath(a), SortByPath(b);
      Feed(readA, a) == Feed(readB, b) <==>
        |s| == |t| && forall i :: 0 <= i < |s| ==> SameRecord(s[i], readA, t[i], readB)
  {
    hide SortByPath, AllFields, Joined, Sorted, Hashable, Drain, Find, SameRecord;
    var s, t := SortByPath(a), SortByPath(b);
    SortKeeps(readA, a);
    SortKeeps(readB, b);
    FieldsAreNulFree(readA, s);
    FieldsAreNulFree(readB, t);
    DrainUndoesJoined(AllFields(readA, s).value, NUL);
    DrainUndoesJoined(AllFields(readB, t).value, NUL);
    if |s| == |t| {
      FieldsDetermineRecords(readA, s, readB, t);
    }
  }

  lemma SortKeeps(read: Reader, a: seq<Entry>)
    requires forall i :: 0 <= i < |a| ==> Hashable(read, a[i])
    ensures forall i :: 0 <= i < |SortByPath(a)| ==> Hashable(read, SortByPath(a)[i])
  {
    hide Hashable;
    SortSorts(a);
    forall i | 0 <= i < |SortByPath(a)| ensures Hashable(read, SortByPath(a)[i]) {
      assert SortByPath(a)[i] in multiset(a);
    }
  }

  ghost predicate CleanEntry(e: Entry) {
    NUL !in e.status && NUL !in e.path && NUL !in e.origin.Or("")
  }

  lemma {:induction false} EntriesAreClean(tokens: seq<string>)
    requires Unmarked(tokens, NUL) && Entries(tokens).Some?
    ensures forall i :: 0 <= i < |Entries(tokens).value| ==> CleanEntry(Entries(tokens).value[i])
    decreases |tokens|
  {
    hide HasOrigin;
    if tokens != [] {
      assert NUL !in tokens[0];
      if tokens[0] != "" && HasOrigin(tokens[0][..2]) && |tokens| > 1 {
        EntriesAreClean(tokens[2..]);
      } else {
        EntriesAreClean(tokens[1..]);
      }
    }
  }

  /** What the parser returns holds no NUL, so only the content digests could. */
  lemma ParsedIsClean(raw: string)
    requires ParseStatus(raw).Some?
    ensures forall i :: 0 <= i < |ParseStatus(raw).value| ==> CleanEntry(ParseStatus(raw).value[i])
  {
    hide Entries, Drain;
    PartsAreUnmarked(raw, NUL);
    EntriesAreClean(Tokens(raw));
  }
}
