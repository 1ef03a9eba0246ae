/** Patches as Git writes them, with the header lines that announce what was done to a file, and how they are read. */
module GitPatches {
  import opened Decimals
  import opened DiffParser
  import opened Framing
  import opened Prelude
  import opened Text

  datatype Change =
    | Modify
    | Create(mode: string)
    | Remove(mode: string)
    | Move(similarity: string, from: string, to: string)
    | Duplicate(similarity: string, from: string, to: string)

  /** Text hunks behind the two file names, a notice that binary files differ, or a binary patch. */
  datatype Content = Hunks(before: string, after: string, blocks: seq<Piece>) | Differ(what: string) | BinaryPatch | Nothing

  datatype GitFile = GitFile(header: string, change: Change, index: Option<string>, content: Content)

  // ---- as Git writes them ----

  function ChangeLines(c: Change): seq<string> {
    match c
    case Modify => []
    case Create(mode) => ["new file mode " + mode]
    case Remove(mode) => ["deleted file mode " + mode]
    case Move(similarity, from, to) => ["similarity index " + similarity, "rename from " + from, "rename to " + to]
    case Duplicate(similarity, from, to) => ["similarity index " + similarity, "copy from " + from, "copy to " + to]
  }

  function IndexLines(index: Option<string>): seq<string> {
    if index.Some? then ["index " + index.value] else []
  }

  function ContentLines(c: Content): seq<string> {
    match c
    case Hunks(before, after, _) => ["--- " + before, "+++ " + after]
    case Differ(what) => ["Binary files " + what]
    case BinaryPatch => ["GIT binary patch"]
    case Nothing => []
  }

  function HeaderLines(g: GitFile): seq<string> {
    ChangeLines(g.change) + IndexLines(g.index) + ContentLines(g.content)
  }

  function BlocksOf(c: Content): seq<Piece> {
    if c.Hunks? then c.blocks else []
  }

  function Notes(lines: seq<string>): seq<Piece> {
    if lines == [] then [] else [Note(lines[0])] + Notes(lines[1..])
  }

  function PatchOf(g: GitFile): Patch {
    Patch(g.header, Notes(HeaderLines(g)) + BlocksOf(g.content))
  }

  function PatchesOf(gs: seq<GitFile>): seq<Patch> {
    if gs == [] then [] else [PatchOf(gs[0])] + PatchesOf(gs[1..])
  }

  /** The hunks declare what they hold. */
  ghost predicate Proper(g: GitFile) {
    forall i :: 0 <= i < |BlocksOf(g.content)| ==> BlocksOf(g.content)[i].Block? && WellFormed(BlocksOf(g.content)[i])
  }

  // ---- as they should be read ----

  function StatusOf(c: Change): Status {
    match c
    case Modify => Modified
    case Create(_) => New
    case Remove(_) => Deleted
    case Move(_, _, _) => Renamed
    case Duplicate(_, _, _) => Copied
  }

  function Plains(lines: seq<string>): seq<DiffLine> {
    if lines == [] then [] else [DiffLine(lines[0], Metadata, None, None)] + Plains(lines[1..])
  }

  /** A hunk's header and its numbered lines. */
  function BlockItems(blocks: seq<Piece>): seq<DiffLine> {
    if blocks == [] then []
    else
      (match blocks[0]
       case Note(text) => [DiffLine(text, Metadata, None, None)]
       case Block(before, after, tail, body) =>
         [DiffLine(HunkText(before, after, tail), Metadata, None, None)] + Numbered(body, before.start, after.start))
      + BlockItems(blocks[1..])
  }

  function FileOf(g: GitFile): DiffFile {
    DiffFile(g.header, StatusOf(g.change), g.content.Differ? || g.content.BinaryPatch?,
             Plains(HeaderLines(g)) + BlockItems(BlocksOf(g.content)))
  }

  function FilesOf(gs: seq<GitFile>): seq<DiffFile> {
    if gs == [] then [] else [FileOf(gs[0])] + FilesOf(gs[1..])
  }

  // ---- reading them ----

  lemma {:induction false} PiecesAppend(f: DiffFile, a: seq<Piece>, b: seq<Piece>)
    ensures WithPieces(f, a + b) == WithPieces(WithPieces(f, a), b)
    decreases |a|
  {
    hide WithPiece;
    if a == [] {
      assert a + b == b;
    } else {
      assert (a + b)[1..] == a[1..] + b;
      PiecesAppend(WithPiece(f, a[0]), a[1..], b);
    }
  }

  lemma {:induction false} NotesAppend(a: seq<string>, b: seq<string>)
    ensures Notes(a + b) == Notes(a) + Notes(b)
    ensures Plains(a + b) == Plains(a) + Plains(b)
  {
    if a == [] {
      assert a + b == b;
    } else {
      assert (a + b)[1..] == a[1..] + b;
      NotesAppend(a[1..], b);
    }
  }

  /** A header line that announces neither a status nor binary content. */
  predicate Quiet(line: string) {
    !MarksBinary(line) && forall status :: StatusAfter(status, line) == status
  }

  lemma OneNote(f: DiffFile, line: string)
    ensures WithPieces(f, Notes([line])) ==
      f.(lines := f.lines + [DiffLine(line, Metadata, None, None)], status := StatusAfter(f.status, line),
         binary := f.binary || MarksBinary(line))
  {
    hide StatusAfter, MarksBinary;
    assert [line][1..] == [];
    assert [Note(line)][1..] == [];
    assert Notes([line]) == [Note(line)];
  }

  lemma ChangeIsRead(f: DiffFile, c: Change)
    requires f.status == Modified
    ensures WithPieces(f, Notes(ChangeLines(c))) == f.(lines := f.lines + Plains(ChangeLines(c)), status := StatusOf(c))
  {
    hide StatusAfter, MarksBinary, WithPieces, Notes;
    match c {
      case Modify =>
        NothingWritten(f);
        assert f.lines + [] == f.lines;
      case Create(mode) => AnnouncesOne(f, "new file mode ", mode, New);
      case Remove(mode) => AnnouncesOne(f, "deleted file mode ", mode, Deleted);
      case Move(similarity, from, to) => AnnouncesThree(f, similarity, "rename from ", from, "rename to ", to, Renamed);
      case Duplicate(similarity, from, to) => AnnouncesThree(f, similarity, "copy from ", from, "copy to ", to, Copied);
    }
  }

  lemma NothingWritten(f: DiffFile)
    ensures WithPieces(f, Notes([])) == f && Plains([]) == []
  {
  }

  predicate Announces(prefix: string, status: Status) {
    || (prefix == "new file mode " && status == New) || (prefix == "deleted file mode " && status == Deleted)
    || (prefix == "rename from " && status == Renamed) || (prefix == "copy from " && status == Copied)
  }

  lemma AnnouncementIs(prefix: string, rest: string, status: Status, before: Status)
    requires Announces(prefix, status)
    ensures StatusAfter(before, prefix + rest) == status && !MarksBinary(prefix + rest)
  {
    var line := prefix + rest;
    assert line[..|prefix|] == prefix;
    assert line[0] == prefix[0] && line[5] == prefix[5];
  }

  predicate QuietPrefix(prefix: string) {
    prefix in {"similarity index ", "rename to ", "copy to ", "index ", "--- ", "+++ "}
  }

  lemma QuietIs(prefix: string, rest: string)
    requires QuietPrefix(prefix)
    ensures Quiet(prefix + rest)
  {
    var line := prefix + rest;
    assert line[0] == prefix[0] && line[1] == prefix[1] && line[2] == prefix[2] && line[3] == prefix[3];
    if |prefix| > 5 { assert line[5] == prefix[5]; }
    if |prefix| > 7 { assert line[7] == prefix[7]; }
  }

  lemma AnnouncesOne(f: DiffFile, prefix: string, rest: string, status: Status)
    requires Announces(prefix, status)
    ensures WithPieces(f, Notes([prefix + rest])) == f.(lines := f.lines + Plains([prefix + rest]), status := status)
  {
    hide StatusAfter, MarksBinary, Announces, WithPieces, Notes;
    AnnouncementIs(prefix, rest, status, f.status);
    OneNote(f, prefix + rest);
    assert [prefix + rest][1..] == [];
  }

  lemma QuietOne(f: DiffFile, prefix: string, rest: string)
    requires QuietPrefix(prefix)
    ensures WithPieces(f, Notes([prefix + rest])) == f.(lines := f.lines + Plains([prefix + rest]))
  {
    hide StatusAfter, MarksBinary, QuietPrefix, WithPieces, Notes;
    QuietIs(prefix, rest);
    OneNote(f, prefix + rest);
    assert [prefix + rest][1..] == [];
  }

  lemma AnnouncesThree(
    f: DiffFile, similarity: string, prefix: string, from: string, second: string, to: string, status: Status)
    requires Announces(prefix, status) && QuietPrefix(second)
    ensures var lines := ["similarity index " + similarity, prefix + from, second + to];
      WithPieces(f, Notes(lines)) == f.(lines := f.lines + Plains(lines), status := status)
  {
    hide Announces, QuietPrefix, WithPieces, Notes, Plains;
    var a, b, c := ["similarity index " + similarity], [prefix + from], [second + to];
    assert QuietPrefix("similarity index ") by { SimilarityIsQuiet(); }
    assert a + b + c == ["similarity index " + similarity, prefix + from, second + to];
    NotesAppend(a + b, c);
    NotesAppend(a, b);
    PiecesAppend(f, Notes(a) + Notes(b), Notes(c));
    PiecesAppend(f, Notes(a), Notes(b));
    QuietOne(f, "similarity index ", similarity);
    var g := f.(lines := f.lines + Plains(a));
    AnnouncesOne(g, prefix, from, status);
    var h := g.(lines := g.lines + Plains(b), status := status);
    QuietOne(h, second, to);
    assert f.lines + Plains(a) + Plains(b) + Plains(c) == f.lines + (Plains(a) + Plains(b) + Plains(c));
  }

  lemma SimilarityIsQuiet()
    ensures QuietPrefix("similarity index ")
  {
  }

  lemma IndexIsRead(f: DiffFile, index: Option<string>)
    ensures WithPieces(f, Notes(IndexLines(index))) == f.(lines := f.lines + Plains(IndexLines(index)))
  {
    hide WithPieces, Notes, StatusAfter, MarksBinary;
    if index.Some? {
      QuietOne(f, "index ", index.value);
    } else {
      NothingWritten(f);
      assert f.lines + [] == f.lines;
    }
  }

  lemma BinaryIs(what: string, status: Status)
    ensures MarksBinary("Binary files " + what) && StatusAfter(status, "Binary files " + what) == status
    ensures MarksBinary("GIT binary patch") && StatusAfter(status, "GIT binary patch") == status
  {
    assert ("Binary files " + what)[0] == 'B' && "GIT binary patch"[0] == 'G';
  }

  lemma ContentIsRead(f: DiffFile, c: Content)
    requires !f.binary
    ensures WithPieces(f, Notes(ContentLines(c))) ==
      f.(lines := f.lines + Plains(ContentLines(c)), binary := c.Differ? || c.BinaryPatch?)
  {
    hide WithPieces, Notes, StatusAfter, MarksBinary;
    match c {
      case Hunks(before, after, _) =>
        var a, b := ["--- " + before], ["+++ " + after];
        assert a + b == ContentLines(c);
        NotesAppend(a, b);
        PiecesAppend(f, Notes(a), Notes(b));
        QuietOne(f, "--- ", before);
        QuietOne(f.(lines := f.lines + Plains(a)), "+++ ", after);
        assert f.lines + Plains(a) + Plains(b) == f.lines + (Plains(a) + Plains(b));
      case Differ(what) =>
        BinaryIs(what, f.status);
        OneNote(f, "Binary files " + what);
        assert ["Binary files " + what][1..] == [];
      case BinaryPatch =>
        BinaryIs("", f.status);
        OneNote(f, "GIT binary patch");
        assert ["GIT binary patch"][1..] == [];
      case Nothing =>
        NothingWritten(f);
        assert f.lines + [] == f.lines;
    }
  }

  lemma {:induction false} BlocksAreRead(f: DiffFile, blocks: seq<Piece>)
    requires forall i :: 0 <= i < |blocks| ==> blocks[i].Block?
    ensures WithPieces(f, blocks) == f.(lines := f.lines + BlockItems(blocks))
    decreases |blocks|
  {
    hide Numbered, HunkText, WithPiece, PieceItems, BlockItems;
    if blocks == [] {
      NoBlocks();
      assert f.lines + [] == f.lines;
    } else {
      var g := WithPiece(f, blocks[0]);
      BlocksAreRead(g, blocks[1..]);
      FirstBlock(f, blocks);
      assert g.lines + BlockItems(blocks[1..]) == f.lines + (PieceItems(blocks[0]) + BlockItems(blocks[1..]));
    }
  }

  lemma NoBlocks()
    ensures BlockItems([]) == []
  {
  }

  lemma FirstBlock(f: DiffFile, blocks: seq<Piece>)
    requires blocks != [] && blocks[0].Block?
    ensures WithPiece(f, blocks[0]) == f.(lines := f.lines + PieceItems(blocks[0]))
    ensures BlockItems(blocks) == PieceItems(blocks[0]) + BlockItems(blocks[1..])
  {
    hide Numbered, HunkText;
  }

  lemma FileIsRead(g: GitFile)
    requires Proper(g)
    ensures WithPieces(DiffFile(g.header, Modified, false, []), PatchOf(g).pieces) == FileOf(g)
  {
    hide WithPieces, Notes, Plains, BlockItems, ChangeLines, ContentLines, IndexLines, WellFormed;
    var f := DiffFile(g.header, Modified, false, []);
    var a, b, c := ChangeLines(g.change), IndexLines(g.index), ContentLines(g.content);
    NotesAppend(a + b, c);
    NotesAppend(a, b);
    PiecesAppend(f, Notes(a) + Notes(b) + Notes(c), BlocksOf(g.content));
    PiecesAppend(f, Notes(a) + Notes(b), Notes(c));
    PiecesAppend(f, Notes(a), Notes(b));
    ChangeIsRead(f, g.change);
    var f1 := f.(lines := f.lines + Plains(a), status := StatusOf(g.change));
    IndexIsRead(f1, g.index);
    var f2 := f1.(lines := f1.lines + Plains(b));
    ContentIsRead(f2, g.content);
    var f3 := f2.(lines := f2.lines + Plains(c), binary := g.content.Differ? || g.content.BinaryPatch?);
    BlocksAreRead(f3, BlocksOf(g.content));
    assert [] + Plains(a) + Plains(b) + Plains(c) == Plains(a) + Plains(b) + Plains(c);
  }

  lemma {:induction false} FilesAreRead(gs: seq<GitFile>)
    requires forall i :: 0 <= i < |gs| ==> Proper(gs[i])
    ensures PatchFiles(PatchesOf(gs)) == FilesOf(gs)
  {
    hide WithPieces, PatchOf, FileOf, Proper;
    if gs != [] {
      FileIsRead(gs[0]);
      HeaderIsKept(gs[0]);
      FilesAreRead(gs[1..]);
    }
  }

  lemma HeaderIsKept(g: GitFile)
    ensures PatchOf(g).header == g.header
  {
  }

  lemma HeaderIsNote(line: string)
    requires line != "" && line[0] != '@' && line[0] != 'd'
    ensures WellFormed(Note(line))
  {
  }

  lemma RemovalIsNote(mode: string)
    ensures WellFormed(Note("deleted file mode " + mode))
  {
    var line := "deleted file mode " + mode;
    assert line[0] == 'd' && line[1] == 'e';
  }

  lemma {:induction false} NotesAreWellFormed(lines: seq<string>)
    requires forall i :: 0 <= i < |lines| ==> WellFormed(Note(lines[i]))
    ensures forall i :: 0 <= i < |Notes(lines)| ==> WellFormed(Notes(lines)[i])
  {
    hide WellFormed;
    if lines != [] {
      NotesAreWellFormed(lines[1..]);
    }
  }

  lemma HeadersAreNotes(g: GitFile)
    ensures forall i :: 0 <= i < |HeaderLines(g)| ==> WellFormed(Note(HeaderLines(g)[i]))
  {
    hide WellFormed, IsNote;
    var lines := HeaderLines(g);
    if g.change.Remove? { RemovalIsNote(g.change.mode); }
    forall i | 0 <= i < |lines| ensures WellFormed(Note(lines[i])) {
      if lines[i][0] != 'd' { HeaderIsNote(lines[i]); }
    }
  }

  lemma {:induction false} PatchesAreWellFormed(gs: seq<GitFile>)
    requires forall i :: 0 <= i < |gs| ==> Proper(gs[i])
    ensures AllWellFormed(PatchesOf(gs))
  {
    hide WellFormed, HeaderLines;
    if gs != [] {
      PatchesAreWellFormed(gs[1..]);
      HeadersAreNotes(gs[0]);
      NotesAreWellFormed(HeaderLines(gs[0]));
    }
  }

  /**
   A diff as Git writes it, within the limits, is read back file by file: the status its header lines announce,
   the binary mark of its content, and its hunks numbered as they declare.
   */
  lemma GitDiffIsRead(gs: seq<GitFile>)
    requires (forall i :: 0 <= i < |gs| ==> Proper(gs[i])) && WithinLimits(PatchesOf(gs))
    ensures Parse(Print(PatchesOf(gs))) == Parsed(FilesOf(gs), false, false)
  {
    hide Parse, Print, PatchesOf, FilesOf, PatchFiles, Proper, WithinLimits, AllWellFormed;
    PatchesAreWellFormed(gs);
    ParseUndoesPrint(PatchesOf(gs));
    FilesAreRead(gs);
  }

  // ---- what is cut off ----

  function CountMarks(lines: seq<string>): nat {
    if lines == [] then 0 else (if "diff --git " <= lines[0] then 1 else 0) + CountMarks(lines[1..])
  }

  ghost predicate HasLong(lines: seq<string>) {
    exists i :: 0 <= i < |lines| && |lines[i]| > 10000
  }

  lemma StepCuts(s: State, line: string)
    requires !s.stopped
    ensures var t := Step(s, line);
      && (t.truncated <==> s.truncated || |line| > 10000 || t.stopped)
      && (t.stopped <==> "diff --git " <= line && |Files(s)| >= 100)
      && (!t.stopped ==> |Files(t)| == |Files(s)| + if "diff --git " <= line then 1 else 0)
  {
    hide FileLine, Trim;
    var cut := if |line| <= MAX_LINE then line else line[..MAX_LINE];
    assert FILE_MARK <= cut <==> FILE_MARK <= line;
    if !(FILE_MARK <= cut) && s.current.Some? {
      FileLineKeepsRest(s.(truncated := s.truncated || |line| > MAX_LINE), s.current.value, cut);
    }
  }

  lemma FileLineKeepsRest(s: State, f: DiffFile, line: string)
    requires s.current == Some(f)
    ensures var t := FileLine(s, f, line);
      t.truncated == s.truncated && t.stopped == s.stopped && t.done == s.done && t.current.Some?
  {
    hide ReadHunk, BodyLine, OpenHunk, MarksBinary, StatusAfter;
  }

  lemma {:induction false} ScanCuts(s: State, lines: seq<string>)
    requires !s.stopped && |Files(s)| <= 100
    ensures Scan(s, lines).truncated <==> s.truncated || HasLong(lines) || |Files(s)| + CountMarks(lines) > 100
    decreases |lines|
  {
    hide Step;
    if lines != [] {
      StepCuts(s, lines[0]);
      LongCons(lines);
      var t := Step(s, lines[0]);
      if t.stopped {
        StoppedScan(t, lines[1..]);
      } else {
        ScanCuts(t, lines[1..]);
      }
    }
  }

  lemma LongCons(lines: seq<string>)
    requires lines != []
    ensures HasLong(lines) <==> |lines[0]| > 10000 || HasLong(lines[1..])
  {
    if HasLong(lines[1..]) {
      var i :| 0 <= i < |lines[1..]| && |lines[1..][i]| > 10000;
      assert |lines[i + 1]| > 10000;
    }
    if HasLong(lines) && |lines[0]| <= 10000 {
      var i :| 0 <= i < |lines| && |lines[i]| > 10000;
      assert |lines[1..][i - 1]| > 10000;
    }
  }

  /** A text is marked as truncated exactly when it, its lines, their number or its files exceed their limits. */
  lemma TruncatedIff(text: string)
    ensures var bounded := if |text| <= 1048576 then text else text[..1048576];
      && var lines := SplitLines(bounded);
      && var first := if |lines| <= 5000 then lines else lines[..5000];
      Parse(text).truncated <==> |text| > 1048576 || |lines| > 5000 || HasLong(first) || CountMarks(first) > 100
  {
    hide SplitLines, Scan, HasLong;
    ScanCuts(Begin(CutOff(text)), FirstLines(text));
  }
}
