/** The display parser of unified Git diffs. Lengths count characters. */
module DiffParser {
  import opened Prelude
  import opened Framing
  import opened Decimals
  import opened Text

  const MAX_TEXT: nat := 1048576
  const MAX_LINES: nat := 5000
  const MAX_LINE: nat := 10000
  const MAX_FILES: nat := 100

  datatype Kind = Context | Added | Removed | Metadata

  datatype DiffLine = DiffLine(text: string, kind: Kind, oldLine: Option<nat>, newLine: Option<nat>)

  datatype Status = Modified | New | Deleted | Renamed | Copied

  datatype DiffFile = DiffFile(header: string, status: Status, binary: bool, lines: seq<DiffLine>)

  datatype Parsed = Parsed(files: seq<DiffFile>, truncated: bool, unsupported: bool)

  // ---- the hunk header ----

  /** A start and a count, the count one when it is left out. */
  datatype Span = Span(start: nat, count: nat, rest: string)

  function ReadSpan(s: string): Option<Span> {
    var n := Lead(s);
    if n == 0 then None
    else
      var start, rest := Value(s[..n]), s[n..];
      if rest == "" || rest[0] != ',' || Lead(rest[1..]) == 0 then Some(Span(start, 1, rest))
      else
        var m := Lead(rest[1..]);
        Some(Span(start, Value(rest[1..][..m]), rest[1..][m..]))
  }

  datatype Hunk = Hunk(oldStart: nat, oldCount: nat, newStart: nat, newCount: nat)

  function ReadHunk(line: string): Option<Hunk> {
    if !("@@ -" <= line) then None
    else
      match ReadSpan(line[4..])
      case None => None
      case Some(left) =>
        if !(" +" <= left.rest) then None
        else
          match ReadSpan(left.rest[2..])
          case None => None
          case Some(right) =>
            if " @@" <= right.rest then Some(Hunk(left.start, left.count, right.start, right.count)) else None
  }

  predicate IsSafe(h: Hunk) {
    h.oldStart + h.oldCount <= MAX_SAFE && h.newStart + h.newCount <= MAX_SAFE
  }

  // ---- one line ----

  datatype Cursor = Cursor(oldAt: nat, newAt: nat, oldLeft: nat, newLeft: nat)

  datatype State = State(
    done: seq<DiffFile>, current: Option<DiffFile>, at: Cursor, truncated: bool, unsupported: bool, stopped: bool)

  predicate InHunk(at: Cursor) {
    at.oldLeft > 0 || at.newLeft > 0
  }

  function Files(s: State): seq<DiffFile> {
    if s.current.Some? then s.done + [s.current.value] else s.done
  }

  function Plain(line: string): DiffLine {
    DiffLine(line, Metadata, None, None)
  }

  /** A line inside a hunk: the moved cursor, the numbered line, and whether it does not belong. */
  function BodyLine(at: Cursor, line: string): (Cursor, DiffLine, bool) {
    if " " <= line && at.oldLeft > 0 && at.newLeft > 0 then
      (Cursor(at.oldAt + 1, at.newAt + 1, at.oldLeft - 1, at.newLeft - 1),
       DiffLine(line, Context, Some(at.oldAt), Some(at.newAt)), false)
    else if "-" <= line && at.oldLeft > 0 then
      (at.(oldAt := at.oldAt + 1, oldLeft := at.oldLeft - 1), DiffLine(line, Removed, Some(at.oldAt), None), false)
    else if "+" <= line && at.newLeft > 0 then
      (at.(newAt := at.newAt + 1, newLeft := at.newLeft - 1), DiffLine(line, Added, None, Some(at.newAt)), false)
    else if "\\ No newline" <= line then (at, Plain(line), false)
    else (at.(oldLeft := 0, newLeft := 0), Plain(line), true)
  }

  function OpenHunk(h: Hunk): Cursor {
    if IsSafe(h) then Cursor(h.oldStart, h.newStart, h.oldCount, h.newCount) else Cursor(h.oldStart, h.newStart, 0, 0)
  }

  function StatusAfter(status: Status, line: string): Status {
    if "new file mode " <= line then New
    else if "deleted file mode " <= line then Deleted
    else if "rename from " <= line then Renamed
    else if "copy from " <= line then Copied
    else status
  }

  predicate MarksBinary(line: string) {
    "Binary files " <= line || line == "GIT binary patch"
  }

  function Append(f: DiffFile, item: DiffLine): DiffFile {
    f.(lines := f.lines + [item], binary := f.binary || MarksBinary(item.text))
  }

  function FileLine(s: State, f: DiffFile, line: string): State {
    match ReadHunk(line)
    case Some(h) =>
      s.(at := OpenHunk(h), unsupported := s.unsupported || InHunk(s.at) || !IsSafe(h), current := Some(Append(f, Plain(line))))
    case None =>
      if InHunk(s.at) then
        var (at, item, bad) := BodyLine(s.at, line);
        s.(at := at, unsupported := s.unsupported || bad, current := Some(Append(f, item)))
      else s.(current := Some(Append(f.(status := StatusAfter(f.status, line)), Plain(line))))
  }

  const FILE_MARK: string := "diff --git "

  function Step(s: State, original: string): State {
    if s.stopped then s
    else
      var line := if |original| <= MAX_LINE then original else original[..MAX_LINE];
      var t := s.(truncated := s.truncated || |original| > MAX_LINE);
      if FILE_MARK <= line then
        var u := t.(unsupported := t.unsupported || InHunk(t.at));
        if |Files(u)| >= MAX_FILES then u.(truncated := true, stopped := true)
        else
          u.(done := Files(u), current := Some(DiffFile(line[|FILE_MARK|..], Modified, false, [])),
             at := u.at.(oldLeft := 0, newLeft := 0))
      else
        match t.current
        case None => t.(unsupported := t.unsupported || Trim(line) != "")
        case Some(f) => FileLine(t, f, line)
  }

  function Scan(s: State, lines: seq<string>): State
    decreases |lines|
  {
    if lines == [] then s else Scan(Step(s, lines[0]), lines[1..])
  }

  function Begin(truncated: bool): State {
    State([], None, Cursor(0, 0, 0, 0), truncated, false, false)
  }

  function Bounded(text: string): string {
    if |text| <= MAX_TEXT then text else text[..MAX_TEXT]
  }

  function FirstLines(text: string): seq<string> {
    var lines := SplitLines(Bounded(text));
    if |lines| <= MAX_LINES then lines else lines[..MAX_LINES]
  }

  predicate CutOff(text: string) {
    |text| > MAX_TEXT || |SplitLines(Bounded(text))| > MAX_LINES
  }

  function Finish(s: State): Parsed {
    Parsed(Files(s), s.truncated, s.unsupported || InHunk(s.at))
  }

  function Parse(text: string): Parsed {
    Finish(Scan(Begin(CutOff(text)), FirstLines(text)))
  }

  /** The file, the cursor, and whether the line made the diff unsupported. */
  function Consumed(f: DiffFile, at: Cursor, line: string): (DiffFile, Cursor, bool) {
    var s := FileLine(State([], Some(f), at, false, false, false), f, line);
    (s.current.value, s.at, s.unsupported)
  }

  lemma FileLineIsConsume(s: State, line: string)
    requires s.current.Some?
    ensures var (f, at, bad) := Consumed(s.current.value, s.at, line);
      FileLine(s, s.current.value, line) == s.(current := Some(f), at := at, unsupported := s.unsupported || bad)
  {
    hide ReadHunk, BodyLine, OpenHunk, Append, StatusAfter, IsSafe;
  }

  method Consume(f: DiffFile, at: Cursor, line: string) returns (file: DiffFile, cursor: Cursor, bad: bool)
    ensures (file, cursor, bad) == Consumed(f, at, line)
  {
    hide ReadHunk;
    file, bad := f, false;
    var oldLine, newLine, oldRemaining, newRemaining := at.oldAt, at.newAt, at.oldLeft, at.newLeft;
    var item := Plain(line);
    var hunk := ReadHunk(line);
    if hunk.Some? {
      bad := oldRemaining > 0 || newRemaining > 0;
      var h := hunk.value;
      oldLine, oldRemaining, newLine, newRemaining := h.oldStart, h.oldCount, h.newStart, h.newCount;
      if !(oldLine + oldRemaining <= MAX_SAFE && newLine + newRemaining <= MAX_SAFE) {
        bad := true;
        oldRemaining, newRemaining := 0, 0;
      }
    } else if oldRemaining > 0 || newRemaining > 0 {
      if " " <= line && oldRemaining > 0 && newRemaining > 0 {
        item := DiffLine(line, Context, Some(oldLine), Some(newLine));
        oldLine, newLine, oldRemaining, newRemaining := oldLine + 1, newLine + 1, oldRemaining - 1, newRemaining - 1;
      } else if "-" <= line && oldRemaining > 0 {
        item := DiffLine(line, Removed, Some(oldLine), None);
        oldLine, oldRemaining := oldLine + 1, oldRemaining - 1;
      } else if "+" <= line && newRemaining > 0 {
        item := DiffLine(line, Added, None, Some(newLine));
        newLine, newRemaining := newLine + 1, newRemaining - 1;
      } else if !("\\ No newline" <= line) {
        bad := true;
        oldRemaining, newRemaining := 0, 0;
      }
    } else {
      file := file.(status := StatusAfter(file.status, line));
    }
    if MarksBinary(line) {
      file := file.(binary := true);
    }
    file := file.(lines := file.lines + [item]);
    cursor := Cursor(oldLine, newLine, oldRemaining, newRemaining);
  }

  /** The parser as the code runs it: one loop over the lines with its counters in variables. */
  method ParseDiff(text: string) returns (r: Parsed)
    ensures r == Parse(text)
  {
    hide ReadHunk, Find, Drain, SplitLines, Trim, FileLine, Consumed, FirstLines, CutOff;
    var done: seq<DiffFile>, current: Option<DiffFile> := [], None;
    var truncated, unsupported := CutOff(text), false;
    var oldLine: nat, newLine: nat, oldRemaining: nat, newRemaining: nat := 0, 0, 0, 0;
    var lines := FirstLines(text);
    ghost var first := Begin(truncated);
    var i := 0;
    while i < |lines|
      invariant 0 <= i <= |lines|
      invariant Scan(first, lines)
             == Scan(State(done, current, Cursor(oldLine, newLine, oldRemaining, newRemaining),
                           truncated, unsupported, false), lines[i..])
    {
      ghost var at := Cursor(oldLine, newLine, oldRemaining, newRemaining);
      ghost var before := State(done, current, at, truncated, unsupported, false);
      ghost var todo := lines[i..];
      assert todo[0] == lines[i] && todo[1..] == lines[i + 1..];
      var original := lines[i];
      i := i + 1;
      var line := if |original| <= MAX_LINE then original else original[..MAX_LINE];
      truncated := truncated || |line| < |original|;
      if FILE_MARK <= line {
        if oldRemaining > 0 || newRemaining > 0 {
          unsupported := true;
        }
        var files := if current.Some? then done + [current.value] else done;
        if |files| >= MAX_FILES {
          truncated := true;
          StoppedScan(Step(before, original), lines[i..]);
          break;
        }
        done, current := files, Some(DiffFile(line[|FILE_MARK|..], Modified, false, []));
        oldRemaining, newRemaining := 0, 0;
      } else if current.None? {
        if Trim(line) != "" {
          unsupported := true;
        }
      } else {
        var file, moved, bad := Consume(current.value, Cursor(oldLine, newLine, oldRemaining, newRemaining), line);
        FileLineIsConsume(before.(truncated := truncated), line);
        oldLine, newLine, oldRemaining, newRemaining := moved.oldAt, moved.newAt, moved.oldLeft, moved.newLeft;
        unsupported := unsupported || bad;
        current := Some(file);
      }
      assert Step(before, original)
          == State(done, current, Cursor(oldLine, newLine, oldRemaining, newRemaining), truncated, unsupported, false);
    }
    if oldRemaining > 0 || newRemaining > 0 {
      unsupported := true;
    }
    r := Parsed(if current.Some? then done + [current.value] else done, truncated, unsupported);
  }

  lemma {:induction false} StoppedScan(s: State, lines: seq<string>)
    requires s.stopped
    ensures Scan(s, lines) == s
    decreases |lines|
  {
    if lines != [] {
      StoppedScan(s, lines[1..]);
    }
  }

  // ---- a supported diff is counted exactly ----

  function Numbers(n: Option<nat>): seq<nat> {
    if n.Some? then [n.value] else []
  }

  /** The lines after the last hunk header: its declaration and the numbers given since. */
  datatype Section = Section(hunk: Option<Hunk>, oldLines: seq<nat>, newLines: seq<nat>)

  function LastSection(lines: seq<DiffLine>): Section {
    if lines == [] then Section(None, [], [])
    else
      var last := lines[|lines| - 1];
      if ReadHunk(last.text).Some? then Section(ReadHunk(last.text), [], [])
      else
        var before := LastSection(lines[..|lines| - 1]);
        Section(before.hunk, before.oldLines + Numbers(last.oldLine), before.newLines + Numbers(last.newLine))
  }

  function UpTo(start: nat, count: nat): seq<nat> {
    if count == 0 then [] else UpTo(start, count - 1) + [start + count - 1]
  }

  /** A section holds exactly the declared lines, numbered one after the other; before any hunk nothing is numbered. */
  ghost predicate Exact(s: Section) {
    match s.hunk
    case None => s.oldLines == [] && s.newLines == []
    case Some(h) => s.oldLines == UpTo(h.oldStart, h.oldCount) && s.newLines == UpTo(h.newStart, h.newCount)
  }

  /** Every section that a later hunk header closes is exact. */
  ghost predicate ClosedExact(lines: seq<DiffLine>) {
    lines == [] ||
    (var front := lines[..|lines| - 1];
     ClosedExact(front) && (ReadHunk(lines[|lines| - 1].text).Some? ==> Exact(LastSection(front))))
  }

  ghost predicate FileExact(lines: seq<DiffLine>) {
    ClosedExact(lines) && Exact(LastSection(lines))
  }

  /** The kind of a line says which numbers it has and how its text begins. */
  predicate KindFits(l: DiffLine) {
    match l.kind
    case Context => l.oldLine.Some? && l.newLine.Some? && " " <= l.text
    case Removed => l.oldLine.Some? && l.newLine.None? && "-" <= l.text
    case Added => l.oldLine.None? && l.newLine.Some? && "+" <= l.text
    case Metadata => l.oldLine.None? && l.newLine.None?
  }

  /** The cursor is where the last section's hunk says it should be. */
  ghost predicate OnCourse(lines: seq<DiffLine>, at: Cursor) {
    var s := LastSection(lines);
    match s.hunk
    case None => s.oldLines == [] && s.newLines == [] && !InHunk(at)
    case Some(h) =>
      && at.oldLeft <= h.oldCount && at.newLeft <= h.newCount
      && at.oldAt == h.oldStart + (h.oldCount - at.oldLeft) && at.newAt == h.newStart + (h.newCount - at.newLeft)
      && s.oldLines == UpTo(h.oldStart, h.oldCount - at.oldLeft)
      && s.newLines == UpTo(h.newStart, h.newCount - at.newLeft)
  }

  ghost predicate Counted(s: State) {
    && (forall i :: 0 <= i < |s.done| ==> FileExact(s.done[i].lines))
    && (match s.current
        case None => !InHunk(s.at)
        case Some(f) => ClosedExact(f.lines) && OnCourse(f.lines, s.at))
  }

  lemma AppendedSection(lines: seq<DiffLine>, item: DiffLine)
    ensures var more := lines + [item];
      && (ReadHunk(item.text).Some? ==> LastSection(more) == Section(ReadHunk(item.text), [], []))
      && (ReadHunk(item.text).None? ==>
            && LastSection(more).hunk == LastSection(lines).hunk
            && LastSection(more).oldLines == LastSection(lines).oldLines + Numbers(item.oldLine)
            && LastSection(more).newLines == LastSection(lines).newLines + Numbers(item.newLine))
      && (ClosedExact(more) <==>
            ClosedExact(lines) && (ReadHunk(item.text).Some? ==> Exact(LastSection(lines))))
  {
    hide ReadHunk, Exact;
    assert (lines + [item])[..|lines|] == lines;
  }

  lemma OnCourseIsExact(lines: seq<DiffLine>, at: Cursor)
    requires OnCourse(lines, at) && !InHunk(at)
    ensures Exact(LastSection(lines))
  {
    hide ReadHunk, LastSection;
  }

  lemma BodyStaysOnCourse(lines: seq<DiffLine>, at: Cursor, line: string)
    requires OnCourse(lines, at) && InHunk(at) && ReadHunk(line).None? && !BodyLine(at, line).2
    ensures OnCourse(lines + [BodyLine(at, line).1], BodyLine(at, line).0)
  {
    hide ReadHunk, LastSection, ClosedExact, Exact;
    AppendedSection(lines, BodyLine(at, line).1);
  }

  lemma FileLineStaysCounted(s: State, f: DiffFile, line: string)
    requires s.current == Some(f) && Counted(s)
    ensures var t := FileLine(s, f, line); t.unsupported || Counted(t)
  {
    hide ReadHunk, LastSection, ClosedExact, Exact, FileExact, BodyLine, OnCourse, MarksBinary, StatusAfter;
    var t := FileLine(s, f, line);
    match ReadHunk(line) {
      case Some(h) =>
        if !t.unsupported {
          OnCourseIsExact(f.lines, s.at);
          AppendedSection(f.lines, Plain(line));
          HunkSetsCourse(f.lines + [Plain(line)], h);
        }
      case None =>
        if InHunk(s.at) {
          BodyKeepsText(s.at, line);
          AppendedSection(f.lines, BodyLine(s.at, line).1);
          if !t.unsupported { BodyStaysOnCourse(f.lines, s.at, line); }
        } else {
          AppendedSection(f.lines, Plain(line));
          PlainKeepsCourse(f.lines, s.at, line);
        }
    }
  }

  lemma BodyKeepsText(at: Cursor, line: string)
    ensures BodyLine(at, line).1.text == line
  {
  }

  lemma HunkSetsCourse(lines: seq<DiffLine>, h: Hunk)
    requires IsSafe(h) && LastSection(lines) == Section(Some(h), [], [])
    ensures OnCourse(lines, OpenHunk(h))
  {
    hide LastSection;
  }

  lemma PlainKeepsCourse(lines: seq<DiffLine>, at: Cursor, line: string)
    requires OnCourse(lines, at) && ReadHunk(line).None?
    ensures OnCourse(lines + [Plain(line)], at)
  {
    hide ReadHunk, LastSection, ClosedExact, Exact;
    AppendedSection(lines, Plain(line));
  }

  lemma StepStaysCounted(s: State, original: string)
    requires s.unsupported || Counted(s)
    ensures Step(s, original).unsupported || Counted(Step(s, original))
  {
    hide FileLine, Trim, OnCourse, ClosedExact, FileExact;
    var line := if |original| <= MAX_LINE then original else original[..MAX_LINE];
    var t := Step(s, original);
    if !s.stopped && !t.unsupported {
      if FILE_MARK <= line {
        if s.current.Some? {
          OnCourseIsExact(s.current.value.lines, s.at);
          ClosedIsExact(s.current.value.lines);
        }
        NewFileIsOnCourse(t.at);
      } else if s.current.Some? {
        FileLineOnlyAdds(s, line);
        FileLineStaysCounted(s.(truncated := s.truncated || |original| > MAX_LINE), s.current.value, line);
      }
    }
  }

  lemma ClosedIsExact(lines: seq<DiffLine>)
    requires ClosedExact(lines) && Exact(LastSection(lines))
    ensures FileExact(lines)
  {
  }

  lemma NewFileIsOnCourse(at: Cursor)
    requires !InHunk(at)
    ensures OnCourse([], at) && ClosedExact([])
  {
  }

  lemma FileLineOnlyAdds(s: State, line: string)
    requires s.current.Some?
    ensures forall cut :: s.unsupported ==> FileLine(s.(truncated := cut), s.current.value, line).unsupported
  {
    hide ReadHunk, BodyLine;
  }

  lemma {:induction false} ScanStaysCounted(s: State, lines: seq<string>)
    requires s.unsupported || Counted(s)
    ensures Scan(s, lines).unsupported || Counted(Scan(s, lines))
    decreases |lines|
  {
    hide Step, Counted;
    if lines != [] {
      StepStaysCounted(s, lines[0]);
      ScanStaysCounted(Step(s, lines[0]), lines[1..]);
    }
  }

  /**
   In any text reported as supported, each hunk of each file is followed, up to the next hunk or the end
   of the file, by exactly the old and the new lines it declares, numbered consecutively from its starts.
   */
  lemma SupportedMeansExact(text: string)
    requires !Parse(text).unsupported
    ensures forall i :: 0 <= i < |Parse(text).files| ==> FileExact(Parse(text).files[i].lines)
  {
    hide Scan, OnCourse, ClosedExact, FileExact, CutOff, FirstLines;
    ScanStaysCounted(Begin(CutOff(text)), FirstLines(text));
    var s := Scan(Begin(CutOff(text)), FirstLines(text));
    if s.current.Some? {
      OnCourseIsExact(s.current.value.lines, s.at);
      ClosedIsExact(s.current.value.lines);
    }
  }

  ghost predicate AllFit(lines: seq<DiffLine>) {
    forall i :: 0 <= i < |lines| ==> KindFits(lines[i])
  }

  ghost predicate KindsFit(s: State) {
    && (forall i :: 0 <= i < |s.done| ==> AllFit(s.done[i].lines))
    && (s.current.Some? ==> AllFit(s.current.value.lines))
  }

  lemma BodyFits(at: Cursor, line: string)
    ensures KindFits(BodyLine(at, line).1)
  {
  }

  lemma FileLineKeepsKinds(s: State, f: DiffFile, line: string)
    requires s.current == Some(f) && AllFit(f.lines)
    ensures var t := FileLine(s, f, line); t.current.Some? && AllFit(t.current.value.lines) && t.done == s.done
  {
    hide ReadHunk, MarksBinary, StatusAfter, OpenHunk, BodyLine, KindFits;
    BodyFits(s.at, line);
    PlainFits(line);
  }

  lemma PlainFits(line: string)
    ensures KindFits(Plain(line))
  {
  }

  lemma StepKeepsKinds(s: State, original: string)
    requires KindsFit(s)
    ensures KindsFit(Step(s, original))
  {
    hide FileLine, Trim, KindFits;
    var line := if |original| <= MAX_LINE then original else original[..MAX_LINE];
    if s.current.Some? {
      FileLineKeepsKinds(s.(truncated := s.truncated || |original| > MAX_LINE), s.current.value, line);
    }
  }

  lemma {:induction false} ScanKeepsKinds(s: State, lines: seq<string>)
    requires KindsFit(s)
    ensures KindsFit(Scan(s, lines))
    decreases |lines|
  {
    hide Step, KindsFit;
    if lines != [] {
      StepKeepsKinds(s, lines[0]);
      ScanKeepsKinds(Step(s, lines[0]), lines[1..]);
    }
  }

  /** In any text at all, a line's kind, its numbers and its first character agree. */
  lemma KindsAlwaysFit(text: string)
    ensures forall i :: 0 <= i < |Parse(text).files| ==> AllFit(Parse(text).files[i].lines)
  {
    hide Scan, AllFit, CutOff, FirstLines;
    ScanKeepsKinds(Begin(CutOff(text)), FirstLines(text));
  }

  // ---- printing a diff and parsing it back ----

  /** A range as Git writes it: `short` leaves out a count of one. */
  datatype Range = Range(start: nat, count: nat, short: bool)

  datatype BodyText = Keep(text: string) | Drop(text: string) | Add(text: string) | NoNewline(text: string)

  datatype Piece = Note(text: string) | Block(before: Range, after: Range, tail: string, body: seq<BodyText>)

  datatype Patch = Patch(header: string, pieces: seq<Piece>)

  function RangeText(r: Range): string {
    Numeral(r.start) + (if r.short then "" else "," + Numeral(r.count))
  }

  function HunkText(before: Range, after: Range, tail: string): string {
    "@@ -" + RangeText(before) + (" +" + RangeText(after) + (" @@" + tail))
  }

  function BodyTextLine(b: BodyText): string {
    match b
    case Keep(text) => " " + text
    case Drop(text) => "-" + text
    case Add(text) => "+" + text
    case NoNewline(text) => "\\ No newline" + text
  }

  function BodyLines(body: seq<BodyText>): seq<string> {
    if body == [] then [] else [BodyTextLine(body[0])] + BodyLines(body[1..])
  }

  function PieceLines(p: Piece): seq<string> {
    match p
    case Note(text) => [text]
    case Block(before, after, tail, body) => [HunkText(before, after, tail)] + BodyLines(body)
  }

  function PiecesLines(pieces: seq<Piece>): seq<string> {
    if pieces == [] then [] else PieceLines(pieces[0]) + PiecesLines(pieces[1..])
  }

  function DiffLines(patches: seq<Patch>): seq<string> {
    if patches == [] then []
    else [FILE_MARK + patches[0].header] + PiecesLines(patches[0].pieces) + DiffLines(patches[1..])
  }

  function Print(patches: seq<Patch>): string {
    JoinLines(DiffLines(patches))
  }

  function OldOf(b: BodyText): nat {
    if b.Keep? || b.Drop? then 1 else 0
  }

  function NewOf(b: BodyText): nat {
    if b.Keep? || b.Add? then 1 else 0
  }

  function OldCount(body: seq<BodyText>): nat {
    if body == [] then 0 else OldOf(body[0]) + OldCount(body[1..])
  }

  function NewCount(body: seq<BodyText>): nat {
    if body == [] then 0 else NewOf(body[0]) + NewCount(body[1..])
  }

  predicate IsNote(text: string) {
    ReadHunk(text).None? && !(FILE_MARK <= text)
  }

  predicate FitsRange(r: Range, count: nat) {
    r.count == count && r.start + r.count <= MAX_SAFE && (r.short ==> r.count == 1)
  }

  predicate WellFormed(p: Piece) {
    match p
    case Note(text) => IsNote(text)
    case Block(before, after, _, body) => FitsRange(before, OldCount(body)) && FitsRange(after, NewCount(body))
  }

  ghost predicate WithinLimits(patches: seq<Patch>) {
    && |patches| <= MAX_FILES
    && |DiffLines(patches)| <= MAX_LINES
    && |Print(patches)| <= MAX_TEXT
    && Unmarked(DiffLines(patches), '\n')
    && Short(DiffLines(patches))
  }

  // What the parser should make of it.

  function Numbered(body: seq<BodyText>, from: nat, to: nat): seq<DiffLine> {
    if body == [] then []
    else
      var b, text := body[0], BodyTextLine(body[0]);
      var item :=
        match b
        case Keep(_) => DiffLine(text, Context, Some(from), Some(to))
        case Drop(_) => DiffLine(text, Removed, Some(from), None)
        case Add(_) => DiffLine(text, Added, None, Some(to))
        case NoNewline(_) => Plain(text);
      [item] + Numbered(body[1..], from + OldOf(b), to + NewOf(b))
  }

  function PieceItems(p: Piece): seq<DiffLine> {
    match p
    case Note(text) => [Plain(text)]
    case Block(before, after, tail, body) =>
      [Plain(HunkText(before, after, tail))] + Numbered(body, before.start, after.start)
  }

  /** The file so far with one more piece read. */
  function WithPiece(f: DiffFile, p: Piece): DiffFile {
    var g := f.(lines := f.lines + PieceItems(p));
    if p.Note? then g.(status := StatusAfter(f.status, p.text), binary := f.binary || MarksBinary(p.text)) else g
  }

  function WithPieces(f: DiffFile, pieces: seq<Piece>): DiffFile
    decreases |pieces|
  {
    if pieces == [] then f else WithPieces(WithPiece(f, pieces[0]), pieces[1..])
  }

  function PatchFiles(patches: seq<Patch>): seq<DiffFile> {
    if patches == [] then []
    else [WithPieces(DiffFile(patches[0].header, Modified, false, []), patches[0].pieces)] + PatchFiles(patches[1..])
  }

  // Reading back numerals, ranges and headers.

  lemma ReadNumeral(n: nat, rest: string)
    requires rest == "" || !IsDigit(rest[0])
    ensures var s, d := Numeral(n) + rest, Numeral(n);
      Lead(s) == |d| && |d| > 0 && s[..|d|] == d && s[|d|..] == rest && Value(d) == n
  {
    LeadOf(Numeral(n), rest);
  }

  lemma SpanIsRead(r: Range, rest: string)
    requires rest != "" && rest[0] == ' ' && (r.short ==> r.count == 1)
    ensures ReadSpan(RangeText(r) + rest) == Some(Span(r.start, r.count, rest))
  {
    hide Lead, Numeral, Value;
    if r.short {
      assert RangeText(r) + rest == Numeral(r.start) + rest;
      ReadNumeral(r.start, rest);
    } else {
      var tail := Numeral(r.count) + rest;
      assert RangeText(r) + rest == Numeral(r.start) + ("," + tail);
      ReadNumeral(r.start, "," + tail);
      assert ("," + tail)[1..] == tail;
      ReadNumeral(r.count, rest);
    }
  }

  lemma HunkIsRead(before: Range, after: Range, tail: string)
    requires (before.short ==> before.count == 1) && (after.short ==> after.count == 1)
    ensures ReadHunk(HunkText(before, after, tail)) == Some(Hunk(before.start, before.count, after.start, after.count))
  {
    hide ReadSpan, RangeText;
    var end := " @@" + tail;
    var middle := " +" + RangeText(after) + end;
    var line := HunkText(before, after, tail);
    assert line[4..] == RangeText(before) + middle;
    SpanIsRead(before, middle);
    assert middle[2..] == RangeText(after) + end;
    SpanIsRead(after, end);
  }

  lemma BodyIsNoHeader(b: BodyText)
    ensures var line := BodyTextLine(b);
      && ReadHunk(line).None? && !(FILE_MARK <= line) && !MarksBinary(line)
      && (b.NoNewline? ==> forall status :: StatusAfter(status, line) == status)
  {
    var line := BodyTextLine(b);
    assert line[0] == (match b case Keep(_) => ' ' case Drop(_) => '-' case Add(_) => '+' case NoNewline(_) => '\\');
  }

  // Scanning the printed lines.

  lemma {:induction false} ScanAppend(s: State, a: seq<string>, b: seq<string>)
    ensures Scan(s, a + b) == Scan(Scan(s, a), b)
    decreases |a|
  {
    hide Step;
    if a == [] {
      assert a + b == b;
    } else {
      assert (a + b)[1..] == a[1..] + b;
      ScanAppend(Step(s, a[0]), a[1..], b);
    }
  }

  ghost predicate Short(lines: seq<string>) {
    forall i :: 0 <= i < |lines| ==> |lines[i]| <= MAX_LINE
  }

  /** Between hunks of file f, nothing amiss so far. */
  ghost predicate Between(s: State, done: seq<DiffFile>, f: DiffFile) {
    s.done == done && s.current == Some(f) && !InHunk(s.at) && !s.truncated && !s.unsupported && !s.stopped
  }

  /** The item a body line becomes, and the cursor behind it. */
  lemma BodyItem(at: Cursor, b: BodyText)
    requires at.oldLeft >= OldOf(b) && at.newLeft >= NewOf(b)
    ensures var r := BodyLine(at, BodyTextLine(b));
      && Numbered([b], at.oldAt, at.newAt) == [r.1]
      && r.0 == Cursor(at.oldAt + OldOf(b), at.newAt + NewOf(b), at.oldLeft - OldOf(b), at.newLeft - NewOf(b))
      && !r.2 && r.1.text == BodyTextLine(b)
      && (!InHunk(at) ==> b.NoNewline? && r.1 == Plain(BodyTextLine(b)))
  {
    var line := BodyTextLine(b);
    assert line[0] == (match b case Keep(_) => ' ' case Drop(_) => '-' case Add(_) => '+' case NoNewline(_) => '\\');
    assert [b][1..] == [];
    assert b.NoNewline? ==> "\\ No newline" <= line;
  }

  lemma BodyStep(s: State, f: DiffFile, b: BodyText)
    requires s.current == Some(f) && !s.stopped && |BodyTextLine(b)| <= MAX_LINE
    requires s.at.oldLeft >= OldOf(b) && s.at.newLeft >= NewOf(b)
    ensures Step(s, BodyTextLine(b))
         == s.(current := Some(f.(lines := f.lines + Numbered([b], s.at.oldAt, s.at.newAt))),
               at := Cursor(s.at.oldAt + OldOf(b), s.at.newAt + NewOf(b), s.at.oldLeft - OldOf(b), s.at.newLeft - NewOf(b)))
  {
    hide ReadHunk, MarksBinary, StatusAfter, BodyLine, Numbered, BodyTextLine;
    BodyIsNoHeader(b);
    BodyItem(s.at, b);
  }

  lemma {:induction false} BodyScan(s: State, f: DiffFile, body: seq<BodyText>)
    requires s.current == Some(f) && !s.stopped && Short(BodyLines(body))
    requires s.at.oldLeft == OldCount(body) && s.at.newLeft == NewCount(body)
    ensures Scan(s, BodyLines(body))
         == s.(current := Some(f.(lines := f.lines + Numbered(body, s.at.oldAt, s.at.newAt))),
               at := Cursor(s.at.oldAt + OldCount(body), s.at.newAt + NewCount(body), 0, 0))
    decreases |body|
  {
    hide Step;
    if body == [] {
      assert f.lines + [] == f.lines;
    } else {
      var b, lines := body[0], BodyLines(body);
      assert lines[0] == BodyTextLine(b) && lines[1..] == BodyLines(body[1..]);
      BodyStep(s, f, b);
      var t := Step(s, lines[0]);
      ShortTail(lines);
      BodyScan(t, t.current.value, body[1..]);
      NumberedCons(body, s.at.oldAt, s.at.newAt, f.lines);
    }
  }

  lemma ShortTail(lines: seq<string>)
    requires Short(lines) && lines != []
    ensures Short(lines[1..])
  {
  }

  lemma NumberedCons(body: seq<BodyText>, from: nat, to: nat, front: seq<DiffLine>)
    requires body != []
    ensures front + Numbered(body, from, to)
         == front + Numbered([body[0]], from, to) + Numbered(body[1..], from + OldOf(body[0]), to + NewOf(body[0]))
  {
    assert [body[0]][1..] == [];
  }

  lemma HunkStep(s: State, done: seq<DiffFile>, f: DiffFile, p: Piece)
    requires Between(s, done, f) && p.Block? && WellFormed(p)
    requires |HunkText(p.before, p.after, p.tail)| <= MAX_LINE
    ensures var line := HunkText(p.before, p.after, p.tail);
      Step(s, line) == s.(current := Some(f.(lines := f.lines + [Plain(line)])),
                          at := Cursor(p.before.start, p.after.start, p.before.count, p.after.count))
  {
    hide ReadHunk;
    HunkIsRead(p.before, p.after, p.tail);
    var line := HunkText(p.before, p.after, p.tail);
    assert line[0] == '@' && line[1] == '@';
  }

  lemma PieceScan(s: State, done: seq<DiffFile>, f: DiffFile, p: Piece)
    requires Between(s, done, f) && WellFormed(p) && Short(PieceLines(p))
    ensures Between(Scan(s, PieceLines(p)), done, WithPiece(f, p))
  {
    hide Step, HunkText;
    match p {
      case Note(text) => NoteScan(s, done, f, text);
      case Block(before, after, tail, body) =>
        var line := HunkText(before, after, tail);
        assert PieceLines(p)[0] == line && PieceLines(p)[1..] == BodyLines(body);
        HunkStep(s, done, f, p);
        ShortTail(PieceLines(p));
        var t := Step(s, line);
        BodyScan(t, t.current.value, body);
        assert f.lines + [Plain(line)] + Numbered(body, before.start, after.start) == f.lines + PieceItems(p);
    }
  }

  lemma NoteScan(s: State, done: seq<DiffFile>, f: DiffFile, text: string)
    requires Between(s, done, f) && IsNote(text) && |text| <= MAX_LINE
    ensures Between(Scan(s, [text]), done, WithPiece(f, Note(text)))
  {
    hide ReadHunk, MarksBinary, StatusAfter;
    assert [text][1..] == [];
    assert Scan(s, [text]) == Step(s, text);
  }

  lemma {:induction false} PiecesScan(s: State, done: seq<DiffFile>, f: DiffFile, pieces: seq<Piece>)
    requires Between(s, done, f) && Short(PiecesLines(pieces))
    requires forall i :: 0 <= i < |pieces| ==> WellFormed(pieces[i])
    ensures Between(Scan(s, PiecesLines(pieces)), done, WithPieces(f, pieces))
    decreases |pieces|
  {
    hide Step, PieceLines, WithPiece, WellFormed, Between;
    if pieces != [] {
      var first, rest := PieceLines(pieces[0]), PiecesLines(pieces[1..]);
      ShortParts(first, rest);
      PieceScan(s, done, f, pieces[0]);
      PiecesScan(Scan(s, first), done, WithPiece(f, pieces[0]), pieces[1..]);
      ScanAppend(s, first, rest);
    }
  }

  lemma ShortParts(a: seq<string>, b: seq<string>)
    requires Short(a + b)
    ensures Short(a) && Short(b)
  {
    forall i | 0 <= i < |a| ensures |a[i]| <= MAX_LINE { assert (a + b)[i] == a[i]; }
    forall i | 0 <= i < |b| ensures |b[i]| <= MAX_LINE { assert (a + b)[|a| + i] == b[i]; }
  }

  ghost predicate Clear(s: State) {
    !InHunk(s.at) && !s.truncated && !s.unsupported && !s.stopped
  }

  ghost predicate AllWellFormed(patches: seq<Patch>) {
    forall i, j :: 0 <= i < |patches| && 0 <= j < |patches[i].pieces| ==> WellFormed(patches[i].pieces[j])
  }

  lemma MarkStep(s: State, header: string)
    requires Clear(s) && |Files(s)| < MAX_FILES && |FILE_MARK + header| <= MAX_LINE
    ensures Between(Step(s, FILE_MARK + header), Files(s), DiffFile(header, Modified, false, []))
  {
    assert (FILE_MARK + header)[|FILE_MARK|..] == header;
  }

  lemma PatchScan(s: State, p: Patch)
    requires Clear(s) && |Files(s)| < MAX_FILES
    requires (forall j :: 0 <= j < |p.pieces| ==> WellFormed(p.pieces[j]))
    requires Short([FILE_MARK + p.header] + PiecesLines(p.pieces))
    ensures Between(Scan(s, [FILE_MARK + p.header] + PiecesLines(p.pieces)), Files(s),
                    WithPieces(DiffFile(p.header, Modified, false, []), p.pieces))
  {
    hide Step, WellFormed, PiecesLines, WithPieces;
    var mark, inner := [FILE_MARK + p.header], PiecesLines(p.pieces);
    ShortParts(mark, inner);
    assert |mark[0]| <= MAX_LINE;
    MarkStep(s, p.header);
    assert mark[1..] == [];
    assert Scan(s, mark) == Step(s, mark[0]);
    PiecesScan(Scan(s, mark), Files(s), DiffFile(p.header, Modified, false, []), p.pieces);
    ScanAppend(s, mark, inner);
  }

  lemma {:induction false} DiffScan(s: State, patches: seq<Patch>)
    requires Clear(s) && |Files(s)| + |patches| <= MAX_FILES
    requires AllWellFormed(patches) && Short(DiffLines(patches))
    ensures Clear(Scan(s, DiffLines(patches)))
    ensures Files(Scan(s, DiffLines(patches))) == Files(s) + PatchFiles(patches)
    decreases |patches|
  {
    hide Step, WellFormed, PiecesLines, WithPieces, InHunk;
    if patches != [] {
      var p := patches[0];
      var first, rest := [FILE_MARK + p.header] + PiecesLines(p.pieces), DiffLines(patches[1..]);
      ShortParts(first, rest);
      PatchScan(s, p);
      ScanAppend(s, first, rest);
      RestWellFormed(patches);
      var t, file := Scan(s, first), WithPieces(DiffFile(p.header, Modified, false, []), p.pieces);
      assert Files(t) == Files(s) + [file];
      DiffScan(t, patches[1..]);
      assert Files(s) + PatchFiles(patches) == Files(s) + [file] + PatchFiles(patches[1..]);
    }
  }

  lemma RestWellFormed(patches: seq<Patch>)
    requires AllWellFormed(patches) && patches != []
    ensures AllWellFormed(patches[1..])
  {
  }

  /** Printing a well-formed diff within the limits and parsing it gives the same files, kinds, numbers and status. */
  lemma ParseUndoesPrint(patches: seq<Patch>)
    requires AllWellFormed(patches) && WithinLimits(patches)
    ensures Parse(Print(patches)) == Parsed(PatchFiles(patches), false, false)
  {
    hide Scan, DiffLines, PatchFiles, SplitLines, JoinLines, WellFormed;
    var lines := DiffLines(patches);
    if patches == [] {
      EmptyDiff();
    } else {
      SomeLines(patches);
      SplitUndoesJoin(lines);
      assert Bounded(Print(patches)) == Print(patches);
      DiffScan(Begin(false), patches);
    }
  }

  lemma SomeLines(patches: seq<Patch>)
    requires patches != []
    ensures DiffLines(patches) != []
  {
  }

  lemma EmptyDiff()
    ensures Parse(Print([])) == Parsed([], false, false) && PatchFiles([]) == []
  {
    hide Find;
    SplitOne("");
    assert [""][1..] == [];
    assert Scan(Begin(false), [""]) == Begin(false);
  }
}
