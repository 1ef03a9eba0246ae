/**
 The resumable run-event stream: a server that replays its log after a cursor, and a client that
 reconnects at the last accepted sequence. Connections are cut at arbitrary points.
 */
module RunEvents {
  import opened Prelude
  import opened Framing
  import opened Decimals
  import opened Text

  const MAX_FRAME: nat := 262144
  const MAX_CURSOR: int := 9223372036854775807
  const BLANK: string := "\n\n"

  // ---- the client's reading of one frame ----

  /** One to nineteen digits, no larger than the largest cursor. */
  function Sequence(s: string): Option<nat> {
    if 1 <= |s| <= 19 && AllDigits(s) && Value(s) <= MAX_CURSOR then Some(Value(s)) else None
  }

  function FindId(lines: seq<string>): Option<string> {
    if lines == [] then None
    else if StartsWith(lines[0], "id:") then Some(Trim(lines[0][3..]))
    else FindId(lines[1..])
  }

  function DataLines(lines: seq<string>): seq<string> {
    if lines == [] then []
    else (if StartsWith(lines[0], "data:") then [TrimStart(lines[0][5..])] else []) + DataLines(lines[1..])
  }

  /** `sequenceOf` stands for parsing the data and reading a safe-integer `sequence` from it; `None` if it cannot. */
  type Parser = string -> Option<int>

  datatype Reading = Skip | Advance(next: nat) | Invalid

  function ReadFrame(sequenceOf: Parser, cursor: nat, frame: string): Reading {
    var lines := SplitLines(frame);
    match FindId(lines)
    case None => Skip
    case Some(id) =>
      match Sequence(id)
      case None => Invalid
      case Some(next) =>
        if next <= cursor then Skip
        else if sequenceOf(JoinLines(DataLines(lines))) != Some(next) then Invalid
        else Advance(next)
  }

  // ---- the client ----

  /** `stopped` is the unavailable state, after which nothing is requested again. */
  datatype Client = Client(cursor: nat, failures: nat, refreshes: nat, stopped: bool, accepted: seq<nat>)

  function TakeFrame(sequenceOf: Parser, c: Client, frame: string): Client {
    if c.stopped then c
    else
      match ReadFrame(sequenceOf, c.cursor, frame)
      case Skip => c
      case Invalid => c.(stopped := true)
      case Advance(next) =>
        c.(cursor := next, failures := 0, refreshes := c.refreshes + 1, accepted := c.accepted + [next])
  }

  function TakeFrames(sequenceOf: Parser, c: Client, frames: seq<string>): Client
    decreases |frames|
  {
    if frames == [] then c else TakeFrames(sequenceOf, TakeFrame(sequenceOf, c, frames[0]), frames[1..])
  }

  function TakeChunks(sequenceOf: Parser, c: Client, buffer: string, chunks: seq<string>): Client
    decreases |chunks|
  {
    if chunks == [] || c.stopped then c
    else if |buffer| + |chunks[0]| > MAX_FRAME then c.(stopped := true)
    else
      var cut := Drain(buffer + chunks[0], BLANK);
      TakeChunks(sequenceOf, TakeFrames(sequenceOf, c, cut.frames), cut.rest, chunks[1..])
  }

  /** One request: refused, lost, or a body that arrives in chunks until it ends or is cut. */
  datatype Attempt = Refused(status: nat) | Lost | Mistyped | Body(chunks: seq<string>)

  function Request(sequenceOf: Parser, c: Client, a: Attempt): Client {
    if c.stopped then c
    else
      var after :=
        match a
        case Refused(status) => c.(stopped := 400 <= status < 500)
        case Lost => c
        case Mistyped => c.(stopped := true)
        case Body(chunks) => TakeChunks(sequenceOf, c.(refreshes := c.refreshes + 1), "", chunks);
      if after.stopped then after else after.(failures := after.failures + 1)
  }

  function Requests(sequenceOf: Parser, c: Client, attempts: seq<Attempt>): Client
    decreases |attempts|
  {
    if attempts == [] then c else Requests(sequenceOf, Request(sequenceOf, c, attempts[0]), attempts[1..])
  }

  function Start(after: string): Client {
    match Sequence(after)
    case None => Client(0, 0, 0, true, [])
    case Some(cursor) => Client(cursor, 0, 0, false, [])
  }

  // ---- the client as the code runs it ----

  method ReadBody(sequenceOf: Parser, c: Client, chunks: seq<string>) returns (d: Client)
    ensures d == TakeChunks(sequenceOf, c, "", chunks)
  {
    hide ReadFrame, Find, Drain;
    d := c;
    if d.stopped {
      return;
    }
    var buffer := "";
    var n := 0;
    while n < |chunks|
      invariant 0 <= n <= |chunks| && !d.stopped
      invariant TakeChunks(sequenceOf, c, "", chunks) == TakeChunks(sequenceOf, d, buffer, chunks[n..])
    {
      assert chunks[n..][1..] == chunks[n + 1..];
      if |buffer| + |chunks[n]| > MAX_FRAME {
        d := d.(stopped := true);
        return;
      }
      ghost var whole := buffer + chunks[n];
      ghost var before := d;
      buffer := buffer + chunks[n];
      var end := Find(buffer, BLANK);
      while end >= 0
        invariant end == Find(buffer, BLANK) && !d.stopped
        invariant TakeFrames(sequenceOf, before, Drain(whole, BLANK).frames)
                  == TakeFrames(sequenceOf, d, Drain(buffer, BLANK).frames)
        invariant Drain(whole, BLANK).rest == Drain(buffer, BLANK).rest
        decreases |buffer|
      {
        DrainOnce(buffer, BLANK);
        var frame := buffer[..end];
        buffer := buffer[end + 2..];
        match ReadFrame(sequenceOf, d.cursor, frame) {
          case Skip =>
          case Invalid =>
            d := d.(stopped := true);
            StoppedStays(sequenceOf, d, Drain(buffer, BLANK).frames);
            return;
          case Advance(next) =>
            d := d.(cursor := next, failures := 0, refreshes := d.refreshes + 1, accepted := d.accepted + [next]);
        }
        end := Find(buffer, BLANK);
      }
      DrainNone(buffer, BLANK);
      n := n + 1;
    }
  }

  method Listen(sequenceOf: Parser, after: string, attempts: seq<Attempt>) returns (c: Client)
    ensures c == Requests(sequenceOf, Start(after), attempts)
  {
    hide TakeChunks;
    c := Start(after);
    var n := 0;
    while n < |attempts| && !c.stopped
      invariant 0 <= n <= |attempts|
      invariant Requests(sequenceOf, Start(after), attempts) == Requests(sequenceOf, c, attempts[n..])
    {
      assert attempts[n..][1..] == attempts[n + 1..];
      match attempts[n] {
        case Refused(status) => c := c.(stopped := 400 <= status < 500);
        case Lost =>
        case Mistyped => c := c.(stopped := true);
        case Body(chunks) => c := ReadBody(sequenceOf, c.(refreshes := c.refreshes + 1), chunks);
      }
      if !c.stopped {
        c := c.(failures := c.failures + 1);
      }
      n := n + 1;
    }
    if c.stopped {
      StoppedForGood(sequenceOf, c, attempts[n..]);
    }
  }

  lemma {:induction false} StoppedStays(sequenceOf: Parser, c: Client, frames: seq<string>)
    requires c.stopped
    ensures TakeFrames(sequenceOf, c, frames) == c
    decreases |frames|
  {
    if frames != [] {
      StoppedStays(sequenceOf, c, frames[1..]);
    }
  }

  lemma {:induction false} StoppedForGood(sequenceOf: Parser, c: Client, attempts: seq<Attempt>)
    requires c.stopped
    ensures Requests(sequenceOf, c, attempts) == c
    decreases |attempts|
  {
    if attempts != [] {
      StoppedForGood(sequenceOf, c, attempts[1..]);
    }
  }

  // ---- the server ----

  /** A persisted event as it is sent: its sequence, its name on the wire and its one line of encoded data. */
  datatype Event = Event(sequence: nat, name: string, data: string)

  predicate IsLetter(c: char) {
    'A' <= c <= 'Z' || 'a' <= c <= 'z'
  }

  /** What the encoder guarantees: a cursor-sized sequence, a plain name, and an ASCII object without line breaks. */
  ghost predicate Encodable(e: Event) {
    && 1 <= e.sequence <= MAX_CURSOR
    && 1 <= |e.name| <= 96
    && IsLetter(e.name[0])
    && (forall i :: 0 <= i < |e.name| ==> IsLetter(e.name[i]) || IsDigit(e.name[i]) || e.name[i] in {'_', '.', '-'})
    && e.data != ""
    && e.data[0] == '{'
    && (forall i :: 0 <= i < |e.data| ==> ' ' <= e.data[i] <= '~')
  }

  ghost predicate Ascending(events: seq<Event>) {
    forall i, j :: 0 <= i < j < |events| ==> events[i].sequence < events[j].sequence
  }

  ghost predicate Log(log: seq<Event>) {
    Ascending(log) && forall i :: 0 <= i < |log| ==> Encodable(log[i])
  }

  function After(log: seq<Event>, cursor: nat): seq<Event> {
    if log == [] then []
    else (if log[0].sequence > cursor then [log[0]] else []) + After(log[1..], cursor)
  }

  function IdLine(e: Event): string {
    "id: " + Numeral(e.sequence)
  }

  function EventText(e: Event): string {
    IdLine(e) + LF + ("event: " + e.name) + LF + ("data: " + e.data)
  }

  const HEARTBEAT: string := ": heartbeat"

  datatype Item = Beat | Send(event: Event)

  function ItemText(item: Item): string {
    match item
    case Beat => HEARTBEAT
    case Send(e) => EventText(e)
  }

  function Texts(items: seq<Item>): seq<string> {
    if items == [] then [] else [ItemText(items[0])] + Texts(items[1..])
  }

  function EventsOf(items: seq<Item>): seq<Event> {
    if items == [] then []
    else (if items[0].Send? then [items[0].event] else []) + EventsOf(items[1..])
  }

  function Flat(chunks: seq<string>): string {
    if chunks == [] then "" else chunks[0] + Flat(chunks[1..])
  }

  ghost predicate Sends(log: seq<Event>, lastEventId: string, items: seq<Item>) {
    Sequence(lastEventId).Some? && EventsOf(items) <= After(log, Sequence(lastEventId).value)
  }

  /** The body of one connection: some of the log after the cursor, heartbeats anywhere, cut at any byte. */
  ghost predicate Served(log: seq<Event>, lastEventId: string, chunks: seq<string>) {
    exists items :: Sends(log, lastEventId, items) && Flat(chunks) <= Joined(Texts(items), BLANK)
  }

  /** Every connection that answers with a body is served from the log after the client's cursor at that moment. */
  ghost predicate HonestRun(sequenceOf: Parser, log: seq<Event>, c: Client, attempts: seq<Attempt>)
    decreases |attempts|
  {
    attempts == [] || c.stopped ||
    ((attempts[0].Body? ==> Served(log, Numeral(c.cursor), attempts[0].chunks))
     && HonestRun(sequenceOf, log, Request(sequenceOf, c, attempts[0]), attempts[1..]))
  }

  /** Parsing an event's data yields its sequence, unless a double cannot hold it exactly. */
  ghost predicate Faithful(sequenceOf: Parser, log: seq<Event>) {
    forall i :: 0 <= i < |log| ==>
      sequenceOf(log[i].data) == if log[i].sequence <= MAX_SAFE then Some(log[i].sequence) else None
  }

  // ---- one frame ----

  lemma SplitThree(a: string, b: string, d: string)
    requires '\n' !in a && '\n' !in b && '\n' !in d
    ensures SplitLines(a + LF + b + LF + d) == [a, b, d]
  {
    hide Find;
    UnmarkedIsClean(a, '\n');
    UnmarkedIsClean(b, '\n');
    UnmarkedIsClean(d, '\n');
    assert a + LF + b + LF + d == a + LF + (b + LF + d);
    DrainFrame(a, b + LF + d, LF);
    DrainFrame(b, d, LF);
  }

  lemma IdLineIsOneLine(e: Event)
    ensures '\n' !in IdLine(e)
  {
    var digits := Numeral(e.sequence);
    forall i | 0 <= i < |IdLine(e)| ensures IdLine(e)[i] != '\n' {
      if i >= 4 { assert IsDigit(digits[i - 4]); }
    }
  }

  lemma EventLines(e: Event)
    requires Encodable(e)
    ensures SplitLines(EventText(e)) == [IdLine(e), "event: " + e.name, "data: " + e.data]
  {
    hide SplitLines;
    IdLineIsOneLine(e);
    SplitThree(IdLine(e), "event: " + e.name, "data: " + e.data);
  }

  /** A cursor survives being written into the `Last-Event-ID` header and read back. */
  lemma CursorRoundTrip(n: nat)
    requires n <= MAX_CURSOR
    ensures Sequence(Numeral(n)) == Some(n)
  {
    assert Pow10(19) == 10000000000000000000 by {
      assert Pow10(4) == 10000;
      assert Pow10(8) == 100000000;
      assert Pow10(12) == 1000000000000;
      assert Pow10(16) == 10000000000000000;
    }
    NumeralLength(n, 19);
  }

  lemma TrimNumeral(digits: string)
    requires digits != "" && AllDigits(digits)
    ensures Trim(" " + digits) == digits
  {
    var s := " " + digits;
    assert s[1..] == digits;
    assert IsDigit(digits[0]) && IsDigit(digits[|digits| - 1]);
    assert TrimStart(digits) == digits;
  }

  lemma IdIsFound(e: Event)
    requires 1 <= e.sequence <= MAX_CURSOR
    ensures FindId([IdLine(e), "event: " + e.name, "data: " + e.data]) == Some(Numeral(e.sequence))
  {
    hide Trim, Numeral;
    var digits := Numeral(e.sequence);
    assert IdLine(e)[..3] == "id:" && IdLine(e)[3..] == " " + digits;
    TrimNumeral(digits);
  }

  lemma DataIsFound(e: Event)
    requires e.data != "" && e.data[0] == '{'
    ensures DataLines([IdLine(e), "event: " + e.name, "data: " + e.data]) == [e.data]
  {
    hide Numeral, DataLines;
    var name, data := "event: " + e.name, "data: " + e.data;
    assert IdLine(e)[0] == 'i' && name[0] == 'e' && data[..5] == "data:" && data[5..] == " " + e.data;
    OneDataLine(IdLine(e), name, data);
    assert (" " + e.data)[1..] == e.data;
    assert TrimStart(" " + e.data) == e.data;
  }

  lemma OneJoined(line: string)
    ensures JoinLines([line]) == line
  {
  }

  lemma EventIsRead(sequenceOf: Parser, cursor: nat, e: Event)
    requires Encodable(e) && e.sequence > cursor
    requires sequenceOf(e.data) == if e.sequence <= MAX_SAFE then Some(e.sequence) else None
    ensures ReadFrame(sequenceOf, cursor, EventText(e))
         == if e.sequence <= MAX_SAFE then Advance(e.sequence) else Invalid
  {
    hide SplitLines, Sequence, EventText, FindId, DataLines, JoinLines, Numeral, IdLine;
    EventLines(e);
    IdIsFound(e);
    DataIsFound(e);
    OneJoined(e.data);
    CursorRoundTrip(e.sequence);
  }

  lemma OneDataLine(a: string, b: string, d: string)
    requires !StartsWith(a, "data:") && !StartsWith(b, "data:") && StartsWith(d, "data:")
    ensures DataLines([a, b, d]) == [TrimStart(d[5..])]
  {
    hide TrimStart;
    assert [a, b, d][1..] == [b, d] && [b, d][1..] == [d];
    assert DataLines([d]) == [TrimStart(d[5..])];
  }

  lemma BeatIsSkipped(sequenceOf: Parser, cursor: nat)
    ensures ReadFrame(sequenceOf, cursor, HEARTBEAT) == Skip
  {
    hide SplitLines;
    SplitOne(HEARTBEAT);
    assert HEARTBEAT[0] == ':';
  }

  // ---- one connection ----

  lemma ItemIsClean(item: Item)
    requires item.Send? ==> Encodable(item.event)
    ensures Clean(ItemText(item), BLANK)
  {
    var text := ItemText(item);
    forall j | 0 <= j < |text| ensures !At(text + BLANK, j, BLANK) {
      if At(text + BLANK, j, BLANK) {
        var s := text + BLANK;
        assert s[j..j + 2][0] == s[j] && s[j..j + 2][1] == s[j + 1];
        if item.Send? { BreaksAreSingle(item.event, j); }
      }
    }
  }

  lemma BreaksAreSingle(e: Event, j: nat)
    requires Encodable(e) && j < |EventText(e)|
    ensures EventText(e)[j] == '\n' ==> (EventText(e) + BLANK)[j + 1] != '\n'
  {
    var a, b, d := IdLine(e), "event: " + e.name, "data: " + e.data;
    IdLineIsOneLine(e);
    var text := EventText(e);
    assert text == a + LF + b + LF + d;
    if j < |a| {
      assert text[j] == a[j];
    } else if j == |a| {
      assert text[j + 1] == b[0];
    } else if j <= |a| + |b| {
      assert text[j] == b[j - |a| - 1];
    } else if j == |a| + |b| + 1 {
      assert text[j + 1] == d[0];
    } else {
      assert text[j] == d[j - |a| - |b| - 2];
    }
  }

  lemma {:induction false} StreamIsItsFrames(items: seq<Item>)
    requires forall i :: 0 <= i < |items| && items[i].Send? ==> Encodable(items[i].event)
    ensures Drain(Joined(Texts(items), BLANK), BLANK) == Cut(Texts(items), [])
  {
    hide Find, Drain, ItemText, Encodable;
    if items == [] {
      DrainNone([], BLANK);
    } else {
      StreamIsItsFrames(items[1..]);
      ItemIsClean(items[0]);
      DrainFrame(ItemText(items[0]), Joined(Texts(items[1..]), BLANK), BLANK);
      assert Texts(items)[1..] == Texts(items[1..]);
    }
  }

  lemma {:induction false} TakeFramesAppend(sequenceOf: Parser, c: Client, a: seq<string>, b: seq<string>)
    ensures TakeFrames(sequenceOf, c, a + b) == TakeFrames(sequenceOf, TakeFrames(sequenceOf, c, a), b)
    decreases |a|
  {
    hide TakeFrame;
    if a == [] {
      assert a + b == b;
    } else {
      assert (a + b)[1..] == a[1..] + b;
      TakeFramesAppend(sequenceOf, TakeFrame(sequenceOf, c, a[0]), a[1..], b);
    }
  }

  /** No chunk ever finds the buffer too full. */
  predicate Fits(buffer: string, chunks: seq<string>)
    decreases |chunks|
  {
    chunks == [] ||
    (|buffer| + |chunks[0]| <= MAX_FRAME && Fits(Drain(buffer + chunks[0], BLANK).rest, chunks[1..]))
  }

  ghost predicate ShortFrames(frames: seq<string>) {
    forall i :: 0 <= i < |frames| ==> |frames[i]| + |BLANK| <= MAX_FRAME
  }

  lemma {:induction false} FramesAreWithin(s: string)
    requires |s| <= MAX_FRAME
    ensures ShortFrames(Drain(s, BLANK).frames)
    decreases |s|
  {
    hide Find;
    var i := Find(s, BLANK);
    if i >= 0 {
      FramesAreWithin(s[i + 2..]);
    }
  }

  /**
   Reading in chunks is reading the frames of the whole body, up to the point where a chunk finds the
   buffer too full, which stops the client: how the bytes are split into chunks changes nothing else.
   No frame that is read is longer than the buffer.
   */
  lemma {:induction false} ChunksAreFrames(sequenceOf: Parser, c: Client, buffer: string, chunks: seq<string>)
    returns (n: nat)
    requires !c.stopped && Find(buffer, BLANK) < 0
    ensures var frames := Drain(buffer + Flat(chunks), BLANK).frames;
      && n <= |frames|
      && ShortFrames(frames[..n])
      && var d := TakeChunks(sequenceOf, c, buffer, chunks);
      && var t := TakeFrames(sequenceOf, c, frames[..n]);
      && d.accepted == t.accepted
      && d.cursor == t.cursor
      && (if Fits(buffer, chunks) then d == TakeFrames(sequenceOf, c, frames) else d.stopped)
    decreases |chunks|
  {
    hide Find, Drain, TakeFrame, ShortFrames;
    if chunks == [] {
      assert buffer + Flat(chunks) == buffer;
      DrainNone(buffer, BLANK);
      n := 0;
      NoFrames();
    } else if |buffer| + |chunks[0]| > MAX_FRAME {
      n := 0;
      NoFrames();
    } else {
      var cut := Drain(buffer + chunks[0], BLANK);
      var d := TakeFrames(sequenceOf, c, cut.frames);
      DrainAppend(buffer + chunks[0], Flat(chunks[1..]), BLANK);
      assert buffer + Flat(chunks) == (buffer + chunks[0]) + Flat(chunks[1..]);
      var more := Drain(cut.rest + Flat(chunks[1..]), BLANK).frames;
      RestIsUncut(buffer + chunks[0], BLANK);
      FramesAreWithin(buffer + chunks[0]);
      TakeFramesAppend(sequenceOf, c, cut.frames, more);
      if d.stopped {
        StoppedStays(sequenceOf, d, more);
        n := |cut.frames|;
        assert (cut.frames + more)[..n] == cut.frames;
      } else {
        var m := ChunksAreFrames(sequenceOf, d, cut.rest, chunks[1..]);
        TakeFramesAppend(sequenceOf, c, cut.frames, more[..m]);
        n := |cut.frames| + m;
        assert (cut.frames + more)[..n] == cut.frames + more[..m];
        ShortTogether(cut.frames, more[..m]);
      }
    }
  }

  lemma NoFrames()
    ensures ShortFrames([])
  {
  }

  lemma ShortTogether(a: seq<string>, b: seq<string>)
    requires ShortFrames(a) && ShortFrames(b)
    ensures ShortFrames(a + b)
  {
  }

  /** What fits holds short frames only. */
  lemma {:induction false} FittingFramesAreShort(buffer: string, chunks: seq<string>)
    requires Find(buffer, BLANK) < 0 && Fits(buffer, chunks)
    ensures ShortFrames(Drain(buffer + Flat(chunks), BLANK).frames)
    decreases |chunks|
  {
    hide Find, Drain, ShortFrames;
    if chunks == [] {
      assert buffer + Flat(chunks) == buffer;
      DrainNone(buffer, BLANK);
      NoFrames();
    } else {
      var cut := Drain(buffer + chunks[0], BLANK);
      DrainAppend(buffer + chunks[0], Flat(chunks[1..]), BLANK);
      assert buffer + Flat(chunks) == (buffer + chunks[0]) + Flat(chunks[1..]);
      RestIsUncut(buffer + chunks[0], BLANK);
      FramesAreWithin(buffer + chunks[0]);
      FittingFramesAreShort(cut.rest, chunks[1..]);
      ShortTogether(cut.frames, Drain(cut.rest + Flat(chunks[1..]), BLANK).frames);
    }
  }

  type Test = Event -> bool

  /** The sequences of the events before the first one that fails the test. */
  function Leading(test: Test, events: seq<Event>): seq<nat> {
    if events == [] || !test(events[0]) then [] else [events[0].sequence] + Leading(test, events[1..])
  }

  predicate AllPass(test: Test, events: seq<Event>) {
    forall i :: 0 <= i < |events| ==> test(events[i])
  }

  /** A double holds the sequence exactly. */
  predicate IsSafe(e: Event) {
    e.sequence <= MAX_SAFE
  }

  /** The frame, with the blank line that ends it, fits the buffer. */
  predicate IsShort(e: Event) {
    |EventText(e)| + |BLANK| <= MAX_FRAME
  }

  /** The client can take the event: both limits of the code hold. */
  predicate CanTake(e: Event) {
    IsSafe(e) && IsShort(e)
  }

  function LastOr(cursor: nat, ids: seq<nat>): nat {
    if ids == [] then cursor else ids[|ids| - 1]
  }

  ghost predicate Readable(sequenceOf: Parser, cursor: nat, events: seq<Event>) {
    && Log(events)
    && Faithful(sequenceOf, events)
    && forall i :: 0 <= i < |events| ==> events[i].sequence > cursor
  }

  lemma EventIsTaken(sequenceOf: Parser, c: Client, e: Event)
    requires !c.stopped && Encodable(e) && e.sequence > c.cursor
    requires sequenceOf(e.data) == if e.sequence <= MAX_SAFE then Some(e.sequence) else None
    ensures TakeFrame(sequenceOf, c, EventText(e)) ==
      if IsSafe(e) then
        c.(cursor := e.sequence, failures := 0, refreshes := c.refreshes + 1, accepted := c.accepted + [e.sequence])
      else c.(stopped := true)
  {
    hide ReadFrame, EventText, Encodable;
    EventIsRead(sequenceOf, c.cursor, e);
  }

  /** The first event of a readable list, and the rest once it has been taken. */
  lemma ReadableRest(sequenceOf: Parser, cursor: nat, events: seq<Event>)
    requires Readable(sequenceOf, cursor, events) && events != []
    ensures var e := events[0];
      && Encodable(e) && e.sequence > cursor
      && sequenceOf(e.data) == (if e.sequence <= MAX_SAFE then Some(e.sequence) else None)
      && Readable(sequenceOf, e.sequence, events[1..])
  {
    hide Encodable;
  }

  lemma LeadingCons(test: Test, events: seq<Event>)
    requires events != []
    ensures AllPass(test, events) <==> test(events[0]) && AllPass(test, events[1..])
    ensures Leading(test, events) == if test(events[0]) then [events[0].sequence] + Leading(test, events[1..]) else []
  {
  }

  /** What the frames of the events make of the client. */
  ghost predicate Took(c: Client, d: Client, events: seq<Event>) {
    var ids := Leading(IsSafe, events);
    d.accepted == c.accepted + ids && d.cursor == LastOr(c.cursor, ids) && (d.stopped <==> !AllPass(IsSafe, events))
  }

  lemma TookNothing(c: Client)
    requires !c.stopped
    ensures Took(c, c, [])
  {
  }

  lemma TookOneMore(c: Client, d: Client, t: Client, events: seq<Event>)
    requires events != [] && IsSafe(events[0]) && Took(d, t, events[1..])
    requires d.accepted == c.accepted + [events[0].sequence] && d.cursor == events[0].sequence
    ensures Took(c, t, events)
  {
    hide IsSafe, Leading, AllPass;
    LeadingCons(IsSafe, events);
    var ids := Leading(IsSafe, events[1..]);
    assert c.accepted + [events[0].sequence] + ids == c.accepted + ([events[0].sequence] + ids);
  }

  lemma TookUpTo(c: Client, d: Client, events: seq<Event>)
    requires events != [] && !IsSafe(events[0]) && d == c.(stopped := true)
    ensures Took(c, d, events)
  {
    hide IsSafe, Leading, AllPass;
    LeadingCons(IsSafe, events);
  }

  lemma TextsCons(items: seq<Item>)
    requires items != []
    ensures Texts(items) == [ItemText(items[0])] + Texts(items[1..])
    ensures EventsOf(items) == (if items[0].Send? then [items[0].event] else []) + EventsOf(items[1..])
  {
  }

  lemma TakeFramesCons(sequenceOf: Parser, c: Client, frame: string, rest: seq<string>)
    ensures TakeFrames(sequenceOf, c, [frame] + rest) == TakeFrames(sequenceOf, TakeFrame(sequenceOf, c, frame), rest)
  {
    hide TakeFrame;
    assert ([frame] + rest)[1..] == rest;
  }

  lemma {:induction false} ItemsAreTaken(sequenceOf: Parser, c: Client, items: seq<Item>)
    requires !c.stopped && Readable(sequenceOf, c.cursor, EventsOf(items))
    ensures Took(c, TakeFrames(sequenceOf, c, Texts(items)), EventsOf(items))
    decreases |items|
  {
    hide TakeFrame, TakeFrames, EventText, Readable, Took, IsSafe, Texts, EventsOf;
    if items == [] {
      NoItems(sequenceOf, c);
      TookNothing(c);
    } else {
      var texts, rest := Texts(items[1..]), EventsOf(items[1..]);
      TextsCons(items);
      TakeFramesCons(sequenceOf, c, ItemText(items[0]), texts);
      match items[0] {
        case Beat =>
          BeatIsTaken(sequenceOf, c);
          assert [] + rest == rest;
          ItemsAreTaken(sequenceOf, c, items[1..]);
        case Send(e) =>
          var events := EventsOf(items);
          assert events[0] == e && events[1..] == rest;
          ReadableRest(sequenceOf, c.cursor, events);
          EventIsTaken(sequenceOf, c, e);
          var d := TakeFrame(sequenceOf, c, EventText(e));
          if IsSafe(e) {
            ItemsAreTaken(sequenceOf, d, items[1..]);
            TookOneMore(c, d, TakeFrames(sequenceOf, d, texts), events);
          } else {
            StoppedStays(sequenceOf, d, texts);
            TookUpTo(c, d, events);
          }
      }
    }
  }

  lemma NoItems(sequenceOf: Parser, c: Client)
    ensures TakeFrames(sequenceOf, c, Texts([])) == c && EventsOf([]) == []
  {
  }

  lemma BeatIsTaken(sequenceOf: Parser, c: Client)
    ensures TakeFrame(sequenceOf, c, HEARTBEAT) == c
  {
    hide ReadFrame;
    BeatIsSkipped(sequenceOf, c.cursor);
  }

  // ---- whole runs ----

  function Ids(events: seq<Event>): seq<nat> {
    if events == [] then [] else [events[0].sequence] + Ids(events[1..])
  }

  lemma {:induction false} AfterKeepsOrder(log: seq<Event>, cursor: nat)
    requires Log(log)
    ensures Log(After(log, cursor))
    ensures forall i :: 0 <= i < |After(log, cursor)| ==> After(log, cursor)[i].sequence > cursor
    ensures forall e :: e in After(log, cursor) ==> e in log
  {
    hide Encodable;
    if log != [] {
      AfterKeepsOrder(log[1..], cursor);
      var tail := After(log[1..], cursor);
      forall i | 0 <= i < |tail| ensures log[0].sequence < tail[i].sequence && Encodable(tail[i]) {
        assert tail[i] in log[1..];
      }
    }
  }

  lemma {:induction false} NothingToDrop(events: seq<Event>, cursor: nat)
    requires forall i :: 0 <= i < |events| ==> events[i].sequence > cursor
    ensures After(events, cursor) == events
  {
    if events != [] {
      NothingToDrop(events[1..], cursor);
    }
  }

  lemma {:induction false} AfterTwice(log: seq<Event>, c: nat, d: nat)
    requires c <= d
    ensures After(After(log, c), d) == After(log, d)
  {
    if log != [] {
      AfterTwice(log[1..], c, d);
      var tail := After(log[1..], c);
      if log[0].sequence > c {
        assert ([log[0]] + tail)[1..] == tail;
      } else {
        assert After(log, c) == tail;
        assert After(log, d) == After(log[1..], d);
      }
    }
  }

  /** Asking again after the last accepted event asks for exactly what is left. */
  lemma {:induction false} WhatIsLeft(events: seq<Event>, k: nat)
    requires Ascending(events) && 0 < k <= |events|
    ensures After(events, events[k - 1].sequence) == events[k..]
  {
    var rest := events[1..];
    if k == 1 {
      NothingToDrop(rest, events[0].sequence);
    } else {
      WhatIsLeft(rest, k - 1);
    }
  }

  lemma {:induction false} LeadingAreIds(test: Test, events: seq<Event>)
    ensures Leading(test, events) <= Ids(events)
    ensures |Ids(events)| == |events|
    ensures forall i :: 0 <= i < |events| ==> Ids(events)[i] == events[i].sequence
    ensures AllPass(test, events) <==> Leading(test, events) == Ids(events)
  {
    if events != [] {
      LeadingAreIds(test, events[1..]);
      var ids, rest := Ids(events), events[1..];
      forall i | 0 <= i < |events| ensures ids[i] == events[i].sequence {
        if i > 0 { assert Ids(rest)[i - 1] == rest[i - 1].sequence; }
      }
      if Leading(test, events) == ids {
        assert Leading(test, events)[1..] == ids[1..];
        forall i | 0 <= i < |events| ensures test(events[i]) {
          if i > 0 { assert test(rest[i - 1]); }
        }
      }
    }
  }

  lemma {:induction false} LeadingOfPrefix(test: Test, events: seq<Event>, n: nat)
    requires n <= |events|
    ensures Leading(test, events[..n]) <= Leading(test, events)
  {
    if n > 0 {
      assert events[..n][1..] == events[1..][..n - 1];
      LeadingOfPrefix(test, events[1..], n - 1);
    }
  }

  lemma {:induction false} LeadingAgree(a: Test, b: Test, events: seq<Event>)
    requires forall i :: 0 <= i < |events| ==> a(events[i]) == b(events[i])
    ensures Leading(a, events) == Leading(b, events)
  {
    if events != [] {
      LeadingAgree(a, b, events[1..]);
    }
  }

  /** After the first k have been taken, the rest is still to come. */
  lemma {:induction false} LeadingSplit(test: Test, events: seq<Event>, k: nat)
    requires k <= |Leading(test, events)|
    ensures k <= |events| && Leading(test, events)[k..] == Leading(test, events[k..])
    decreases k
  {
    if k > 0 {
      LeadingSplit(test, events[1..], k - 1);
      assert events[1..][k - 1..] == events[k..];
      assert Leading(test, events)[k..] == Leading(test, events[1..])[k - 1..];
    } else {
      assert events[0..] == events && Leading(test, events)[0..] == Leading(test, events);
    }
  }

  lemma {:induction false} TextsPrefix(items: seq<Item>, n: nat)
    requires n <= |Texts(items)|
    ensures n <= |items| && Texts(items)[..n] == Texts(items[..n])
    ensures EventsOf(items[..n]) <= EventsOf(items)
  {
    hide ItemText;
    if n > 0 {
      TextsPrefix(items[1..], n - 1);
      assert items[..n][1..] == items[1..][..n - 1];
      assert Texts(items)[..n] == [ItemText(items[0])] + Texts(items[1..])[..n - 1];
    }
  }

  ghost predicate Inherits(events: seq<Event>, more: seq<Event>) {
    forall e :: e in events ==> e in more
  }

  lemma ReadablePart(sequenceOf: Parser, log: seq<Event>, cursor: nat, events: seq<Event>)
    requires Log(log) && Faithful(sequenceOf, log) && events <= After(log, cursor)
    ensures Readable(sequenceOf, cursor, events)
  {
    hide Encodable;
    AfterKeepsOrder(log, cursor);
    forall i | 0 <= i < |events|
      ensures sequenceOf(events[i].data)
           == if events[i].sequence <= MAX_SAFE then Some(events[i].sequence) else None
    {
      assert events[i] == After(log, cursor)[i] && events[i] in After(log, cursor);
    }
  }

  lemma {:induction false} ItemsHoldEvents(items: seq<Item>, events: seq<Event>)
    requires Inherits(EventsOf(items), events) && Log(events)
    ensures forall i :: 0 <= i < |items| && items[i].Send? ==> Encodable(items[i].event)
  {
    hide Encodable;
    if items != [] {
      assert Inherits(EventsOf(items[1..]), events);
      ItemsHoldEvents(items[1..], events);
      if items[0].Send? {
        assert EventsOf(items)[0] == items[0].event && items[0].event in EventsOf(items);
      }
    }
  }

  lemma {:induction false} EventsAreShort(items: seq<Item>)
    requires ShortFrames(Texts(items))
    ensures AllPass(IsShort, EventsOf(items))
  {
    hide EventText;
    if items != [] {
      assert Texts(items)[1..] == Texts(items[1..]);
      assert ShortFrames(Texts(items[1..])) by {
        forall i | 0 <= i < |Texts(items[1..])| ensures Texts(items[1..])[i] == Texts(items)[i + 1] {}
      }
      EventsAreShort(items[1..]);
      assert Texts(items)[0] == ItemText(items[0]);
    }
  }

  lemma ShortAndSafe(events: seq<Event>)
    requires AllPass(IsShort, events)
    ensures Leading(IsSafe, events) == Leading(CanTake, events)
    ensures AllPass(IsSafe, events) <==> AllPass(CanTake, events)
  {
    hide IsShort, Leading;
    LeadingAgree(IsSafe, CanTake, events);
  }

  /**
   What one served body adds is the next part of the log after the cursor, wherever the connection is
   cut, and none of it is an event the client cannot take.
   */
  lemma BodyAddsNext(sequenceOf: Parser, log: seq<Event>, c: Client, chunks: seq<string>)
    requires !c.stopped && c.cursor <= MAX_CURSOR
    requires Log(log) && Faithful(sequenceOf, log)
    requires Served(log, Numeral(c.cursor), chunks)
    ensures var d := TakeChunks(sequenceOf, c, "", chunks);
      && c.accepted <= d.accepted
      && var added := d.accepted[|c.accepted|..];
      && added <= Leading(CanTake, After(log, c.cursor))
      && d.cursor == LastOr(c.cursor, added)
  {
    hide Find, Drain, Encodable, Leading, After, Readable, Log, Texts, Joined, EventsOf, TakeChunks, Flat, Fits,
      TakeFrames, AllPass, Sequence, Numeral, ShortFrames;
    CursorRoundTrip(c.cursor);
    var items :| Sends(log, Numeral(c.cursor), items) && Flat(chunks) <= Joined(Texts(items), BLANK);
    ReadablePart(sequenceOf, log, c.cursor, EventsOf(items));
    EncodableItems(sequenceOf, c.cursor, items);
    StreamIsItsFrames(items);
    NoCutAtStart();
    var n := ChunksAreFrames(sequenceOf, c, "", chunks);
    assert "" + Flat(chunks) == Flat(chunks);
    var frames := Drain(Flat(chunks), BLANK).frames;
    DrainPrefix(Flat(chunks), Joined(Texts(items), BLANK), BLANK);
    assert frames[..n] == Texts(items)[..n];
    TextsPrefix(items, n);
    var part := EventsOf(items[..n]);
    ReadablePart(sequenceOf, log, c.cursor, part);
    ItemsAreTaken(sequenceOf, c, items[..n]);
    EventsAreShort(items[..n]);
    ShortAndSafe(part);
    var all := After(log, c.cursor);
    assert part == all[..|part|];
    LeadingOfPrefix(CanTake, all, |part|);
  }

  lemma NoCutAtStart()
    ensures Find("", BLANK) < 0
  {
  }

  lemma EncodableItems(sequenceOf: Parser, cursor: nat, items: seq<Item>)
    requires Readable(sequenceOf, cursor, EventsOf(items))
    ensures forall i :: 0 <= i < |items| && items[i].Send? ==> Encodable(items[i].event)
  {
    hide Encodable;
    ItemsHoldEvents(items, EventsOf(items));
  }

  /** A whole body stops the client exactly when it does not fit or holds a sequence past the doubles. */
  lemma WholeBody(sequenceOf: Parser, log: seq<Event>, c: Client, chunks: seq<string>, items: seq<Item>)
    requires !c.stopped && Log(log) && Faithful(sequenceOf, log)
    requires EventsOf(items) == After(log, c.cursor) && Flat(chunks) == Joined(Texts(items), BLANK)
    ensures var d, all := TakeChunks(sequenceOf, c, "", chunks), After(log, c.cursor);
      && (d.stopped <==> !Fits("", chunks) || !AllPass(IsSafe, all))
      && (Fits("", chunks) ==> AllPass(IsShort, all) && d.accepted == c.accepted + Leading(CanTake, all))
  {
    hide Find, Drain, Encodable, Leading, After, Readable, Log, Texts, Joined, EventsOf, TakeChunks, Flat, Fits,
      TakeFrames, AllPass, ShortFrames;
    ReadablePart(sequenceOf, log, c.cursor, EventsOf(items));
    EncodableItems(sequenceOf, c.cursor, items);
    StreamIsItsFrames(items);
    NoCutAtStart();
    var n := ChunksAreFrames(sequenceOf, c, "", chunks);
    assert "" + Flat(chunks) == Flat(chunks);
    ItemsAreTaken(sequenceOf, c, items);
    if Fits("", chunks) {
      FittingFramesAreShort("", chunks);
      EventsAreShort(items);
      ShortAndSafe(EventsOf(items));
    }
  }

  /** An event too long for the buffer stops the client for good, however its body is cut into chunks. */
  lemma LongFrameStops(
    sequenceOf: Parser, log: seq<Event>, c: Client, chunks: seq<string>, items: seq<Item>, e: Event)
    requires !c.stopped && Log(log) && Faithful(sequenceOf, log)
    requires EventsOf(items) == After(log, c.cursor) && Flat(chunks) == Joined(Texts(items), BLANK)
    requires e in After(log, c.cursor) && !IsShort(e)
    ensures TakeChunks(sequenceOf, c, "", chunks).stopped
  {
    hide IsShort, TakeChunks, Fits;
    WholeBody(sequenceOf, log, c, chunks, items);
  }

  // ---- which bodies are delivered ----

  /** From every frame on, the frame leaves room for one more chunk or the rest of the body fits altogether. */
  ghost predicate HasRoom(texts: seq<string>, chunk: nat) {
    forall i :: 0 <= i < |texts| ==> HasRoomAt(texts, i, chunk)
  }

  ghost predicate HasRoomAt(texts: seq<string>, i: nat, chunk: nat)
    requires i < |texts|
  {
    |texts[i]| + 1 + chunk <= MAX_FRAME || |Joined(texts[i..], BLANK)| <= MAX_FRAME
  }

  lemma RoomBehind(texts: seq<string>, k: nat, chunk: nat)
    requires k <= |texts| && HasRoom(texts, chunk)
    ensures HasRoom(texts[k..], chunk)
  {
    hide Joined;
    forall i | 0 <= i < |texts[k..]| ensures HasRoomAt(texts[k..], i, chunk) {
      assert texts[k..][i..] == texts[k + i..];
      assert HasRoomAt(texts, k + i, chunk);
    }
  }

  ghost predicate AtMost(chunks: seq<string>, chunk: nat) {
    forall i :: 0 <= i < |chunks| ==> |chunks[i]| <= chunk
  }

  lemma {:induction false} JoinedSplit(frames: seq<string>, k: nat)
    requires k <= |frames|
    ensures Joined(frames, BLANK) == Joined(frames[..k], BLANK) + Joined(frames[k..], BLANK)
  {
    if k > 0 {
      JoinedSplit(frames[1..], k - 1);
      assert frames[..k][1..] == frames[1..][..k - 1] && frames[1..][k - 1..] == frames[k..];
      var tail := Joined(frames[k..], BLANK);
      assert frames[0] + BLANK + (Joined(frames[1..][..k - 1], BLANK) + tail)
          == frames[0] + BLANK + Joined(frames[1..][..k - 1], BLANK) + tail;
    } else {
      assert frames[0..] == frames;
    }
  }

  ghost predicate AllClean(texts: seq<string>) {
    forall i :: 0 <= i < |texts| ==> Clean(texts[i], BLANK)
  }

  lemma {:induction false} CleanTextsAreFrames(texts: seq<string>)
    requires AllClean(texts)
    ensures Drain(Joined(texts, BLANK), BLANK) == Cut(texts, [])
  {
    hide Find, Drain, Clean;
    if texts == [] {
      DrainNone([], BLANK);
    } else {
      CleanTextsAreFrames(texts[1..]);
      DrainFrame(texts[0], Joined(texts[1..], BLANK), BLANK);
    }
  }

  lemma BlankIsSeen(buffer: string, texts: seq<string>)
    requires texts != [] && buffer <= Joined(texts, BLANK) && |buffer| > |texts[0]| + 1
    ensures At(buffer, |texts[0]|, BLANK)
  {
    var n, s := |texts[0]|, Joined(texts, BLANK);
    assert s[n..n + 2] == BLANK;
    assert buffer[n..n + 2] == s[n..n + 2];
  }

  /** Text without a blank line at the front of a stream ends within its first frame. */
  lemma UncutIsWithinFirst(buffer: string, texts: seq<string>)
    requires Find(buffer, BLANK) < 0 && buffer <= Joined(texts, BLANK) && texts != []
    ensures |buffer| <= |texts[0]| + 1
  {
    hide Find, Joined;
    if |buffer| > |texts[0]| + 1 {
      BlankIsSeen(buffer, texts);
    }
  }

  /** The frames cut from the front of a stream of clean texts are its first texts, and the rest follows on. */
  lemma CutFromFront(s: string, more: string, texts: seq<string>) returns (k: nat)
    requires AllClean(texts) && s + more <= Joined(texts, BLANK)
    ensures k <= |texts|
    ensures Drain(s, BLANK).rest + more <= Joined(texts[k..], BLANK)
  {
    hide Find, Drain, Clean;
    var cut, all := Drain(s, BLANK), Joined(texts, BLANK);
    CleanTextsAreFrames(texts);
    assert s <= all by { assert s == (s + more)[..|s|]; }
    DrainPrefix(s, all, BLANK);
    DrainKeepsAll(s, BLANK);
    k := |cut.frames|;
    assert cut.frames == texts[..k];
    JoinedSplit(texts, k);
    var front := Joined(texts[..k], BLANK);
    assert all[|front|..] == Joined(texts[k..], BLANK);
    assert (s + more)[|front|..] == cut.rest + more;
    assert (s + more)[|front|..] <= all[|front|..];
  }

  /** Chunks of bounded size fit a body that has room for them. */
  lemma {:induction false} BoundedChunksFit(texts: seq<string>, chunk: nat, buffer: string, chunks: seq<string>)
    requires AllClean(texts) && HasRoom(texts, chunk) && AtMost(chunks, chunk)
    requires Find(buffer, BLANK) < 0 && buffer + Flat(chunks) <= Joined(texts, BLANK)
    ensures Fits(buffer, chunks)
    decreases |chunks|
  {
    hide Find, Drain, Clean, Joined, HasRoom;
    if chunks != [] {
      assert buffer + Flat(chunks) == (buffer + chunks[0]) + Flat(chunks[1..]);
      NextChunkFits(texts, chunk, buffer, chunks[0], Flat(chunks[1..]));
      var k := CutFromFront(buffer + chunks[0], Flat(chunks[1..]), texts);
      RestIsUncut(buffer + chunks[0], BLANK);
      RoomBehind(texts, k, chunk);
      BoundedChunksFit(texts[k..], chunk, Drain(buffer + chunks[0], BLANK).rest, chunks[1..]);
    }
  }

  lemma NextChunkFits(texts: seq<string>, chunk: nat, buffer: string, next: string, more: string)
    requires HasRoom(texts, chunk) && |next| <= chunk
    requires Find(buffer, BLANK) < 0 && buffer + next + more <= Joined(texts, BLANK)
    ensures |buffer| + |next| <= MAX_FRAME
  {
    hide Find, Joined;
    assert buffer <= Joined(texts, BLANK) by { assert buffer == (buffer + next + more)[..|buffer|]; }
    if texts == [] {
      NothingToSend(texts, buffer + next + more);
    } else {
      UncutIsWithinFirst(buffer, texts);
      assert texts[0..] == texts;
      assert HasRoomAt(texts, 0, chunk);
    }
  }

  lemma NothingToSend(texts: seq<string>, buffer: string)
    requires texts == [] && buffer <= Joined(texts, BLANK)
    ensures buffer == ""
  {
  }

  lemma {:induction false} ItemsAreClean(items: seq<Item>)
    requires forall i :: 0 <= i < |items| && items[i].Send? ==> Encodable(items[i].event)
    ensures AllClean(Texts(items))
  {
    hide Encodable, ItemText, Clean;
    if items != [] {
      ItemIsClean(items[0]);
      ItemsAreClean(items[1..]);
    }
  }

  /**
   Where a body has room for its chunks, it is delivered whole exactly when a double holds every sequence,
   and otherwise the client stops at the first it does not.
   */
  lemma RoomyBodyDeliversIff(
    sequenceOf: Parser, log: seq<Event>, c: Client, chunks: seq<string>, items: seq<Item>, chunk: nat)
    requires !c.stopped && Log(log) && Faithful(sequenceOf, log)
    requires EventsOf(items) == After(log, c.cursor) && Flat(chunks) == Joined(Texts(items), BLANK)
    requires AtMost(chunks, chunk) && HasRoom(Texts(items), chunk)
    ensures var d, all := TakeChunks(sequenceOf, c, "", chunks), After(log, c.cursor);
      && d.accepted == c.accepted + Leading(IsSafe, all)
      && (d.stopped <==> !AllPass(IsSafe, all))
      && (d.accepted == c.accepted + Ids(all) <==> AllPass(IsSafe, all))
  {
    hide TakeChunks, Leading, Ids, Joined, Texts, Find, Encodable, EventText, After, AllPass, HasRoom, AllClean;
    var all := After(log, c.cursor);
    ReadablePart(sequenceOf, log, c.cursor, EventsOf(items));
    EncodableItems(sequenceOf, c.cursor, items);
    ItemsAreClean(items);
    NoCutAtStart();
    assert "" + Flat(chunks) == Flat(chunks);
    BoundedChunksFit(Texts(items), chunk, "", chunks);
    WholeBody(sequenceOf, log, c, chunks, items);
    ShortAndSafe(all);
    LeadingAreIds(IsSafe, all);
  }

  /** This way of cutting the body is read to its end, and every event after the cursor is taken. */
  ghost predicate ReadsAll(sequenceOf: Parser, log: seq<Event>, c: Client, chunks: seq<string>) {
    var d := TakeChunks(sequenceOf, c, "", chunks);
    !d.stopped && d.accepted == c.accepted + Ids(After(log, c.cursor))
  }

  ghost predicate Cuts(items: seq<Item>, chunk: nat, chunks: seq<string>) {
    Flat(chunks) == Joined(Texts(items), BLANK) && AtMost(chunks, chunk)
  }

  lemma {:induction false} FlatAppend(a: seq<string>, b: seq<string>)
    ensures Flat(a + b) == Flat(a) + Flat(b)
  {
    if a == [] {
      assert a + b == b;
    } else {
      assert (a + b)[1..] == a[1..] + b;
      FlatAppend(a[1..], b);
    }
  }

  /** Chunks that fit leave, after some of them, what cutting those at once leaves. */
  lemma {:induction false} FitsBehind(buffer: string, a: seq<string>, b: seq<string>)
    requires Fits(buffer, a + b) && Find(buffer, BLANK) < 0
    ensures Fits(Drain(buffer + Flat(a), BLANK).rest, b)
    decreases |a|
  {
    hide Find, Drain;
    if a == [] {
      assert a + b == b && buffer + Flat(a) == buffer;
      DrainNone(buffer, BLANK);
    } else {
      assert (a + b)[1..] == a[1..] + b;
      var next := buffer + a[0];
      RestIsUncut(next, BLANK);
      FitsBehind(Drain(next, BLANK).rest, a[1..], b);
      DrainAppend(next, Flat(a[1..]), BLANK);
      assert buffer + Flat(a) == next + Flat(a[1..]);
    }
  }

  lemma BlankNeedsBoth(text: string, i: int)
    requires At(text + LF, i, BLANK)
    ensures 0 <= i < |text| && At(text + BLANK, i, BLANK)
  {
    assert (text + BLANK)[i..i + 2] == (text + LF)[i..i + 2];
  }

  /** Whole frames and a frame with half its blank line are cut to that last part. */
  lemma LastPartIsLeft(texts: seq<string>, text: string)
    requires AllClean(texts) && Clean(text, BLANK)
    ensures Drain(Joined(texts, BLANK) + (text + LF), BLANK).rest == text + LF
  {
    hide Find, Drain, Joined;
    CleanTextsAreFrames(texts);
    DrainAppend(Joined(texts, BLANK), text + LF, BLANK);
    assert [] + (text + LF) == text + LF;
    var i := Find(text + LF, BLANK);
    if i >= 0 { BlankNeedsBoth(text, i); }
    DrainNone(text + LF, BLANK);
  }

  /** Single characters up to the middle of a blank line, then one longer chunk, then single characters. */
  function Tight(front: string, next: string, behind: string): seq<string> {
    Singles(front) + ([next] + Singles(behind))
  }

  lemma TightIsBody(front: string, next: string, behind: string, chunk: nat)
    requires |next| <= chunk && 1 <= chunk
    ensures Flat(Tight(front, next, behind)) == front + (next + behind) && AtMost(Tight(front, next, behind), chunk)
  {
    hide Singles;
    FlatAppend(Singles(front), [next] + Singles(behind));
    FlatAppend([next], Singles(behind));
    FlatOfOne(next);
  }

  lemma TightNeedsRoom(texts: seq<string>, text: string, next: string, behind: string)
    requires AllClean(texts) && Clean(text, BLANK)
    requires Fits("", Tight(Joined(texts, BLANK) + (text + LF), next, behind))
    ensures |text| + 1 + |next| <= MAX_FRAME
  {
    hide Find, Drain, Joined, Fits, AllClean, Singles, Clean;
    var front := Joined(texts, BLANK) + (text + LF);
    NoCutAtStart();
    FitsBehind("", Singles(front), [next] + Singles(behind));
    assert "" + Flat(Singles(front)) == front;
    LastPartIsLeft(texts, text);
    FirstFits(text + LF, [next] + Singles(behind));
  }

  /** Where a body lacks room, some way of cutting it does not fit. */
  lemma TightBodyOverflows(texts: seq<string>, k: nat, chunk: nat) returns (chunks: seq<string>)
    requires AllClean(texts) && k < |texts| && !HasRoomAt(texts, k, chunk) && chunk > 0
    ensures Flat(chunks) == Joined(texts, BLANK) && AtMost(chunks, chunk) && !Fits("", chunks)
  {
    hide Find, Drain, Joined, Fits, AllClean, Clean, Tight;
    var front, text := Joined(texts[..k], BLANK), texts[k];
    var rest := RestOfBody(texts, k);
    var n := if chunk <= |rest| then chunk else |rest|;
    chunks := Tight(front + (text + LF), rest[..n], rest[n..]);
    TightIsBody(front + (text + LF), rest[..n], rest[n..], chunk);
    assert rest[..n] + rest[n..] == rest;
    CleanParts(texts, k);
    if Fits("", chunks) { TightNeedsRoom(texts[..k], text, rest[..n], rest[n..]); }
  }

  /** What follows the first half of a frame's blank line. */
  lemma RestOfBody(texts: seq<string>, k: nat) returns (rest: string)
    requires k < |texts|
    ensures Joined(texts, BLANK) == Joined(texts[..k], BLANK) + (texts[k] + LF) + rest
    ensures |Joined(texts[k..], BLANK)| == |texts[k]| + 1 + |rest|
  {
    hide Joined;
    var front, text, body := Joined(texts[..k], BLANK), texts[k], Joined(texts[k..], BLANK);
    JoinedSplit(texts, k);
    HeadOfBody(texts[k..]);
    rest := body[|text| + 1..];
    assert front + (text + LF) + rest == front + (text + LF + rest);
  }

  lemma FlatOfOne(s: string)
    ensures Flat([s]) == s
  {
  }

  lemma FirstFits(buffer: string, chunks: seq<string>)
    requires Fits(buffer, chunks) && chunks != []
    ensures |buffer| + |chunks[0]| <= MAX_FRAME
  {
  }

  lemma CleanParts(texts: seq<string>, k: nat)
    requires AllClean(texts) && k < |texts|
    ensures AllClean(texts[..k]) && Clean(texts[k], BLANK)
  {
    hide Clean;
  }

  lemma HeadOfBody(texts: seq<string>)
    requires texts != []
    ensures var body := Joined(texts, BLANK); |body| > |texts[0]| + 1 && body == texts[0] + LF + body[|texts[0]| + 1..]
  {
    assert BLANK == LF + LF;
  }

  /**
   Every way of cutting an uncut body into chunks of at most a given size is read to its end, and delivers
   everything, exactly when a double holds every sequence and the body has room for such chunks.
   */
  lemma EveryCutDeliversIff(sequenceOf: Parser, log: seq<Event>, c: Client, items: seq<Item>, chunk: nat)
    requires !c.stopped && Log(log) && Faithful(sequenceOf, log) && EventsOf(items) == After(log, c.cursor) && chunk > 0
    ensures (forall chunks :: Cuts(items, chunk, chunks) ==> ReadsAll(sequenceOf, log, c, chunks))
      <==> AllPass(IsSafe, After(log, c.cursor)) && HasRoom(Texts(items), chunk)
  {
    hide TakeChunks, Leading, Ids, Joined, Texts, EventText, After, Log, Faithful, Flat, AllPass, EventsOf, Fits, AllClean,
      HasRoomAt;
    var all, texts := After(log, c.cursor), Texts(items);
    if AllPass(IsSafe, all) && HasRoom(texts, chunk) {
      forall chunks | Cuts(items, chunk, chunks) ensures ReadsAll(sequenceOf, log, c, chunks) {
        RoomyBodyDeliversIff(sequenceOf, log, c, chunks, items, chunk);
      }
    } else {
      var chunks := Singles(Joined(texts, BLANK));
      if k: nat :| k < |texts| && !HasRoomAt(texts, k, chunk) {
        ReadablePart(sequenceOf, log, c.cursor, EventsOf(items));
        EncodableItems(sequenceOf, c.cursor, items);
        ItemsAreClean(items);
        chunks := TightBodyOverflows(texts, k, chunk);
      }
      assert Cuts(items, chunk, chunks);
      WholeBody(sequenceOf, log, c, chunks, items);
      assert !ReadsAll(sequenceOf, log, c, chunks);
    }
  }

  function Singles(s: string): (chunks: seq<string>)
    ensures Flat(chunks) == s && forall i :: 0 <= i < |chunks| ==> |chunks[i]| == 1
  {
    if s == "" then [] else [[s[0]]] + Singles(s[1..])
  }

  /** Reading these chunks takes every event after the cursor. */
  ghost predicate Delivers(sequenceOf: Parser, log: seq<Event>, c: Client, items: seq<Item>, chunks: seq<string>) {
    && Flat(chunks) == Joined(Texts(items), BLANK)
    && TakeChunks(sequenceOf, c, "", chunks).accepted == c.accepted + Ids(After(log, c.cursor))
  }

  /**
   Some way of cutting an uncut body into chunks delivers everything exactly when the client can take every
   event: a double holds its sequence, and its frame with the blank line fits the buffer.
   */
  lemma UncutBodyDeliversIff(sequenceOf: Parser, log: seq<Event>, c: Client, items: seq<Item>)
    requires !c.stopped && c.cursor <= MAX_CURSOR
    requires Log(log) && Faithful(sequenceOf, log) && EventsOf(items) == After(log, c.cursor)
    ensures (exists chunks :: Delivers(sequenceOf, log, c, items, chunks)) <==> AllPass(CanTake, After(log, c.cursor))
  {
    hide TakeChunks, Leading, Ids, Joined, Texts, EventText, After, Log, Faithful, Numeral, Sequence, Flat, AllPass,
      EventsOf;
    var all := After(log, c.cursor);
    LeadingAreIds(CanTake, all);
    if chunks :| Delivers(sequenceOf, log, c, items, chunks) {
      CursorRoundTrip(c.cursor);
      assert Sends(log, Numeral(c.cursor), items);
      BodyAddsNext(sequenceOf, log, c, chunks);
      var d := TakeChunks(sequenceOf, c, "", chunks);
      assert d.accepted[|c.accepted|..] == Ids(all);
    }
    if AllPass(CanTake, all) {
      var chunks := Singles(Joined(Texts(items), BLANK));
      PassesAre(all);
      ShortItemsHaveRoom(items);
      assert HasRoom(Texts(items), 1);
      RoomyBodyDeliversIff(sequenceOf, log, c, chunks, items, 1);
      assert Delivers(sequenceOf, log, c, items, chunks);
    }
  }

  lemma PassesAre(events: seq<Event>)
    requires AllPass(CanTake, events)
    ensures AllPass(IsSafe, events) && AllPass(IsShort, events)
  {
    hide EventText;
  }

  /** Takeable events leave room for single characters. */
  lemma {:induction false} ShortItemsHaveRoom(items: seq<Item>)
    requires AllPass(IsShort, EventsOf(items))
    ensures forall i :: 0 <= i < |Texts(items)| ==> |Texts(items)[i]| + 1 + 1 <= MAX_FRAME
  {
    hide EventText;
    if items != [] {
      var rest := EventsOf(items[1..]);
      if items[0].Send? {
        assert EventsOf(items) == [items[0].event] + rest;
        LeadingCons(IsShort, EventsOf(items));
        assert EventsOf(items)[1..] == rest;
      } else {
        assert EventsOf(items) == rest;
      }
      ShortItemsHaveRoom(items[1..]);
    }
  }

  const NEWCOMER: Client := Client(0, 0, 0, false, [])

  lemma OneEventLog(e: Event)
    requires Encodable(e)
    ensures EventsOf([Send(e)]) == [e] && After([e], 0) == [e] && Log([e])
  {
    assert [e][1..] == [] && [Send(e)][1..] == [];
  }

  lemma OneEventStops(sequenceOf: Parser, e: Event, chunks: seq<string>)
    requires Encodable(e) && Faithful(sequenceOf, [e]) && !CanTake(e)
    requires Flat(chunks) == Joined(Texts([Send(e)]), BLANK)
    ensures var d := TakeChunks(sequenceOf, NEWCOMER, "", chunks); d.stopped && d.accepted == []
  {
    hide TakeChunks, Joined, EventText, Encodable, Fits, Flat, Numeral, Sequence, Texts, EventsOf, After, Log;
    var log, items := [e], [Send(e)];
    OneEventLog(e);
    WholeBody(sequenceOf, log, NEWCOMER, chunks, items);
    CursorRoundTrip(0);
    assert Sends(log, Numeral(0), items);
    BodyAddsNext(sequenceOf, log, NEWCOMER, chunks);
    assert Leading(CanTake, [e]) == [];
  }

  // ---- events as the encoder writes them ----

  const ID: string := "1b4e28ba-2fa1-11d2-883f-0016d3cca427"
  const NOTE_LENGTH: nat := 4000

  predicate Printable(s: string) {
    forall i :: 0 <= i < |s| ==> ' ' <= s[i] <= '~'
  }

  /** A short printable piece of an encoded event. */
  predicate Piece(s: string) {
    Printable(s) && 0 < |s| <= 50
  }

  const OPENING: string := "{\"event_id\":\""
  const RUN_KEY: string := "\",\"run_id\":\""
  const SEQUENCE_KEY: string := "\",\"sequence\":"
  const TYPED: string := ",\"run_version\":1,\"event_type\":\"run.event\""
  const ACTOR: string := ",\"actor_class\":\"system\",\"actor_id\":null"
  const SCHEMA: string := ",\"payload_schema_version\":1"
  const PAYLOAD: string := ",\"payload\":{\"notes\":["
  const TIME_KEY: string := "]},\"occurred_at\":"
  const TIME: string := "\"2025-01-01T00:00:00+00:00\"}"

  function Head(): string { OPENING + ID + RUN_KEY + ID + SEQUENCE_KEY }

  function Middle(): string { TYPED + ACTOR + SCHEMA + PAYLOAD }

  function Tail(): string { TIME_KEY + TIME }

  lemma HeadPieces()
    ensures Piece(OPENING) && OPENING[0] == '{' && Piece(ID) && Piece(RUN_KEY) && Piece(SEQUENCE_KEY)
  {
  }

  lemma MiddlePieces()
    ensures Piece(TYPED) && TYPED[0] == ',' && Piece(ACTOR)
  {
  }

  lemma PayloadPieces()
    ensures Piece(SCHEMA) && Piece(PAYLOAD)
  {
  }

  lemma TailPieces()
    ensures Piece(TIME_KEY) && Piece(TIME)
  {
  }

  lemma PiecesTogether(a: string, b: string, c: string, d: string)
    requires Piece(a) && Piece(b) && Piece(c) && Piece(d)
    ensures var s := a + b + c + d; Printable(s) && |s| <= 200 && s != "" && s[0] == a[0]
  {
  }

  lemma PieceBehind(s: string, a: string)
    requires Printable(s) && Piece(a)
    ensures Printable(s + a) && |s + a| <= |s| + 50 && (s != "" ==> (s + a)[0] == s[0])
  {
  }

  lemma FixedParts()
    ensures Printable(Head()) && |Head()| <= 250 && Head() != "" && Head()[0] == '{'
    ensures Printable(Middle()) && |Middle()| <= 250 && Middle() != "" && Middle()[0] == ','
    ensures Printable(Tail()) && |Tail()| <= 250
  {
    hide Piece, Printable;
    HeadPieces();
    MiddlePieces();
    PayloadPieces();
    PiecesTogether(OPENING, ID, RUN_KEY, ID);
    PieceBehind(OPENING + ID + RUN_KEY + ID, SEQUENCE_KEY);
    PiecesTogether(TYPED, ACTOR, SCHEMA, PAYLOAD);
    TailTogether();
  }

  lemma TailTogether()
    ensures Printable(Tail()) && |Tail()| <= 250
  {
    hide Printable;
    TailPieces();
    PieceBehind(TIME_KEY, TIME);
  }

  /** So many strings of 4000 characters, within the 4096 and the 100 items a public payload keeps. */
  function Notes(count: nat): string {
    if count == 0 then ""
    else (if count > 1 then Notes(count - 1) + "," else "") + "\"" + seq(NOTE_LENGTH, _ => 'a') + "\""
  }

  /** An event whose payload is a list of such strings. */
  function Written(n: nat, count: nat): Event {
    Event(n, "run.event", Head() + Numeral(n) + Middle() + Notes(count) + Tail())
  }

  /** Reads the sequence of such an event, and only one a double holds. */
  function ReadSequence(data: string): Option<int> {
    if !(Head() <= data) then None
    else
      var rest := data[|Head()|..];
      var digits := rest[..Lead(rest)];
      if digits == "" || Value(digits) > MAX_SAFE then None else Some(Value(digits))
  }

  lemma {:induction false} NotesAre(count: nat)
    ensures Printable(Notes(count)) && |Notes(count)| == if count == 0 then 0 else count * (NOTE_LENGTH + 3) - 1
  {
    if count > 0 {
      NotesAre(count - 1);
    }
  }

  lemma WrittenIsEncodable(n: nat, count: nat)
    requires 1 <= n <= MAX_CURSOR
    ensures Encodable(Written(n, count))
  {
    hide Numeral, Notes, Printable, Head, Middle, Tail;
    FixedParts();
    NotesAre(count);
    DigitsArePrintable(Numeral(n));
    PrintableTogether(Head(), Numeral(n), Middle(), Notes(count), Tail());
  }

  lemma DigitsArePrintable(s: string)
    requires AllDigits(s)
    ensures Printable(s)
  {
  }

  lemma PrintableTogether(a: string, b: string, c: string, d: string, e: string)
    requires Printable(a) && Printable(b) && Printable(c) && Printable(d) && Printable(e)
    ensures Printable(a + b + c + d + e)
  {
  }

  /** The reader finds the sequence the encoder wrote. */
  lemma WrittenIsRead(n: nat, count: nat)
    ensures ReadSequence(Written(n, count).data) == if n <= MAX_SAFE then Some(n) else None
  {
    hide Numeral, Notes, Lead, Value, Head, Middle, Tail, Printable;
    FixedParts();
    var data, rest := Written(n, count).data, Middle() + Notes(count) + Tail();
    assert data == Head() + (Numeral(n) + rest);
    assert data[|Head()|..] == Numeral(n) + rest;
    LeadOf(Numeral(n), rest);
    assert (Numeral(n) + rest)[..|Numeral(n)|] == Numeral(n);
  }

  lemma WrittenLength(n: nat, count: nat)
    requires n < 10000 && count > 0
    ensures var text := |EventText(Written(n, count))|; count * (NOTE_LENGTH + 3) <= text <= count * (NOTE_LENGTH + 3) + 800
  {
    hide Numeral, Notes, Head, Middle, Tail, Printable;
    FixedParts();
    NotesAre(count);
    assert Pow10(4) == 10000;
    NumeralLength(n, 4);
  }

  /** Two to the 53rd may be assigned and sent, and is refused under every chunking. */
  lemma UnsafeSequenceStops(chunks: seq<string>)
    requires Flat(chunks) == Joined(Texts([Send(Written(9007199254740992, 0))]), BLANK)
    ensures Encodable(Written(9007199254740992, 0))
    ensures var d := TakeChunks(ReadSequence, NEWCOMER, "", chunks); d.stopped && d.accepted == []
  {
    hide TakeChunks, Joined, Texts, Encodable, Flat, EventText, ReadSequence, Written;
    WrittenIsEncodable(9007199254740992, 0);
    WrittenIsRead(9007199254740992, 0);
    WrittenSequence(9007199254740992, 0);
    OneEventStops(ReadSequence, Written(9007199254740992, 0), chunks);
  }

  lemma WrittenSequence(n: nat, count: nat)
    ensures Written(n, count).sequence == n
  {
  }

  /** An event with 66 such strings may be sent, and stops the client under every chunking. */
  lemma LongEventStops(chunks: seq<string>)
    requires Flat(chunks) == Joined(Texts([Send(Written(1, 66))]), BLANK)
    ensures Encodable(Written(1, 66))
    ensures var d := TakeChunks(ReadSequence, NEWCOMER, "", chunks); d.stopped && d.accepted == []
  {
    hide TakeChunks, Joined, Texts, Encodable, Flat, EventText, ReadSequence, Written;
    WrittenIsEncodable(1, 66);
    WrittenIsRead(1, 66);
    WrittenSequence(1, 66);
    WrittenLength(1, 66);
    OneEventStops(ReadSequence, Written(1, 66), chunks);
  }

  /** Two events of 33 such strings, each of which the client can take, stop it when one read brings both. */
  lemma BurstStops()
    ensures var log := [Written(1, 33), Written(2, 33)];
      && Log(log) && Faithful(ReadSequence, log) && AllPass(CanTake, log)
      && var body := Joined(Texts([Send(log[0]), Send(log[1])]), BLANK);
      var d := TakeChunks(ReadSequence, NEWCOMER, "", [body]); d.stopped && d.accepted == []
  {
    hide Joined, Texts, Encodable, EventText, ReadSequence, Written;
    var e, f := Written(1, 33), Written(2, 33);
    WrittenIsEncodable(1, 33);
    WrittenIsEncodable(2, 33);
    WrittenIsRead(1, 33);
    WrittenIsRead(2, 33);
    WrittenSequence(1, 33);
    WrittenSequence(2, 33);
    WrittenLength(1, 33);
    WrittenLength(2, 33);
    TwoTexts(e, f);
  }

  lemma TwoTexts(e: Event, f: Event)
    ensures |Joined(Texts([Send(e), Send(f)]), BLANK)| == |EventText(e)| + |EventText(f)| + 4
  {
    hide EventText;
    assert [Send(e), Send(f)][1..] == [Send(f)] && [Send(f)][1..] == [];
    assert Texts([Send(f)]) == [EventText(f)];
    assert Texts([Send(e), Send(f)]) == [EventText(e), EventText(f)];
    assert [EventText(e), EventText(f)][1..] == [EventText(f)] && [EventText(f)][1..] == [];
    assert Joined([EventText(f)], BLANK) == EventText(f) + BLANK + Joined([], BLANK);
    assert Joined([EventText(e), EventText(f)], BLANK) == EventText(e) + BLANK + Joined([EventText(f)], BLANK);
  }

  /** `added` went on top of what was accepted, and the cursor is its last element. */
  ghost predicate Grew(c: Client, d: Client, added: seq<nat>) {
    d.accepted == c.accepted + added && d.cursor == LastOr(c.cursor, added)
  }

  lemma RequestAddsNext(sequenceOf: Parser, log: seq<Event>, c: Client, a: Attempt) returns (added: seq<nat>)
    requires c.cursor <= MAX_CURSOR && Log(log) && Faithful(sequenceOf, log)
    requires !c.stopped && (a.Body? ==> Served(log, Numeral(c.cursor), a.chunks))
    ensures Grew(c, Request(sequenceOf, c, a), added) && added <= Leading(CanTake, After(log, c.cursor))
  {
    hide After, Leading, Log, Faithful, Served, TakeChunks, Numeral;
    added := [];
    if a.Body? {
      var begun := c.(refreshes := c.refreshes + 1);
      BodyAddsNext(sequenceOf, log, begun, a.chunks);
      var d := TakeChunks(sequenceOf, begun, "", a.chunks);
      added := d.accepted[|c.accepted|..];
      assert d.accepted == c.accepted + added;
    }
  }

  lemma GrewTwice(c: Client, d: Client, e: Client, first: seq<nat>, second: seq<nat>)
    requires Grew(c, d, first) && Grew(d, e, second)
    ensures Grew(c, e, first + second)
  {
    assert c.accepted + first + second == c.accepted + (first + second);
  }

  /**
   Over any run against such a server, cut anywhere and reconnected any number of times, the accepted
   sequences are a prefix of the log after the starting cursor: in order, none lost, none repeated.
   */
  lemma {:induction false} RunAcceptsAPrefix(sequenceOf: Parser, log: seq<Event>, c: Client, attempts: seq<Attempt>)
    returns (added: seq<nat>)
    requires c.cursor <= MAX_CURSOR && Log(log) && Faithful(sequenceOf, log)
    requires HonestRun(sequenceOf, log, c, attempts)
    ensures Grew(c, Requests(sequenceOf, c, attempts), added) && added <= Leading(CanTake, After(log, c.cursor))
    decreases |attempts|
  {
    hide After, Leading, Log, Faithful, Served, Request, Numeral, LastOr;
    if attempts == [] || c.stopped {
      if c.stopped { StoppedForGood(sequenceOf, c, attempts); }
      added := [];
      NothingGrew(c);
    } else {
      var mid := Request(sequenceOf, c, attempts[0]);
      var first := RequestAddsNext(sequenceOf, log, c, attempts[0]);
      Resumes(log, c.cursor, first);
      var second := RunAcceptsAPrefix(sequenceOf, log, mid, attempts[1..]);
      GrewTwice(c, mid, Requests(sequenceOf, mid, attempts[1..]), first, second);
      added := first + second;
    }
  }

  lemma NothingGrew(c: Client)
    ensures Grew(c, c, [])
  {
  }

  /** The cursor the client resumes from stands for exactly what it has taken. */
  lemma Resumes(log: seq<Event>, cursor: nat, taken: seq<nat>)
    requires Log(log) && cursor <= MAX_CURSOR && taken <= Leading(CanTake, After(log, cursor))
    ensures LastOr(cursor, taken) <= MAX_CURSOR
    ensures Leading(CanTake, After(log, cursor)) == taken + Leading(CanTake, After(log, LastOr(cursor, taken)))
  {
    hide Encodable, After, Leading;
    var events, k := After(log, cursor), |taken|;
    LeadingSplit(CanTake, events, k);
    if k > 0 {
      AfterKeepsOrder(log, cursor);
      LeadingAreIds(CanTake, events);
      assert taken[k - 1] == Ids(events)[k - 1] == events[k - 1].sequence;
      assert events[k - 1] in events && events[k - 1] in log;
      WhatIsLeft(events, k);
      AfterTwice(log, cursor, taken[k - 1]);
      LogBound(log, events[k - 1]);
    }
  }

  lemma LogBound(log: seq<Event>, e: Event)
    requires Log(log) && e in log
    ensures e.sequence <= MAX_CURSOR
  {
  }

  ghost predicate Rises(start: nat, ids: seq<nat>) {
    && (forall i :: 0 <= i < |ids| ==> start < ids[i])
    && (forall i, j :: 0 <= i < j < |ids| ==> ids[i] < ids[j])
  }

  lemma LeadingAscend(log: seq<Event>, start: nat, ids: seq<nat>)
    requires Log(log) && ids <= Leading(CanTake, After(log, start))
    ensures ids <= Ids(After(log, start))
    ensures Rises(start, ids)
  {
    hide After, Leading, Encodable, Ids;
    var events := After(log, start);
    LeadingAreIds(CanTake, events);
    AfterKeepsOrder(log, start);
    forall i | 0 <= i < |ids| ensures ids[i] == events[i].sequence {
      assert ids[i] == Ids(events)[i];
    }
  }

  /** Starting from a cursor a page was rendered with. */
  lemma ResumeNeitherLosesNorRepeats(sequenceOf: Parser, log: seq<Event>, after: string, attempts: seq<Attempt>)
    requires Sequence(after).Some? && Log(log) && Faithful(sequenceOf, log)
    requires HonestRun(sequenceOf, log, Start(after), attempts)
    ensures var d := Requests(sequenceOf, Start(after), attempts);
      && var start := Sequence(after).value;
      && d.accepted <= Ids(After(log, start))
      && d.accepted <= Leading(CanTake, After(log, start))
      && d.cursor == LastOr(start, d.accepted)
      && Rises(start, d.accepted)
  {
    hide Sequence, Requests, HonestRun, After, Leading, Ids, Log, Faithful, LastOr, Start, Grew;
    StartAt(after);
    var added := RunAcceptsAPrefix(sequenceOf, log, Start(after), attempts);
    WholeGrowth(Start(after), Requests(sequenceOf, Start(after), attempts), added);
    LeadingAscend(log, Sequence(after).value, added);
  }

  lemma StartAt(after: string)
    requires Sequence(after).Some?
    ensures Start(after) == Client(Sequence(after).value, 0, 0, false, []) && Sequence(after).value <= MAX_CURSOR
  {
  }

  lemma WholeGrowth(c: Client, d: Client, added: seq<nat>)
    requires Grew(c, d, added) && c.accepted == []
    ensures d.accepted == added && d.cursor == LastOr(c.cursor, added)
  {
  }
}
