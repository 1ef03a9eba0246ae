/** The JSONL reader of a supervised client: bytes arrive in arbitrary chunks, whole frames are admitted. */
module ClientStdout {
  import opened Prelude
  import opened Framing

  newtype byte = b: int | 0 <= b < 256

  const NEWLINE: seq<byte> := [10]

  /** What one blocking read returns; an empty chunk is the end of the stream. */
  datatype Read = Chunk(bytes: seq<byte>) | Fault

  /** The launch limits, and the strict JSON object decoder as an oracle. */
  datatype Limits = Limits(stdoutMax: nat, frameMax: nat, decode: seq<byte> -> Option<JObj>)

  datatype Failure = TotalExceeded | FrameExceeded | Malformed | Unterminated | OutputFault

  datatype Status = Reading | Ended | Failed(why: Failure)

  datatype Reader = Reader(pending: seq<byte>, outBytes: nat, frames: seq<JObj>, status: Status)

  const IDLE := Reader([], 0, [], Reading)

  function FrameFault(limits: Limits, line: seq<byte>): Option<Failure> {
    if |line| + 1 > limits.frameMax then Some(FrameExceeded)
    else if limits.decode(line).None? then Some(Malformed)
    else None
  }

  /** The decoded frames before the first line that is not admissible, and what is wrong with that line. */
  function Admissible(limits: Limits, lines: seq<seq<byte>>): (r: (seq<JObj>, Option<Failure>)) {
    if lines == [] then ([], None)
    else
      match FrameFault(limits, lines[0])
      case Some(why) => ([], Some(why))
      case None =>
        var (rest, fault) := Admissible(limits, lines[1..]);
        ([limits.decode(lines[0]).value] + rest, fault)
  }

  function ReadStep(limits: Limits, r: Reader, read: Read): Reader {
    if r.status != Reading then r
    else
      match read
      case Fault => r.(status := Failed(OutputFault))
      case Chunk(bytes) =>
        if bytes == [] then r.(status := if r.pending == [] then Ended else Failed(Unterminated))
        else if r.outBytes + |bytes| > limits.stdoutMax then
          r.(outBytes := r.outBytes + |bytes|, status := Failed(TotalExceeded))
        else
          var cut := Drain(r.pending + bytes, NEWLINE);
          var (admitted, fault) := Admissible(limits, cut.frames);
          Reader(cut.rest, r.outBytes + |bytes|, r.frames + admitted,
                 if fault.Some? then Failed(fault.value)
                 else if |cut.rest| > limits.frameMax then Failed(FrameExceeded)
                 else Reading)
  }

  function ReadAll(limits: Limits, inputs: seq<Read>): Reader {
    if inputs == [] then IDLE else ReadStep(limits, ReadAll(limits, inputs[..|inputs| - 1]), inputs[|inputs| - 1])
  }

  // ---- the reader as the code runs it ----

  class StdoutReader {
    const limits: Limits
    var outBytes: nat
    var frames: seq<JObj>
    var failure: Option<Failure>

    constructor (limits: Limits)
      ensures this.limits == limits && outBytes == 0 && frames == [] && failure == None
    {
      this.limits := limits;
      outBytes, frames, failure := 0, [], None;
    }

    /** Appends one decoded line, or says what is wrong with it. */
    method AdmitFrame(line: seq<byte>) returns (fault: Option<Failure>)
      modifies this`frames
      ensures fault == FrameFault(limits, line)
      ensures frames == old(frames) + if fault.None? then [limits.decode(line).value] else []
    {
      fault := FrameFault(limits, line);
      if fault.None? {
        frames := frames + [limits.decode(line).value];
      }
    }

    /** Cuts the buffer at each newline and admits the lines until one is refused. */
    method AdmitLines(buffer: seq<byte>) returns (rest: seq<byte>, fault: Option<Failure>)
      modifies this`frames
      ensures var cut := Drain(buffer, NEWLINE);
              var (admitted, why) := Admissible(limits, cut.frames);
              frames == old(frames) + admitted && fault == why && (fault.None? ==> rest == cut.rest)
    {
      hide Find, Drain, Admissible;
      rest, fault := buffer, None;
      ghost var lines := Drain(buffer, NEWLINE).frames;
      ghost var admitted: seq<JObj> := [];
      while Find(rest, NEWLINE) >= 0
        invariant fault.None?
        invariant Drain(buffer, NEWLINE).rest == Drain(rest, NEWLINE).rest
        invariant frames == old(frames) + admitted
        invariant Admissible(limits, lines).0 == admitted + Admissible(limits, Drain(rest, NEWLINE).frames).0
        invariant Admissible(limits, lines).1 == Admissible(limits, Drain(rest, NEWLINE).frames).1
        decreases |rest|
      {
        var cut := Find(rest, NEWLINE);
        var line := rest[..cut];
        NextLine(limits, rest);
        rest := rest[cut + 1..];
        fault := AdmitFrame(line);
        if fault.Some? {
          return;
        }
        admitted := admitted + [limits.decode(line).value];
      }
      NoLine(limits, rest);
    }

    /** The first line of a buffer is cut, judged, and the rest treated alike. */
    static lemma NextLine(limits: Limits, buffer: seq<byte>)
      requires Find(buffer, NEWLINE) >= 0
      ensures var i := Find(buffer, NEWLINE);
              var later := Drain(buffer[i + 1..], NEWLINE);
              var fault := FrameFault(limits, buffer[..i]);
        && Drain(buffer, NEWLINE).rest == later.rest
        && Admissible(limits, Drain(buffer, NEWLINE).frames)
           == if fault.Some? then ([], fault)
              else ([limits.decode(buffer[..i]).value] + Admissible(limits, later.frames).0, Admissible(limits, later.frames).1)
    {
      hide Find;
      var i := Find(buffer, NEWLINE);
      assert Drain(buffer, NEWLINE).frames[1..] == Drain(buffer[i + 1..], NEWLINE).frames;
    }

    /** Nothing left to cut. */
    static lemma NoLine(limits: Limits, buffer: seq<byte>)
      requires Find(buffer, NEWLINE) < 0
      ensures Drain(buffer, NEWLINE) == Cut([], buffer) && Admissible(limits, []) == ([], None)
    {
    }

    /** Reads until the end of the stream or the first fault. */
    method Stdout(inputs: seq<Read>)
      requires outBytes == 0 && frames == [] && failure == None
      modifies this
      ensures var r := ReadAll(limits, inputs);
              outBytes == r.outBytes && frames == r.frames
              && failure == if r.status.Failed? then Some(r.status.why) else None
    {
      var pending: seq<byte> := [];
      var n := 0;
      while n < |inputs|
        invariant 0 <= n <= |inputs|
        invariant failure == None
        invariant ReadAll(limits, inputs[..n]) == Reader(pending, outBytes, frames, Reading)
      {
        var read := inputs[n];
        assert inputs[..n + 1][..n] == inputs[..n];
        StaysStopped(limits, inputs, n + 1);
        if read.Fault? {
          failure := Some(OutputFault);
          return;
        }
        if read.bytes == [] {
          if pending != [] {
            failure := Some(Unterminated);
          }
          return;
        }
        outBytes := outBytes + |read.bytes|;
        if outBytes > limits.stdoutMax {
          failure := Some(TotalExceeded);
          return;
        }
        var rest, fault := AdmitLines(pending + read.bytes);
        if fault.Some? {
          failure := fault;
          return;
        }
        pending := rest;
        if |pending| > limits.frameMax {
          failure := Some(FrameExceeded);
          return;
        }
        n := n + 1;
      }
      assert inputs[..n] == inputs;
    }
  }

  /** Once stopped, a reader ignores what is still to come. */
  lemma {:induction false} StaysStopped(limits: Limits, inputs: seq<Read>, n: nat)
    requires n <= |inputs|
    ensures ReadAll(limits, inputs[..n]).status != Reading ==> ReadAll(limits, inputs) == ReadAll(limits, inputs[..n])
    decreases |inputs|
  {
    if n < |inputs| {
      var front := inputs[..|inputs| - 1];
      StaysStopped(limits, front, n);
      assert front[..n] == inputs[..n];
    } else {
      assert inputs[..n] == inputs;
    }
  }

  // ---- independence of the chunking ----

  function Stream(chunks: seq<seq<byte>>): seq<byte> {
    if chunks == [] then [] else Stream(chunks[..|chunks| - 1]) + chunks[|chunks| - 1]
  }

  function Reads(chunks: seq<seq<byte>>): seq<Read> {
    seq(|chunks|, i requires 0 <= i < |chunks| => Chunk(chunks[i]))
  }

  function Lines(stream: seq<byte>): seq<seq<byte>> {
    Drain(stream, NEWLINE).frames
  }

  /** A stream that can still be continued without a fault. */
  predicate Sound(limits: Limits, stream: seq<byte>) {
    && |stream| <= limits.stdoutMax
    && Admissible(limits, Lines(stream)).1.None?
    && |Drain(stream, NEWLINE).rest| <= limits.frameMax
  }

  /** Acceptance of a complete stream, with no mention of chunks or buffers. */
  ghost predicate Accepts(limits: Limits, stream: seq<byte>) {
    && |stream| <= limits.stdoutMax
    && (stream == [] || stream[|stream| - 1] == NEWLINE[0])
    && forall line :: line in Lines(stream) ==> |line| + 1 <= limits.frameMax && limits.decode(line).Some?
  }

  lemma {:induction false} AdmissibleAppend(limits: Limits, a: seq<seq<byte>>, b: seq<seq<byte>>)
    ensures var (x, fault) := Admissible(limits, a);
            Admissible(limits, a + b)
            == if fault.Some? then (x, fault) else (x + Admissible(limits, b).0, Admissible(limits, b).1)
    decreases |a|
  {
    if a == [] {
      assert a + b == b;
      assert [] + Admissible(limits, b).0 == Admissible(limits, b).0;
    } else {
      assert (a + b)[1..] == a[1..] + b;
      AdmissibleAppend(limits, a[1..], b);
      if FrameFault(limits, a[0]).None? {
        var head := [limits.decode(a[0]).value];
        var x := Admissible(limits, a[1..]).0;
        assert head + (x + Admissible(limits, b).0) == (head + x) + Admissible(limits, b).0;
      }
    }
  }

  lemma {:induction false} AdmissibleIff(limits: Limits, lines: seq<seq<byte>>)
    ensures Admissible(limits, lines).1.None?
      <==> forall line :: line in lines ==> |line| + 1 <= limits.frameMax && limits.decode(line).Some?
    ensures Admissible(limits, lines).1.None? ==>
      |Admissible(limits, lines).0| == |lines|
      && forall i :: 0 <= i < |lines| ==> Some(Admissible(limits, lines).0[i]) == limits.decode(lines[i])
  {
    if lines != [] {
      AdmissibleIff(limits, lines[1..]);
      assert lines == [lines[0]] + lines[1..];
    }
  }

  lemma SoundPrefix(limits: Limits, a: seq<byte>, b: seq<byte>)
    requires Sound(limits, a + b)
    ensures Sound(limits, a)
  {
    hide Find, Admissible, FrameFault;
    DrainAppend(a, b, NEWLINE);
    var d := Drain(a, NEWLINE);
    var e := Drain(d.rest + b, NEWLINE);
    AdmissibleAppend(limits, d.frames, e.frames);
    RestIsUncut(a, NEWLINE);
    var i := Find(d.rest + b, NEWLINE);
    if 0 <= i {
      AtFront(d.rest, b, i, NEWLINE);
      assert Admissible(limits, e.frames).1.None?;
      AdmissibleIff(limits, e.frames);
      assert e.frames[0] == (d.rest + b)[..i] && e.frames[0] in e.frames;
    }
  }

  predicate Tracks(limits: Limits, r: Reader, s: seq<byte>) {
    && (r.status == Reading <==> Sound(limits, s))
    && r.status != Ended
    && (r.status == Reading ==> r.pending == Drain(s, NEWLINE).rest && r.outBytes == |s|
                                && r.frames == Admissible(limits, Lines(s)).0)
    && r.frames <= Admissible(limits, Lines(s)).0
  }

  lemma ReadStepTracks(limits: Limits, r: Reader, s: seq<byte>, chunk: seq<byte>)
    requires Tracks(limits, r, s) && chunk != []
    ensures Tracks(limits, ReadStep(limits, r, Chunk(chunk)), s + chunk)
  {
    hide Find, Drain, Admissible, FrameFault;
    DrainAppend(s, chunk, NEWLINE);
    var d := Drain(s, NEWLINE);
    AdmissibleAppend(limits, d.frames, Drain(d.rest + chunk, NEWLINE).frames);
    if Sound(limits, s + chunk) {
      SoundPrefix(limits, s, chunk);
    }
  }

  /** While the bytes so far are sound the reader holds exactly their lines and rest; otherwise it has failed. */
  lemma {:induction false} ReaderTracksStream(limits: Limits, chunks: seq<seq<byte>>)
    requires forall c :: c in chunks ==> c != []
    ensures Tracks(limits, ReadAll(limits, Reads(chunks)), Stream(chunks))
  {
    hide Tracks, ReadStep;
    if chunks == [] {
      NothingRead(limits);
    } else {
      var front, last := chunks[..|chunks| - 1], chunks[|chunks| - 1];
      assert forall c :: c in front ==> c in chunks;
      ReaderTracksStream(limits, front);
      assert Reads(chunks)[..|chunks| - 1] == Reads(front);
      assert last in chunks;
      ReadStepTracks(limits, ReadAll(limits, Reads(front)), Stream(front), last);
    }
  }

  lemma NothingRead(limits: Limits)
    ensures Tracks(limits, IDLE, [])
  {
    assert Drain([], NEWLINE) == Cut([], []) && Admissible(limits, []) == ([], None);
  }

  lemma EndsWithNewline(stream: seq<byte>)
    ensures Drain(stream, NEWLINE).rest == [] <==> stream == [] || stream[|stream| - 1] == NEWLINE[0]
  {
    var d := Drain(stream, NEWLINE);
    DrainKeepsAll(stream, NEWLINE);
    if d.rest == [] {
      if stream != [] { JoinedEnds(d.frames); }
    } else {
      RestIsUncut(stream, NEWLINE);
      var k := |d.rest| - 1;
      assert !At(d.rest, k, NEWLINE);
      assert d.rest[k..k + 1] == [d.rest[k]];
      assert stream[|stream| - 1] == d.rest[k];
    }
  }

  lemma {:induction false} JoinedEnds(frames: seq<seq<byte>>)
    requires frames != []
    ensures var s := Joined(frames, NEWLINE); s != [] && s[|s| - 1] == NEWLINE[0]
  {
    if |frames| == 1 {
      assert Joined(frames[1..], NEWLINE) == [];
    } else {
      JoinedEnds(frames[1..]);
    }
  }

  /**
   However the stream is cut into reads, it is accepted exactly when it is within the limits,
   newline-terminated, and made of decodable lines; what is admitted is those lines in order, and
   after a failure a leading part of them.
   */
  lemma FramingIgnoresChunks(limits: Limits, chunks: seq<seq<byte>>)
    requires forall c :: c in chunks ==> c != []
    ensures var r := ReadAll(limits, Reads(chunks) + [Chunk([])]);
            var lines := Lines(Stream(chunks));
      && (r.status == Ended <==> Accepts(limits, Stream(chunks)))
      && r.status != Reading
      && (r.status == Ended ==> |r.frames| == |lines|)
      && |r.frames| <= |lines|
      && forall i :: 0 <= i < |r.frames| ==> Some(r.frames[i]) == limits.decode(lines[i])
  {
    hide Find, Drain, Admissible, FrameFault, Stream;
    var s := Stream(chunks);
    var inputs := Reads(chunks) + [Chunk([])];
    assert inputs[..|chunks|] == Reads(chunks);
    ReaderTracksStream(limits, chunks);
    EndsWithNewline(s);
    AdmissibleIff(limits, Lines(s));
    LeadingFrames(limits, Lines(s));
  }

  lemma {:induction false} LeadingFrames(limits: Limits, lines: seq<seq<byte>>)
    ensures var frames := Admissible(limits, lines).0;
      |frames| <= |lines| && forall i :: 0 <= i < |frames| ==> Some(frames[i]) == limits.decode(lines[i])
  {
    if lines != [] {
      LeadingFrames(limits, lines[1..]);
    }
  }

  /** Two ways of cutting the same stream are both accepted, with the same frames, or both refused. */
  lemma SameStreamSameFrames(limits: Limits, a: seq<seq<byte>>, b: seq<seq<byte>>)
    requires (forall c :: c in a ==> c != []) && (forall c :: c in b ==> c != [])
    requires Stream(a) == Stream(b)
    ensures var r, q := ReadAll(limits, Reads(a) + [Chunk([])]), ReadAll(limits, Reads(b) + [Chunk([])]);
      (r.status == Ended <==> q.status == Ended) && (r.status == Ended ==> r.frames == q.frames)
  {
    FramingIgnoresChunks(limits, a);
    FramingIgnoresChunks(limits, b);
    var r, q := ReadAll(limits, Reads(a) + [Chunk([])]), ReadAll(limits, Reads(b) + [Chunk([])]);
    if r.status == Ended {
      forall i | 0 <= i < |r.frames| ensures r.frames[i] == q.frames[i] {
        assert Some(r.frames[i]) == Some(q.frames[i]);
      }
    }
  }
}
