/** Cutting a growing buffer at a separator, the way both stream readers of the system do. */
module Framing {
  predicate At<T(==)>(s: seq<T>, i: int, sep: seq<T>) {
    0 <= i <= |s| - |sep| && s[i..i + |sep|] == sep
  }

  /** The first index of `sep` in `s`, or -1. */
  function Find<T(==)>(s: seq<T>, sep: seq<T>): (i: int)
    requires |sep| > 0
    ensures i == -1 || At(s, i, sep)
    ensures forall j :: At(s, j, sep) ==> 0 <= i <= j
    decreases |s|
  {
    if |s| < |sep| then -1
    else if At(s, 0, sep) then 0
    else
      var k := Find(s[1..], sep);
      assert forall j {:trigger At(s, j, sep)} :: At(s, j, sep) ==> At(s[1..], j - 1, sep) by {
        forall j | At(s, j, sep) ensures At(s[1..], j - 1, sep) { ShiftAt(s, j, sep); }
      }
      if k < 0 then -1
      else
        assert At(s, k + 1, sep) by { assert s[1..][k..k + |sep|] == s[k + 1..k + 1 + |sep|]; }
        k + 1
  }

  lemma ShiftAt<T>(s: seq<T>, j: int, sep: seq<T>)
    requires j > 0 && At(s, j, sep)
    ensures At(s[1..], j - 1, sep)
  {
    assert s[1..][j - 1..j - 1 + |sep|] == s[j..j + |sep|];
  }

  /** The complete frames at the front of a buffer and the unfinished rest. */
  datatype Cut<T> = Cut(frames: seq<seq<T>>, rest: seq<T>)

  function Drain<T(==)>(s: seq<T>, sep: seq<T>): Cut<T>
    requires |sep| > 0
    decreases |s|
  {
    var i := Find(s, sep);
    if i < 0 then Cut([], s)
    else
      var tail := Drain(s[i + |sep|..], sep);
      Cut([s[..i]] + tail.frames, tail.rest)
  }

  lemma AtFront<T>(a: seq<T>, b: seq<T>, i: int, sep: seq<T>)
    ensures At(a + b, i, sep) && i + |sep| <= |a| ==> At(a, i, sep)
  {
    if At(a + b, i, sep) && i + |sep| <= |a| {
      assert a[i..i + |sep|] == (a + b)[i..i + |sep|];
    }
  }

  /** More at the end does not move the first separator. */
  lemma FindAppend<T>(a: seq<T>, b: seq<T>, sep: seq<T>)
    requires |sep| > 0 && Find(a, sep) >= 0
    ensures Find(a + b, sep) == Find(a, sep) <= |a| - |sep|
  {
    hide Find;
    var i, s := Find(a, sep), a + b;
    assert s[i..i + |sep|] == a[i..i + |sep|];
    assert At(s, i, sep);
    var k := Find(s, sep);
    assert s[k..k + |sep|] == a[k..k + |sep|];
    assert At(a, k, sep);
  }

  lemma DrainOnce<T>(s: seq<T>, sep: seq<T>)
    requires |sep| > 0 && Find(s, sep) >= 0
    ensures var i := Find(s, sep);
      && i + |sep| <= |s|
      && Drain(s, sep) == Cut([s[..i]] + Drain(s[i + |sep|..], sep).frames, Drain(s[i + |sep|..], sep).rest)
  {
    hide Find;
  }

  lemma DrainNone<T>(s: seq<T>, sep: seq<T>)
    requires |sep| > 0 && Find(s, sep) < 0
    ensures Drain(s, sep) == Cut([], s)
  {
    hide Find;
  }

  lemma CutsConcat<T>(frame: seq<T>, a: seq<seq<T>>, b: seq<seq<T>>)
    ensures [frame] + (a + b) == ([frame] + a) + b && [] + b == b
  {
  }

  /** Draining piece by piece is draining at once: later bytes never move an earlier cut. */
  lemma {:induction false} DrainAppend<T>(a: seq<T>, b: seq<T>, sep: seq<T>)
    requires |sep| > 0
    ensures var d := Drain(a, sep);
            var e := Drain(d.rest + b, sep);
            Drain(a + b, sep) == Cut(d.frames + e.frames, e.rest)
    decreases |a|
  {
    hide Find, At, Drain;
    var i := Find(a, sep);
    if i < 0 {
      DrainNone(a, sep);
      CutsConcat([], [], Drain(a + b, sep).frames);
    } else {
      FindAppend(a, b, sep);
      DrainOnce(a, sep);
      DrainOnce(a + b, sep);
      var tail := a[i + |sep|..];
      assert (a + b)[..i] == a[..i] && (a + b)[i + |sep|..] == tail + b;
      DrainAppend(tail, b, sep);
      CutsConcat(a[..i], Drain(tail, sep).frames, Drain(Drain(tail, sep).rest + b, sep).frames);
    }
  }

  /** What is left over holds no separator. */
  lemma {:induction false} RestIsUncut<T>(s: seq<T>, sep: seq<T>)
    requires |sep| > 0
    ensures Find(Drain(s, sep).rest, sep) < 0
    decreases |s|
  {
    hide Find;
    var i := Find(s, sep);
    if i >= 0 {
      RestIsUncut(s[i + |sep|..], sep);
    }
  }

  function Joined<T>(frames: seq<seq<T>>, sep: seq<T>): seq<T> {
    if frames == [] then [] else frames[0] + sep + Joined(frames[1..], sep)
  }

  lemma JoinedCons<T>(frame: seq<T>, frames: seq<seq<T>>, sep: seq<T>, rest: seq<T>)
    ensures Joined([frame] + frames, sep) + rest == frame + sep + (Joined(frames, sep) + rest)
  {
    assert ([frame] + frames)[1..] == frames;
  }

  lemma CutAt<T>(s: seq<T>, i: int, sep: seq<T>)
    requires At(s, i, sep)
    ensures s == s[..i] + sep + s[i + |sep|..]
  {
    assert s == s[..i] + s[i..i + |sep|] + s[i + |sep|..];
  }

  /** Nothing is lost by cutting: the frames with their separators, then the rest, are the buffer. */
  lemma {:induction false} DrainKeepsAll<T>(s: seq<T>, sep: seq<T>)
    requires |sep| > 0
    ensures s == Joined(Drain(s, sep).frames, sep) + Drain(s, sep).rest
    decreases |s|
  {
    hide Find, Joined;
    var i := Find(s, sep);
    if i >= 0 {
      var t := s[i + |sep|..];
      DrainKeepsAll(t, sep);
      var d := Drain(t, sep);
      JoinedCons(s[..i], d.frames, sep, d.rest);
      CutAt(s, i, sep);
    } else {
      NothingJoined(s, sep);
    }
  }

  lemma NothingJoined<T>(s: seq<T>, sep: seq<T>)
    ensures Joined([], sep) + s == s
  {
  }

  /** A frame whose only separator is the one that ends it. */
  ghost predicate Clean<T>(frame: seq<T>, sep: seq<T>) {
    forall j :: 0 <= j < |frame| ==> !At(frame + sep, j, sep)
  }

  /** A clean frame is cut off whole. */
  lemma DrainFrame<T>(frame: seq<T>, rest: seq<T>, sep: seq<T>)
    requires |sep| > 0 && Clean(frame, sep)
    ensures Drain(frame + sep + rest, sep) == Cut([frame] + Drain(rest, sep).frames, Drain(rest, sep).rest)
  {
    hide Find;
    var s := frame + sep + rest;
    var n := |frame|;
    assert s[n..n + |sep|] == sep && At(s, n, sep);
    var i := Find(s, sep);
    if i < n {
      AtFront(frame + sep, rest, i, sep);
    }
    assert i == n;
    assert s[..n] == frame && s[n + |sep|..] == rest;
  }

  /** Cutting a prefix of a buffer finds a prefix of its frames. */
  lemma DrainPrefix<T>(a: seq<T>, s: seq<T>, sep: seq<T>)
    requires |sep| > 0 && a <= s
    ensures Drain(a, sep).frames <= Drain(s, sep).frames
  {
    hide Find;
    DrainAppend(a, s[|a|..], sep);
    assert a + s[|a|..] == s;
  }

  // ---- separators of one element ----

  /** All the parts of a text, as `split` returns them. */
  function Split<T(==)>(s: seq<T>, sep: seq<T>): seq<seq<T>>
    requires |sep| > 0
  {
    Drain(s, sep).frames + [Drain(s, sep).rest]
  }

  /** The parts with a separator between each two, as `join` writes them. */
  function Between<T>(parts: seq<seq<T>>, sep: seq<T>): seq<T> {
    if parts == [] then [] else if |parts| == 1 then parts[0] else parts[0] + sep + Between(parts[1..], sep)
  }

  ghost predicate Unmarked<T>(parts: seq<seq<T>>, mark: T) {
    forall i :: 0 <= i < |parts| ==> mark !in parts[i]
  }

  lemma MarkAt<T>(s: seq<T>, j: int, mark: T)
    ensures At(s, j, [mark]) <==> 0 <= j < |s| && s[j] == mark
  {
    if 0 <= j < |s| {
      assert s[j..j + 1] == [s[j]];
    }
  }

  lemma UnmarkedIsClean<T>(part: seq<T>, mark: T)
    requires mark !in part
    ensures Clean(part, [mark]) && Find(part, [mark]) < 0
  {
    forall j | 0 <= j < |part| ensures !At(part + [mark], j, [mark]) {
      MarkAt(part + [mark], j, mark);
    }
    MarkAt(part, Find(part, [mark]), mark);
  }

  lemma SplitUnmarked<T>(part: seq<T>, mark: T)
    requires mark !in part
    ensures Split(part, [mark]) == [part]
  {
    hide Find;
    UnmarkedIsClean(part, mark);
  }

  /** Parts without the mark are cut apart exactly where they were joined. */
  lemma {:induction false} SplitUndoesBetween<T>(parts: seq<seq<T>>, mark: T)
    requires parts != [] && Unmarked(parts, mark)
    ensures Split(Between(parts, [mark]), [mark]) == parts
  {
    hide Find, Drain;
    if |parts| == 1 {
      SplitUnmarked(parts[0], mark);
    } else {
      SplitUndoesBetween(parts[1..], mark);
      UnmarkedIsClean(parts[0], mark);
      DrainFrame(parts[0], Between(parts[1..], [mark]), [mark]);
      assert parts == [parts[0]] + parts[1..];
    }
  }

  lemma {:induction false} DrainUndoesJoined<T>(frames: seq<seq<T>>, mark: T)
    requires Unmarked(frames, mark)
    ensures Drain(Joined(frames, [mark]), [mark]) == Cut(frames, [])
  {
    if frames != [] {
      hide Find, Drain;
      UnmarkedIsClean(frames[0], mark);
      DrainUndoesJoined(frames[1..], mark);
      DrainFrame(frames[0], Joined(frames[1..], [mark]), [mark]);
      assert frames == [frames[0]] + frames[1..];
    }
  }

  /** What is cut apart holds no mark. */
  lemma {:induction false} PartsAreUnmarked<T>(s: seq<T>, mark: T)
    ensures Unmarked(Split(s, [mark]), mark)
    decreases |s|
  {
    hide Find;
    var i := Find(s, [mark]);
    if i < 0 {
      forall j | 0 <= j < |s| ensures s[j] != mark { MarkAt(s, j, mark); }
    } else {
      PartsAreUnmarked(s[i + 1..], mark);
      forall j | 0 <= j < i ensures s[j] != mark { MarkAt(s, j, mark); }
      assert Split(s, [mark]) == [s[..i]] + Split(s[i + 1..], [mark]);
    }
  }
}
