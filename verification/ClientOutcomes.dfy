/**
 Which outcome a supervised session is given and what it reports, told by the events alone: the first event
 that settles it decides the outcome, and a run in which nothing goes wrong reports the client's whole output.
 */
module ClientOutcomes {
  import opened Prelude
  import opened ClientStdout
  import opened ClientSettlement

  // ---- the event that settles ----

  /** The outcome an event stands for when it settles the session. */
  function OutcomeOf(e: Event): Option<Outcome> {
    match e
    case DrainEnds => Some(Exited)
    case WaitClosed => Some(Exited)
    case Close(true) => Some(Completed)
    case Close(false) => Some(Cancelled)
    case ExitSeen(WaitTimedOut) => Some(TimedOut)
    case ExitSeen(WaitBroken) => Some(StopUncertain)
    case Stdout(_) => Some(ProtocolError)
    case Stderr(_, true) => Some(ProtocolError)
    case Send(Deadline) => Some(TimedOut)
    case Receive(Deadline) => Some(TimedOut)
    case Send(Interrupted) => Some(Cancelled)
    case Receive(Interrupted) => Some(Cancelled)
    case Send(Broken) => Some(ProtocolError)
    case StartFails(Deadline) => Some(TimedOut)
    case StartFails(Interrupted) => Some(Cancelled)
    case StartFails(_) => Some(ProtocolError)
    case _ => None
  }

  /** Whether an event that stands for an outcome settles an unsettled session. */
  predicate Settles(spec: Spec, io: Io, e: Event) {
    match e
    case DrainEnds => io.exit == Draining
    case WaitClosed => io.exit != Watching && io.exit != Draining
    case ExitSeen(how) => how != ClientGone && io.exit == Watching
    case Stdout(read) => io.readerOpen && ReadStep(spec.limits, io.reader, read).status.Failed?
    case Stderr(_, fault) => fault && io.stderrOpen
    case StartFails(_) => !io.begun
    case _ => OutcomeOf(e).Some?
  }

  /** Until something has settled no failure is recorded and nothing has been finished. */
  predicate Unsettled(d: End) {
    d.settled.None? ==> d == NEW.end
  }

  lemma StepUnsettled(spec: Spec, s: Session, e: Event)
    requires Unsettled(s.end)
    ensures Unsettled(Step(spec, s, e).end)
    ensures s.end.settled.None? ==>
      Step(spec, s, e).end.settled == if Settles(spec, s.io, e) then OutcomeOf(e) else None
    ensures s.end.settled.Some? ==> Step(spec, s, e).end.settled == s.end.settled
  {
    hide ReadStep, AfterRead;
  }

  lemma {:induction false} RunUnsettled(spec: Spec, es: seq<Event>)
    ensures Unsettled(Run(spec, es).end)
  {
    hide Step, Unsettled;
    if es == [] {
      assert Unsettled(NEW.end) by { NewIsUnsettled(); }
    } else {
      RunUnsettled(spec, es[..|es| - 1]);
      StepUnsettled(spec, Run(spec, es[..|es| - 1]), es[|es| - 1]);
    }
  }

  lemma NewIsUnsettled()
    ensures Unsettled(NEW.end)
  {
  }

  /** An unsettled session is settled by the next event exactly when that event settles, and as the table says. */
  lemma SettlesIff(spec: Spec, es: seq<Event>, e: Event)
    requires Run(spec, es).end.settled.None?
    ensures Run(spec, es + [e]).end.settled == if Settles(spec, Run(spec, es).io, e) then OutcomeOf(e) else None
  {
    hide Step, Settles;
    assert (es + [e])[..|es|] == es;
    RunUnsettled(spec, es);
    StepUnsettled(spec, Run(spec, es), e);
  }

  /** In every run the first outcome is the one the table gives for the event that settled it. */
  lemma {:induction false} FirstOutcomeIs(spec: Spec, es: seq<Event>) returns (k: nat)
    requires Run(spec, es).end.settled.Some?
    ensures k < |es| && Run(spec, es[..k]).end.settled.None? && Settles(spec, Run(spec, es[..k]).io, es[k])
    ensures Run(spec, es).end.settled == OutcomeOf(es[k])
    decreases |es|
  {
    hide Step, Settles, Unsettled;
    assert es != [];
    var front, e := es[..|es| - 1], es[|es| - 1];
    RunUnsettled(spec, front);
    StepUnsettled(spec, Run(spec, front), e);
    if Run(spec, front).end.settled.Some? {
      k := FirstOutcomeIs(spec, front);
      assert front[..k] == es[..k];
    } else {
      k := |front|;
    }
  }

  // ---- a run in which nothing goes wrong ----

  /** Reads, sends and receives that work, and the client seen to exit. */
  predicate Calm(e: Event) {
    e.Stdout? || (e.Stderr? && !e.fault) || e == Send(Done) || e == Receive(Done) || e == ExitSeen(ClientGone) || e == Begin
  }

  /** The stdout reads among some events. */
  function ReadsOf(es: seq<Event>): seq<Read> {
    if es == [] then []
    else ReadsOf(es[..|es| - 1]) + if es[|es| - 1].Stdout? then [es[|es| - 1].read] else []
  }

  /** The stderr bytes among some events, up to the read that ends it. */
  function ErrBytesOf(es: seq<Event>): nat {
    if es == [] then 0
    else
      var front, e := es[..|es| - 1], es[|es| - 1];
      ErrBytesOf(front) + if e.Stderr? && Stderr(0, false) !in front then e.count else 0
  }

  /** A log of reads that ends the stream, all of it good. */
  predicate Complete(limits: Limits, log: seq<Read>) {
    && log != [] && ReadAll(limits, log).status == Ended
    && forall k :: 0 <= k < |log| ==> ReadAll(limits, log[..k]).status == Reading
  }

  /** Where calm events, after the beginning, have got to. */
  ghost predicate Calmly(spec: Spec, s: Session, es: seq<Event>, log: seq<Read>) {
    && s.end == NEW.end && s.io.begun
    && s.io.output == ReadsOf(es) && s.io.reader == ReadAll(spec.limits, ReadsOf(es))
    && s.io.readerOpen == (s.io.reader.status == Reading)
    && s.io.stderrOpen == (Stderr(0, false) !in es) && s.io.errBytes == ErrBytesOf(es)
    && s.io.exit == (if ExitSeen(ClientGone) in es then Draining else Watching)
    && ReadsOf(es) <= log
  }

  lemma CalmSets(es: seq<Event>, e: Event)
    ensures Stderr(0, false) in es + [e] <==> Stderr(0, false) in es || e == Stderr(0, false)
    ensures ExitSeen(ClientGone) in es + [e] <==> ExitSeen(ClientGone) in es || e == ExitSeen(ClientGone)
    ensures ReadsOf(es + [e]) == ReadsOf(es) + if e.Stdout? then [e.read] else []
    ensures ErrBytesOf(es + [e]) == ErrBytesOf(es) + if e.Stderr? && Stderr(0, false) !in es then e.count else 0
  {
    assert (es + [e])[..|es|] == es;
  }

  lemma CalmRead(spec: Spec, s: Session, es: seq<Event>, read: Read, log: seq<Read>)
    requires Calmly(spec, s, es, log) && ReadsOf(es + [Stdout(read)]) <= log && Complete(spec.limits, log)
    ensures Calmly(spec, Step(spec, s, Stdout(read)), es + [Stdout(read)], log)
  {
    hide ReadStep, Complete, ReadAll, ReadsOf, ErrBytesOf;
    CalmSets(es, Stdout(read));
    NextRead(spec.limits, log, ReadsOf(es), read);
  }

  lemma CalmStep(spec: Spec, s: Session, es: seq<Event>, e: Event, log: seq<Read>)
    requires Calmly(spec, s, es, log) && Calm(e) && ReadsOf(es + [e]) <= log && Complete(spec.limits, log)
    ensures Calmly(spec, Step(spec, s, e), es + [e], log)
  {
    hide ReadStep, Complete, ReadAll, ReadsOf, ErrBytesOf;
    CalmSets(es, e);
    if e.Stdout? {
      CalmRead(spec, s, es, e.read, log);
    } else {
      assert ReadsOf(es) + [] == ReadsOf(es);
    }
  }

  lemma NextRead(limits: Limits, log: seq<Read>, done: seq<Read>, read: Read)
    requires Complete(limits, log) && done + [read] <= log
    ensures ReadAll(limits, done).status == Reading
    ensures ReadAll(limits, done + [read]) == ReadStep(limits, ReadAll(limits, done), read)
    ensures !ReadAll(limits, done + [read]).status.Failed?
  {
    hide ReadStep;
    assert log[..|done|] == done;
    assert (done + [read])[..|done|] == done;
    assert log[..|done| + 1] == done + [read];
    if |done| + 1 == |log| { assert done + [read] == log; }
  }

  lemma {:induction false} CalmRun(spec: Spec, es: seq<Event>, log: seq<Read>)
    requires (forall e :: e in es ==> Calm(e)) && ReadsOf(es) <= log && Complete(spec.limits, log)
    ensures Calmly(spec, Run(spec, [Begin] + es), es, log)
  {
    hide Calmly, Complete, Calm, Step;
    if es == [] {
      assert [Begin] + es == [Begin];
      JustBegun(spec, log);
    } else {
      var front, e := es[..|es| - 1], es[|es| - 1];
      assert front + [e] == es;
      assert ReadsOf(front) <= ReadsOf(es);
      CalmRun(spec, front, log);
      CalmStep(spec, Run(spec, [Begin] + front), front, e, log);
      var run := [Begin] + es;
      assert run[..|run| - 1] == [Begin] + front && run[|run| - 1] == e;
    }
  }

  lemma JustBegun(spec: Spec, log: seq<Read>)
    ensures Calmly(spec, Run(spec, [Begin]), [], log)
  {
    assert [Begin][..0] == [];
    assert Run(spec, []) == NEW;
  }

  // ---- the finishing task on its ordinary way ----

  /** The stretches of the finishing task when revocation and stop are sure. */
  function Finish(gone: bool, root: Option<int>, code: Option<int>): seq<Event> {
    [Revoke(true), Stop(gone, root, code, false), Collect, Publish]
  }

  /**
   What is reported for an outcome: a completed client found already gone counts as exited, and one that exited
   or completed although a failure was recorded counts as a protocol error.
   */
  function Final(outcome: Outcome, gone: bool, failed: bool): Outcome {
    if failed && outcome in {Exited, Completed} then ProtocolError
    else if outcome == Completed && gone then Exited else outcome
  }

  function Reporting(spec: Spec, io: Io, outcome: Outcome, code: Option<int>, root: Option<int>): Report {
    Report(code, if outcome == Exited then io.reader.frames else [], io.reader.outBytes, io.errBytes,
           io.reader.outBytes > spec.limits.stdoutMax, io.errBytes > spec.stderrMax,
           outcome, true, root.Some? && outcome == Completed && code == root)
  }

  /** A scheduled task that nothing makes unsure reports the first outcome so, with the client's code and counts. */
  lemma FinishReports(spec: Spec, s: Session, gone: bool, root: Option<int>, code: Option<int>)
    requires s.end.stage == Scheduled && s.end.outcome != StopUncertain && !s.io.readerOpen && !s.io.stderrOpen
    ensures var t := Step(spec, Step(spec, Step(spec, Step(spec, s, Revoke(true)), Stop(gone, root, code, false)), Collect), Publish);
      t.end.report == Some(Reporting(spec, s.io, Final(s.end.outcome, gone, s.end.failure.Some?), code, root))
  {
    var a := Step(spec, s, Revoke(true));
    var b := Step(spec, a, Stop(gone, root, code, false));
    var c := Step(spec, b, Collect);
    assert a.end.confirmed && b.end.confirmed && c.end.confirmed;
  }

  lemma RunFive(spec: Spec, es: seq<Event>, e: Event, gone: bool, root: Option<int>, code: Option<int>)
    ensures Run(spec, es + [e] + Finish(gone, root, code)) ==
      Step(spec, Step(spec, Step(spec, Step(spec, Step(spec, Run(spec, es), e), Revoke(true)), Stop(gone, root, code, false)),
        Collect), Publish)
  {
    hide Step, Run;
    var a, b := es + [e], es + [e] + [Revoke(true)];
    var c := b + [Stop(gone, root, code, false)];
    RunOneMore(spec, es, e);
    RunOneMore(spec, a, Revoke(true));
    RunOneMore(spec, b, Stop(gone, root, code, false));
    RunOneMore(spec, c, Collect);
    RunOneMore(spec, c + [Collect], Publish);
    assert c + [Collect] + [Publish] == es + [e] + Finish(gone, root, code);
  }

  lemma RunOneMore(spec: Spec, es: seq<Event>, e: Event)
    ensures Run(spec, es + [e]) == Step(spec, Run(spec, es), e)
  {
    hide Step;
    assert (es + [e])[..|es|] == es;
  }

  /** How an uneventful session is brought to its end. */
  predicate Ending(e: Event) {
    e == DrainEnds || e.Close? || e in {Send(Interrupted), Receive(Interrupted), Send(Deadline), Receive(Deadline), Send(Broken)}
  }

  /**
   However reads, sends, receives and the exit lie among each other, a session whose client wrote an accepted
   stream to its end reports, confirmed, the outcome of the event that ends it; and where that is an exit,
   the decoded lines of the stream.
   */
  lemma UneventfulRunReports(
    spec: Spec, middle: seq<Event>, chunks: seq<seq<byte>>, e: Event, gone: bool, root: Option<int>, code: Option<int>)
    requires (forall c :: c in chunks ==> c != []) && Accepts(spec.limits, Stream(chunks))
    requires (forall m :: m in middle ==> Calm(m)) && ReadsOf(middle) == Reads(chunks) + [Chunk([])]
    requires Stderr(0, false) in middle && ExitSeen(ClientGone) in middle && Ending(e)
    ensures var report := Run(spec, [Begin] + middle + [e] + Finish(gone, root, code)).end.report;
      && report.Some?
      && var r := report.value;
      && r.stopConfirmed && Some(r.outcome) == (if e == Close(true) && gone then Some(Exited) else OutcomeOf(e))
      && r.code == code && r.outBytes == |Stream(chunks)| && !r.stdoutTruncated
      && r.errBytes == ErrBytesOf(middle) && (r.stderrTruncated <==> r.errBytes > spec.stderrMax)
      && (r.intentionalStop <==> e == Close(true) && !gone && root.Some? && code == root)
      && (if r.outcome == Exited
          then |r.frames| == |Lines(Stream(chunks))|
               && forall i :: 0 <= i < |r.frames| ==> Some(r.frames[i]) == spec.limits.decode(Lines(Stream(chunks))[i])
          else r.frames == [])
  {
    hide ReadAll, Accepts, Stream, Lines, Run, Step, Calm, Calmly, Complete, ErrBytesOf;
    var log := Reads(chunks) + [Chunk([])];
    GoodLog(spec.limits, chunks);
    FramingIgnoresChunks(spec.limits, chunks);
    CalmRun(spec, middle, log);
    RunFive(spec, [Begin] + middle, e, gone, root, code);
    var s := Run(spec, [Begin] + middle);
    CalmEnds(spec, s, middle, log, e);
    FinishReports(spec, Step(spec, s, e), gone, root, code);
  }

  lemma CalmEnds(spec: Spec, s: Session, es: seq<Event>, log: seq<Read>, e: Event)
    requires Calmly(spec, s, es, log) && ReadsOf(es) == log && Complete(spec.limits, log) && Ending(e)
    requires Stderr(0, false) in es && ExitSeen(ClientGone) in es
    ensures var t := Step(spec, s, e);
      && t.end.stage == Scheduled && Some(t.end.outcome) == OutcomeOf(e)
      && !t.io.readerOpen && !t.io.stderrOpen && t.io.reader == ReadAll(spec.limits, log)
      && t.io.errBytes == ErrBytesOf(es)
      && (t.end.outcome in {Exited, Completed} ==> t.end.failure.None?)
  {
    hide ReadAll;
  }

  lemma {:induction false} BytesAreStream(limits: Limits, chunks: seq<seq<byte>>)
    requires forall k :: 0 <= k <= |chunks| ==> ReadAll(limits, Reads(chunks[..k])).status == Reading
    requires forall c :: c in chunks ==> c != []
    ensures ReadAll(limits, Reads(chunks)).outBytes == |Stream(chunks)|
  {
    if chunks == [] {
      assert Reads(chunks) == [];
    } else {
      var n := |chunks| - 1;
      assert Reads(chunks)[..n] == Reads(chunks[..n]);
      forall k | 0 <= k <= n ensures chunks[..n][..k] == chunks[..k] {}
      forall c | c in chunks[..n] ensures c in chunks {}
      BytesAreStream(limits, chunks[..n]);
      assert chunks[..n + 1] == chunks;
    }
  }

  /** The reads of an accepted stream are a complete log and count its bytes. */
  lemma GoodLog(limits: Limits, chunks: seq<seq<byte>>)
    requires (forall c :: c in chunks ==> c != []) && Accepts(limits, Stream(chunks))
    ensures Complete(limits, Reads(chunks) + [Chunk([])])
    ensures ReadAll(limits, Reads(chunks) + [Chunk([])]).outBytes == |Stream(chunks)| <= limits.stdoutMax
  {
    hide ReadStep, Stream, Lines;
    var log := Reads(chunks) + [Chunk([])];
    FramingIgnoresChunks(limits, chunks);
    forall k | 0 <= k < |log| ensures ReadAll(limits, log[..k]).status == Reading {
      StillReading(limits, chunks, log, k);
    }
    assert log[..|chunks|] == Reads(chunks);
    forall k | 0 <= k <= |chunks| ensures ReadAll(limits, Reads(chunks[..k])).status == Reading {
      assert log[..k] == Reads(chunks[..k]);
    }
    BytesAreStream(limits, chunks);
    EndKeepsBytes(limits, ReadAll(limits, Reads(chunks)));
  }

  lemma EndKeepsBytes(limits: Limits, r: Reader)
    ensures ReadStep(limits, r, Chunk([])).outBytes == r.outBytes
  {
  }

  /** A log that ends well was still being read at every earlier point. */
  lemma {:induction false} StillReading(limits: Limits, chunks: seq<seq<byte>>, log: seq<Read>, k: nat)
    requires log == Reads(chunks) + [Chunk([])] && (forall c :: c in chunks ==> c != [])
    requires k <= |chunks| && ReadAll(limits, log).status == Ended
    ensures ReadAll(limits, log[..k]).status == Reading
  {
    hide ReadStep;
    if !ReadAll(limits, log[..k]).status.Reading? {
      NeverEndedEarly(limits, chunks, log, k);
      Sticks(limits, log, k);
      assert false;
    }
  }

  lemma {:induction false} Sticks(limits: Limits, log: seq<Read>, k: nat)
    requires k <= |log| && ReadAll(limits, log[..k]).status.Failed?
    ensures ReadAll(limits, log).status.Failed?
    decreases |log|
  {
    if k < |log| {
      assert log[..|log| - 1][..k] == log[..k];
      Sticks(limits, log[..|log| - 1], k);
    } else {
      assert log[..k] == log;
    }
  }

  lemma {:induction false} NeverEndedEarly(limits: Limits, chunks: seq<seq<byte>>, log: seq<Read>, k: nat)
    requires log == Reads(chunks) + [Chunk([])] && (forall c :: c in chunks ==> c != []) && k <= |chunks|
    ensures ReadAll(limits, log[..k]).status != Ended
  {
    if k > 0 {
      NeverEndedEarly(limits, chunks, log, k - 1);
      assert log[..k][..k - 1] == log[..k - 1] && log[..k][k - 1] == Chunk(chunks[k - 1]);
      assert chunks[k - 1] in chunks;
    }
  }

  // ---- frames reach the owner ----

  predicate AllFrames(queue: seq<Option<JObj>>) {
    forall i :: 0 <= i < |queue| ==> queue[i].Some?
  }

  predicate NoneLast(queue: seq<Option<JObj>>) {
    forall i, j :: 0 <= i < j < |queue| && queue[i].None? ==> queue[j].None?
  }

  /** End markers lie behind all frames, and there is none while the reader is open. */
  predicate MarkersLast(s: Session) {
    && NoneLast(s.io.queue)
    && (s.io.readerOpen ==> AllFrames(s.io.queue))
    && (!s.io.begun && s.end.settled.None? ==> s.io.queue == [])
    && (s.end.settled.None? ==> s.end.stage == Open)
  }

  lemma ReadKeepsMarkers(spec: Spec, s: Session, read: Read)
    requires MarkersLast(s) && (s.io.readerOpen ==> s.io.begun)
    ensures MarkersLast(OnStdout(spec, s, read))
  {
    hide ReadStep;
  }

  lemma GetKeepsMarkers(s: Session, how: IoEnd)
    requires MarkersLast(s)
    ensures MarkersLast(OnReceive(s, how))
  {
  }

  lemma FinishKeepsMarkers(spec: Spec, s: Session)
    requires MarkersLast(s) && (s.end.stage == Collected ==> !s.io.readerOpen)
    ensures MarkersLast(OnCollect(s)) && MarkersLast(OnPublish(spec, s))
  {
    hide ReportOf;
  }

  lemma StepKeepsMarkers(spec: Spec, s: Session, e: Event)
    requires MarkersLast(s) && Kept(spec, s)
    ensures MarkersLast(Step(spec, s, e))
  {
    hide ReadStep, ReadAll, OnCollect, OnPublish, OnStdout, OnReceive, NoneLast, AllFrames, QueueKept, EndKept, FramesIn;
    match e {
      case Stdout(read) => ReadKeepsMarkers(spec, s, read);
      case Receive(how) => GetKeepsMarkers(s, how);
      case Collect => FinishKeepsMarkers(spec, s);
      case Publish => FinishKeepsMarkers(spec, s);
      case _ => NoFrames();
    }
  }

  lemma NoFrames()
    ensures AllFrames([]) && NoneLast([])
  {
  }

  lemma {:induction false} RunKeepsMarkers(spec: Spec, es: seq<Event>)
    ensures MarkersLast(Run(spec, es))
  {
    hide Step, MarkersLast, Kept;
    if es == [] {
      NewHasNoMarkers();
    } else {
      RunKeeps(spec, es[..|es| - 1]);
      RunKeepsMarkers(spec, es[..|es| - 1]);
      StepKeepsMarkers(spec, Run(spec, es[..|es| - 1]), es[|es| - 1]);
    }
  }

  lemma NewHasNoMarkers()
    ensures MarkersLast(NEW)
  {
  }

  lemma {:induction false} OnlyMarkers(queue: seq<Option<JObj>>)
    requires NoneLast(queue) && queue != [] && queue[0].None?
    ensures FramesIn(queue) == []
    decreases |queue|
  {
    if |queue| > 1 {
      OnlyMarkers(queue[1..]);
    }
  }

  /** While no failure is recorded and frames are left, a receive hands the owner exactly the next admitted frame. */
  lemma ReceiveHandsNext(spec: Spec, es: seq<Event>)
    requires Run(spec, es).end.failure.None? && |Run(spec, es).io.delivered| < |Run(spec, es).io.reader.frames|
    ensures var s, t := Run(spec, es), Run(spec, es + [Receive(Done)]);
      t.io.delivered == s.io.delivered + [s.io.reader.frames[|s.io.delivered|]] && t.io.unread == s.io.unread - 1
  {
    hide Run, FramesIn, MarkersLast;
    var s := Run(spec, es);
    FramesAreDeliveredInOrder(spec, es);
    RunKeepsMarkers(spec, es);
    RunOneMore(spec, es, Receive(Done));
    HeadIsNext(s);
  }

  lemma HeadIsNext(s: Session)
    requires MarkersLast(s) && s.io.taken + FramesIn(s.io.queue) == s.io.reader.frames && FramesIn(s.io.queue) != []
    ensures s.io.queue != [] && s.io.queue[0] == Some(s.io.reader.frames[|s.io.taken|])
  {
    if s.io.queue[0].None? {
      OnlyMarkers(s.io.queue);
    } else {
      assert FramesIn(s.io.queue)[0] == s.io.queue[0].value;
    }
  }
}
