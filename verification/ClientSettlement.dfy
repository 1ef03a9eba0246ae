/**
 One supervised client session: readers, exit watcher, sender, receiver and owner race to settle it,
 and a single finishing task turns the first outcome into one result.

 Each event is one atomic stretch between two suspension points; any order of events is a run.
 */
module ClientSettlement {
  import opened Prelude
  import opened ClientStdout

  datatype Outcome = Exited | Completed | TimedOut | Cancelled | ProtocolError | StopUncertain

  datatype Fault = DeadlinePassed | BadOutput(why: Failure) | WaitFailed | StderrFailed | RevocationUncertain

  datatype ExitWatch = Unwatched | Watching | Draining | WatchDone

  /** How far the finishing task has come. */
  datatype Stage = Open | Scheduled | Revoked | Stopped | Collected | Published | Closed(receiptKept: bool)

  datatype Report = Report(
    code: Option<int>, frames: seq<JObj>, outBytes: nat, errBytes: nat,
    stdoutTruncated: bool, stderrTruncated: bool,
    outcome: Outcome, stopConfirmed: bool, intentionalStop: bool)

  datatype Spec = Spec(limits: Limits, stderrMax: nat, hasLifecycle: bool)

  /** The pipes, the frame queue and the exit watch, with what was taken off the queue and what the owner got. */
  datatype Io = Io(
    begun: bool, reader: Reader, readerOpen: bool, stderrOpen: bool, errBytes: nat,
    queue: seq<Option<JObj>>, unread: int, exit: ExitWatch,
    output: seq<Read>, taken: seq<JObj>, delivered: seq<JObj>)

  /** The settlement: the first outcome, the finishing task, and what it has produced. */
  datatype End = End(
    failure: Option<Fault>, settled: Option<Outcome>, stage: Stage, outcome: Outcome, confirmed: bool,
    code: Option<int>, rootCode: Option<int>, report: Option<Report>,
    finishRuns: nat, receipts: seq<Report>)

  datatype Session = Session(io: Io, end: End)

  const NEW := Session(
    Io(false, IDLE, false, false, 0, [], 0, Unwatched, [], [], []),
    End(None, None, Open, Exited, false, None, None, None, 0, []))

  datatype WaitEnd = ClientGone | WaitTimedOut | WaitBroken
  datatype IoEnd = Done | Deadline | Interrupted | Broken

  datatype Event =
    | Begin
    | StartFails(error: IoEnd)
    | ExitSeen(end: WaitEnd)
    | DrainEnds
    | Stdout(read: Read)
    | Stderr(count: nat, fault: bool)
    | Send(how: IoEnd)
    | Receive(how: IoEnd)
    | Close(completed: bool)
    | WaitClosed
    | Revoke(sure: bool)
    | Stop(alreadyGone: bool, root: Option<int>, exitCode: Option<int>, fault: bool)
    | Collect
    | Publish
    | Receipt(kept: bool)

  // ---- the events ----

  /** The first outcome schedules the finishing task; later ones are ignored. */
  function Settle(d: End, outcome: Outcome): End {
    if d.settled.Some? then d
    else d.(settled := Some(outcome), stage := Scheduled, outcome := outcome, finishRuns := d.finishRuns + 1)
  }

  function Fail(d: End, fault: Fault, outcome: Outcome): End {
    Settle(d.(failure := Some(fault)), outcome)
  }

  function OnBegin(s: Session): Session {
    if s.io.begun || s.end.settled.Some? then s
    else s.(io := s.io.(begun := true, readerOpen := true, stderrOpen := true, exit := Watching))
  }

  function OnStartFails(s: Session, error: IoEnd): Session {
    if s.io.begun then s
    else s.(end := Settle(s.end, match error case Interrupted => Cancelled case Deadline => TimedOut case _ => ProtocolError))
  }

  function OnExitSeen(s: Session, how: WaitEnd): Session {
    if s.io.exit != Watching then s
    else
      match how
      case ClientGone => s.(io := s.io.(exit := Draining))
      case WaitTimedOut => Session(s.io.(exit := WatchDone), Fail(s.end, DeadlinePassed, TimedOut))
      case WaitBroken => Session(s.io.(exit := WatchDone), Fail(s.end, WaitFailed, StopUncertain))
  }

  function OnDrainEnds(s: Session): Session {
    if s.io.exit != Draining then s else Session(s.io.(exit := WatchDone), Settle(s.end, Exited))
  }

  function Items(frames: seq<JObj>): seq<Option<JObj>> {
    seq(|frames|, i requires 0 <= i < |frames| => Some(frames[i]))
  }

  /** The frames one read has added. */
  function News(before: Reader, after: Reader): seq<JObj> {
    if |before.frames| <= |after.frames| then after.frames[|before.frames|..] else []
  }

  function AfterRead(io: Io, r: Reader, read: Read): Io {
    var news := News(io.reader, r);
    var queue := io.queue + Items(news);
    io.(reader := r, output := io.output + [read], unread := io.unread + |news|,
        readerOpen := r.status == Reading, queue := if r.status == Reading then queue else queue + [None])
  }

  function OnStdout(spec: Spec, s: Session, read: Read): Session {
    if !s.io.readerOpen then s
    else
      var r := ReadStep(spec.limits, s.io.reader, read);
      Session(AfterRead(s.io, r, read),
              if r.status.Failed? then Fail(s.end, BadOutput(r.status.why), ProtocolError) else s.end)
  }

  function OnStderr(s: Session, bytes: nat, fault: bool): Session {
    if !s.io.stderrOpen then s
    else if fault then
      Session(s.io.(stderrOpen := false),
              if s.end.settled.Some? then s.end else Fail(s.end, StderrFailed, ProtocolError))
    else s.(io := s.io.(errBytes := s.io.errBytes + bytes, stderrOpen := bytes > 0))
  }

  function OnSend(s: Session, how: IoEnd): Session {
    s.(end :=
      match how
      case Done => s.end
      case Deadline => Fail(s.end, DeadlinePassed, TimedOut)
      case Interrupted => Settle(s.end, Cancelled)
      case Broken => Settle(s.end, ProtocolError))
  }

  /** Takes the head of the queue; it reaches the owner only if the call then returns. */
  function AfterGet(io: Io, handed: bool): Io
    requires io.queue != []
  {
    var t, item := io.(queue := io.queue[1..]), io.queue[0];
    if item.None? then t
    else t.(unread := io.unread - 1, taken := io.taken + [item.value],
            delivered := if handed then io.delivered + [item.value] else io.delivered)
  }

  function OnReceive(s: Session, how: IoEnd): Session {
    match how
    case Deadline => s.(end := Fail(s.end, DeadlinePassed, TimedOut))
    case Interrupted => s.(end := Settle(s.end, Cancelled))
    case _ =>
      if s.io.queue == [] then s
      else Session(AfterGet(s.io, s.end.failure.None?), if s.end.failure.Some? then Settle(s.end, ProtocolError) else s.end)
  }

  function OnWaitClosed(s: Session): Session {
    if s.io.exit in {Watching, Draining} && s.end.settled.None? then s else s.(end := Settle(s.end, Exited))
  }

  function OnRevoke(d: End, sure: bool): End {
    if d.stage != Scheduled then d
    else if sure then d.(stage := Revoked, confirmed := d.outcome != StopUncertain)
    else d.(stage := Revoked, confirmed := false, failure := Some(RevocationUncertain))
  }

  function OnStop(d: End, alreadyGone: bool, root: Option<int>, exitCode: Option<int>, fault: bool): End {
    if d.stage != Revoked then d
    else d.(stage := Stopped, outcome := if d.outcome == Completed && alreadyGone then Exited else d.outcome,
            rootCode := root, code := exitCode, confirmed := d.confirmed && !fault)
  }

  /** Readers that outlive the stop are cancelled, which leaves the stop unconfirmed. */
  function OnCollect(s: Session): Session {
    if s.end.stage != Stopped then s
    else
      Session(s.io.(stderrOpen := false, readerOpen := false,
                    queue := if s.io.readerOpen then s.io.queue + [None] else s.io.queue),
              s.end.(stage := Collected, confirmed := s.end.confirmed && !s.io.readerOpen && !s.io.stderrOpen))
  }

  function FinalOutcome(d: End): Outcome {
    if d.failure.Some? && d.outcome in {Exited, Completed} then ProtocolError else d.outcome
  }

  function ReportOf(spec: Spec, io: Io, d: End): Report {
    var outcome := FinalOutcome(d);
    Report(d.code,
           if outcome == Exited && d.failure.None? && d.confirmed then io.reader.frames else [],
           io.reader.outBytes, io.errBytes,
           io.reader.outBytes > spec.limits.stdoutMax, io.errBytes > spec.stderrMax,
           if d.confirmed then outcome else StopUncertain, d.confirmed,
           d.rootCode.Some? && d.confirmed && outcome == Completed && d.code == d.rootCode)
  }

  function Reported(spec: Spec, d: End, report: Report): End {
    d.(outcome := FinalOutcome(d), report := Some(report),
       stage := if spec.hasLifecycle then Published else Closed(true),
       receipts := if spec.hasLifecycle then d.receipts + [report] else d.receipts)
  }

  function OnPublish(spec: Spec, s: Session): Session {
    if s.end.stage != Collected then s
    else
      var report := ReportOf(spec, s.io, s.end);
      Session(s.io.(queue := s.io.queue + [None]), Reported(spec, s.end, report))
  }

  function OnReceipt(d: End, kept: bool): End {
    if d.stage != Published then d else d.(stage := Closed(kept))
  }

  function Step(spec: Spec, s: Session, e: Event): Session {
    match e
    case Begin => OnBegin(s)
    case StartFails(error) => OnStartFails(s, error)
    case ExitSeen(how) => OnExitSeen(s, how)
    case DrainEnds => OnDrainEnds(s)
    case Stdout(read) => OnStdout(spec, s, read)
    case Stderr(bytes, fault) => OnStderr(s, bytes, fault)
    case Send(how) => OnSend(s, how)
    case Receive(how) => OnReceive(s, how)
    case Close(completed) => s.(end := Settle(s.end, if completed then Completed else Cancelled))
    case WaitClosed => OnWaitClosed(s)
    case Revoke(sure) => s.(end := OnRevoke(s.end, sure))
    case Stop(gone, root, exitCode, fault) => s.(end := OnStop(s.end, gone, root, exitCode, fault))
    case Collect => OnCollect(s)
    case Publish => OnPublish(spec, s)
    case Receipt(kept) => s.(end := OnReceipt(s.end, kept))
  }

  function Run(spec: Spec, es: seq<Event>): Session {
    if es == [] then NEW else Step(spec, Run(spec, es[..|es| - 1]), es[|es| - 1])
  }

  // ---- the session object ----

  class ClientProcessSession {
    const spec: Spec
    var begun: bool
    var reader: Reader
    var readerOpen: bool
    var stderrOpen: bool
    var errBytes: nat
    var queue: seq<Option<JObj>>
    var unread: int
    var exit: ExitWatch
    var failure: Option<Fault>
    var settled: Option<Outcome>
    var stage: Stage
    var outcome: Outcome
    var confirmed: bool
    var code: Option<int>
    var rootCode: Option<int>
    var report: Option<Report>
    ghost var output: seq<Read>
    ghost var taken: seq<JObj>
    ghost var delivered: seq<JObj>
    ghost var finishRuns: nat
    ghost var receipts: seq<Report>

    ghost function Pipes(): Io
      reads this
    {
      Io(begun, reader, readerOpen, stderrOpen, errBytes, queue, unread, exit, output, taken, delivered)
    }

    ghost function Ending(): End
      reads this
    {
      End(failure, settled, stage, outcome, confirmed, code, rootCode, report, finishRuns, receipts)
    }

    ghost function State(): Session
      reads this
    {
      Session(Pipes(), Ending())
    }

    constructor (spec: Spec)
      ensures this.spec == spec && State() == NEW
    {
      this.spec := spec;
      begun, reader, readerOpen, stderrOpen, errBytes := false, IDLE, false, false, 0;
      queue, unread, exit, failure, settled := [], 0, Unwatched, None, None;
      stage, outcome, confirmed, code, rootCode, report := Open, Exited, false, None, None, None;
      output, taken, delivered, finishRuns, receipts := [], [], [], 0, [];
    }

    method SettleWith(first: Outcome)
      modifies this`settled, this`stage, this`outcome, this`finishRuns
      ensures Ending() == Settle(old(Ending()), first)
    {
      if settled == None {
        settled, stage, outcome := Some(first), Scheduled, first;
        finishRuns := finishRuns + 1;
      }
    }

    method FailWith(fault: Fault, first: Outcome)
      modifies this`failure, this`settled, this`stage, this`outcome, this`finishRuns
      ensures Ending() == Fail(old(Ending()), fault, first)
    {
      failure := Some(fault);
      SettleWith(first);
    }

    method BeginSession()
      modifies this
      ensures State() == OnBegin(old(State()))
    {
      if !begun && settled == None {
        begun, readerOpen, stderrOpen, exit := true, true, true, Watching;
      }
    }

    method AbandonStart(error: IoEnd)
      modifies this
      ensures State() == OnStartFails(old(State()), error)
    {
      if !begun {
        match error {
          case Interrupted => SettleWith(Cancelled);
          case Deadline => SettleWith(TimedOut);
          case _ => SettleWith(ProtocolError);
        }
      }
    }

    method WatchExit(how: WaitEnd)
      modifies this
      ensures State() == OnExitSeen(old(State()), how)
    {
      hide Fail;
      if exit == Watching {
        if how == ClientGone {
          exit := Draining;
          return;
        }
        exit := WatchDone;
        if how == WaitTimedOut {
          FailWith(DeadlinePassed, TimedOut);
        } else {
          FailWith(WaitFailed, StopUncertain);
        }
      }
    }

    method EndDrain()
      modifies this
      ensures State() == OnDrainEnds(old(State()))
    {
      if exit == Draining {
        exit := WatchDone;
        SettleWith(Exited);
      }
    }

    /** Queues what a read has admitted, and the end marker when the reader stops. */
    method TakeRead(read: Read)
      modifies this`reader, this`readerOpen, this`queue, this`unread, this`output
      ensures Pipes() == AfterRead(old(Pipes()), ReadStep(spec.limits, old(reader), read), read)
      ensures reader == ReadStep(spec.limits, old(reader), read)
    {
      hide ReadStep;
      var before := reader;
      reader := ReadStep(spec.limits, before, read);
      var news := News(before, reader);
      readerOpen := reader.status == Reading;
      queue := if readerOpen then queue + Items(news) else queue + Items(news) + [None];
      unread := unread + |news|;
      output := output + [read];
    }

    method ReadStdout(read: Read)
      modifies this
      ensures State() == OnStdout(spec, old(State()), read)
    {
      hide ReadStep, AfterRead;
      if readerOpen {
        TakeRead(read);
        if reader.status.Failed? {
          FailWith(BadOutput(reader.status.why), ProtocolError);
        }
      }
    }

    method ReadStderr(bytes: nat, fault: bool)
      modifies this
      ensures State() == OnStderr(old(State()), bytes, fault)
    {
      hide Fail;
      if stderrOpen {
        if fault {
          stderrOpen := false;
          if settled == None {
            FailWith(StderrFailed, ProtocolError);
          }
        } else {
          errBytes := errBytes + bytes;
          stderrOpen := bytes > 0;
        }
      }
    }

    method SendFrame(how: IoEnd)
      modifies this
      ensures State() == OnSend(old(State()), how)
    {
      match how {
        case Done =>
        case Deadline => FailWith(DeadlinePassed, TimedOut);
        case Interrupted => SettleWith(Cancelled);
        case Broken => SettleWith(ProtocolError);
      }
    }

    method GetItem() returns (item: Option<JObj>)
      requires queue != []
      modifies this`queue, this`unread, this`taken, this`delivered
      ensures Pipes() == AfterGet(old(Pipes()), failure.None?) && item == old(queue)[0]
    {
      item := queue[0];
      queue := queue[1..];
      if item.Some? {
        unread := unread - 1;
        taken := taken + [item.value];
        if failure.None? {
          delivered := delivered + [item.value];
        }
      }
    }

    /** The frame handed to the owner; `None` at the end of the frames, or when the call raises or still waits. */
    method ReceiveFrame(how: IoEnd) returns (item: Option<JObj>)
      modifies this
      ensures State() == OnReceive(old(State()), how)
      ensures item == if how in {Done, Broken} && old(queue) != [] && old(failure).None? then old(queue)[0] else None
      ensures delivered == old(delivered) + FrameOf(item)
    {
      item := None;
      match how {
        case Deadline => FailWith(DeadlinePassed, TimedOut);
        case Interrupted => SettleWith(Cancelled);
        case _ =>
          if queue != [] {
            item := GetItem();
            if failure.Some? {
              SettleWith(ProtocolError);
              item := None;
            }
          }
      }
    }

    method CloseSession(completed: bool)
      modifies this
      ensures State() == old(State()).(end := Settle(old(Ending()), if completed then Completed else Cancelled))
    {
      if completed {
        SettleWith(Completed);
      } else {
        SettleWith(Cancelled);
      }
    }

    method AwaitClosed()
      modifies this
      ensures State() == OnWaitClosed(old(State()))
    {
      if settled.Some? || exit == Unwatched || exit == WatchDone {
        SettleWith(Exited);
      }
    }

    /** The stretches of the finishing task, in the order it runs them. */
    method FinishRevoke(sure: bool)
      modifies this`stage, this`confirmed, this`failure
      ensures Pipes() == old(Pipes()) && Ending() == OnRevoke(old(Ending()), sure)
    {
      if stage == Scheduled {
        confirmed := outcome != StopUncertain;
        if !sure {
          confirmed, failure := false, Some(RevocationUncertain);
        }
        stage := Revoked;
      }
    }

    method FinishStop(alreadyGone: bool, root: Option<int>, exitCode: Option<int>, fault: bool)
      modifies this`stage, this`outcome, this`rootCode, this`code, this`confirmed
      ensures Ending() == OnStop(old(Ending()), alreadyGone, root, exitCode, fault)
    {
      if stage == Revoked {
        if outcome == Completed && alreadyGone {
          outcome := Exited;
        }
        rootCode, code := root, exitCode;
        if fault {
          confirmed := false;
        }
        stage := Stopped;
      }
    }

    method FinishCollect()
      modifies this
      ensures State() == OnCollect(old(State()))
    {
      if stage == Stopped {
        if readerOpen || stderrOpen {
          confirmed := false;
          if readerOpen {
            queue := queue + [None];
          }
          readerOpen, stderrOpen := false, false;
        }
        stage := Collected;
      }
    }

    method BuildReport() returns (built: Report)
      ensures built == ReportOf(spec, Pipes(), Ending())
    {
      var last := if failure.Some? && (outcome == Exited || outcome == Completed) then ProtocolError else outcome;
      built := Report(
        code, if last == Exited && failure.None? && confirmed then reader.frames else [],
        reader.outBytes, errBytes,
        reader.outBytes > spec.limits.stdoutMax, errBytes > spec.stderrMax,
        if confirmed then last else StopUncertain, confirmed,
        rootCode.Some? && confirmed && last == Completed && code == rootCode);
    }

    /** Keeps the report and hands it to the lifecycle, if there is one. */
    method Announce(built: Report)
      modifies this`stage, this`outcome, this`report, this`receipts
      ensures Ending() == Reported(spec, old(Ending()), built)
    {
      if failure.Some? && (outcome == Exited || outcome == Completed) {
        outcome := ProtocolError;
      }
      report := Some(built);
      if spec.hasLifecycle {
        stage, receipts := Published, receipts + [built];
      } else {
        stage := Closed(true);
      }
    }

    method FinishPublish()
      modifies this`stage, this`outcome, this`report, this`queue, this`receipts
      ensures State() == OnPublish(spec, old(State()))
    {
      hide ReportOf, Reported;
      if stage == Collected {
        var built := BuildReport();
        Announce(built);
        queue := queue + [None];
      }
    }

    method FinishReceipt(kept: bool)
      modifies this`stage
      ensures Pipes() == old(Pipes()) && Ending() == OnReceipt(old(Ending()), kept)
    {
      if stage == Published {
        stage := Closed(kept);
      }
    }
  }

  /** One event, as the method that stands for it. */
  method Apply(session: ClientProcessSession, e: Event)
    modifies session
    ensures session.State() == Step(session.spec, old(session.State()), e)
  {
    hide OnBegin, OnStartFails, OnExitSeen, OnDrainEnds, OnStdout, OnStderr, OnSend, OnReceive, OnWaitClosed, OnRevoke,
      OnStop, OnCollect, OnPublish, OnReceipt, Settle;
    match e {
      case Begin => session.BeginSession();
      case StartFails(error) => session.AbandonStart(error);
      case ExitSeen(how) => session.WatchExit(how);
      case DrainEnds => session.EndDrain();
      case Stdout(read) => session.ReadStdout(read);
      case Stderr(bytes, fault) => session.ReadStderr(bytes, fault);
      case Send(how) => session.SendFrame(how);
      case Receive(how) => var item := session.ReceiveFrame(how);
      case Close(completed) => session.CloseSession(completed);
      case WaitClosed => session.AwaitClosed();
      case Revoke(sure) => session.FinishRevoke(sure);
      case Stop(gone, root, exitCode, fault) => session.FinishStop(gone, root, exitCode, fault);
      case Collect => session.FinishCollect();
      case Publish => session.FinishPublish();
      case Receipt(kept) => session.FinishReceipt(kept);
    }
  }

  /** A whole interleaving, driven through the object. */
  method Drive(spec: Spec, es: seq<Event>) returns (session: ClientProcessSession)
    ensures fresh(session) && session.spec == spec && session.State() == Run(spec, es)
  {
    hide Step;
    session := new ClientProcessSession(spec);
    for i := 0 to |es|
      invariant fresh(session) && session.spec == spec
      invariant session.State() == Run(spec, es[..i])
    {
      Apply(session, es[i]);
      assert es[..i + 1][..i] == es[..i];
    }
    assert es[..|es|] == es;
  }

  // ---- what every run keeps ----

  function FramesIn(queue: seq<Option<JObj>>): seq<JObj> {
    if queue == [] then []
    else FrameOf(queue[0]) + FramesIn(queue[1..])
  }

  function FrameOf(item: Option<JObj>): seq<JObj> {
    if item.Some? then [item.value] else []
  }

  lemma {:induction false} FramesInAppend(a: seq<Option<JObj>>, b: seq<Option<JObj>>)
    ensures FramesIn(a + b) == FramesIn(a) + FramesIn(b)
  {
    hide FrameOf;
    if a == [] {
      assert a + b == b;
    } else {
      assert (a + b)[1..] == a[1..] + b && (a + b)[0] == a[0];
      FramesInAppend(a[1..], b);
      assert FrameOf(a[0]) + (FramesIn(a[1..]) + FramesIn(b)) == FrameOf(a[0]) + FramesIn(a[1..]) + FramesIn(b);
    }
  }

  lemma {:induction false} FramesInItems(frames: seq<JObj>)
    ensures FramesIn(Items(frames)) == frames
  {
    if frames != [] {
      assert Items(frames)[1..] == Items(frames[1..]);
      FramesInItems(frames[1..]);
    }
  }

  /** Admitted frames are taken in order, each once; `unread` counts those still queued. */
  predicate QueueKept(io: Io) {
    && io.taken + FramesIn(io.queue) == io.reader.frames
    && io.unread == |FramesIn(io.queue)|
  }

  /** The reader is what the JSONL framing makes of the output so far. */
  predicate ReaderKept(spec: Spec, io: Io) {
    && io.reader == ReadAll(spec.limits, io.output)
    && (io.readerOpen ==> io.begun && io.reader.status == Reading)
    && (!io.begun ==> io.output == [] && !io.stderrOpen && io.exit == Unwatched)
    && forall k :: 0 <= k < |io.output| ==> ReadAll(spec.limits, io.output[..k]).status == Reading
  }

  predicate Finishing(d: End) {
    d.stage in {Collected, Published} || d.stage.Closed?
  }

  predicate EndKept(spec: Spec, d: End) {
    && d.finishRuns == (if d.settled.Some? then 1 else 0)
    && (d.stage == Open <==> d.settled.None?)
    && (d.report.Some? <==> d.stage == Published || d.stage.Closed?)
    && d.receipts == (if d.report.Some? && spec.hasLifecycle then [d.report.value] else [])
    && (d.stage !in {Open, Scheduled} && d.confirmed ==> d.outcome != StopUncertain)
    && (d.report.Some? ==>
          && d.report.value.stopConfirmed == d.confirmed
          && (d.confirmed <==> d.report.value.outcome != StopUncertain)
          && (d.report.value.outcome != Exited ==> d.report.value.frames == []))
  }

  /** The owner gets what is taken until a failure is recorded. */
  predicate DeliveryKept(io: Io, d: End) {
    io.delivered <= io.taken && (d.failure.None? ==> io.delivered == io.taken)
  }

  /** How the pipes and the settlement constrain each other. */
  predicate Linked(io: Io, d: End) {
    && DeliveryKept(io, d)
    && (io.reader.status.Failed? ==> d.failure.Some?)
    && (Finishing(d) ==> !io.readerOpen && !io.stderrOpen)
    && (io.begun && !io.readerOpen && io.reader.status == Reading ==> Finishing(d) && !d.confirmed)
    && (d.report.Some? && d.report.value.outcome == Exited ==>
          d.report.value.frames == io.reader.frames && (io.begun ==> io.reader.status == Ended))
  }

  predicate Kept(spec: Spec, s: Session) {
    QueueKept(s.io) && ReaderKept(spec, s.io) && EndKept(spec, s.end) && Linked(s.io, s.end)
  }

  lemma ReaderOnlyGrows(limits: Limits, r: Reader, read: Read)
    ensures r.frames <= ReadStep(limits, r, read).frames
  {
  }

  lemma ReadKeepsQueue(io: Io, r: Reader, read: Read)
    requires QueueKept(io) && io.reader.frames <= r.frames
    ensures QueueKept(AfterRead(io, r, read))
  {
    hide FramesIn;
    var news := News(io.reader, r);
    FramesInAppend(io.queue, Items(news));
    FramesInItems(news);
    EndOfQueue(io.queue + Items(news));
    assert io.taken + (FramesIn(io.queue) + news) == (io.taken + FramesIn(io.queue)) + news;
    assert io.reader.frames + news == r.frames;
  }

  lemma EndOfQueue(queue: seq<Option<JObj>>)
    ensures FramesIn(queue + [None]) == FramesIn(queue)
  {
    FramesInAppend(queue, [None]);
    assert FramesIn([None]) == [];
  }

  lemma ReadKeepsReader(spec: Spec, io: Io, read: Read)
    requires ReaderKept(spec, io) && io.readerOpen
    ensures ReaderKept(spec, AfterRead(io, ReadStep(spec.limits, io.reader, read), read))
  {
    hide ReadStep;
    var log := io.output + [read];
    assert log[..|log| - 1] == io.output;
    assert forall k :: 0 <= k < |io.output| ==> log[..k] == io.output[..k];
  }

  lemma StdoutKeeps(spec: Spec, s: Session, read: Read)
    requires Kept(spec, s)
    ensures Kept(spec, OnStdout(spec, s, read))
  {
    hide ReadStep, QueueKept, ReaderKept;
    if s.io.readerOpen {
      ReaderIsReading(spec, s.io);
      ReaderOnlyGrows(spec.limits, s.io.reader, read);
      ReadKeepsQueue(s.io, ReadStep(spec.limits, s.io.reader, read), read);
      ReadKeepsReader(spec, s.io, read);
    }
  }

  lemma ReaderIsReading(spec: Spec, io: Io)
    requires ReaderKept(spec, io) && io.readerOpen
    ensures io.reader.status == Reading
  {
  }

  lemma ReceiveKeeps(spec: Spec, s: Session, how: IoEnd)
    requires Kept(spec, s)
    ensures Kept(spec, OnReceive(s, how))
  {
    hide ReaderKept, QueueKept, FramesIn, AfterGet, DeliveryKept;
    if s.io.queue != [] {
      GetKeepsPipes(spec, s.io, s.end.failure.None?);
    }
    ReceiveKeepsDelivery(s, how);
  }

  lemma GetKeepsQueue(io: Io, handed: bool)
    requires QueueKept(io) && io.queue != []
    ensures QueueKept(AfterGet(io, handed))
  {
    hide FrameOf;
    var head, rest := io.queue[0], io.queue[1..];
    FrameOfIs(head);
    assert io.taken + (FrameOf(head) + FramesIn(rest)) == io.taken + FrameOf(head) + FramesIn(rest);
    assert head.None? ==> io.taken + FrameOf(head) == io.taken;
  }

  lemma FrameOfIs(item: Option<JObj>)
    ensures FrameOf(item) == if item.Some? then [item.value] else []
  {
  }

  lemma GetKeepsReader(spec: Spec, io: Io, handed: bool)
    requires ReaderKept(spec, io) && io.queue != []
    ensures var t := AfterGet(io, handed);
      && ReaderKept(spec, t)
      && t.reader == io.reader && t.readerOpen == io.readerOpen && t.stderrOpen == io.stderrOpen && t.begun == io.begun
  {
    hide ReadAll;
  }

  lemma GetKeepsPipes(spec: Spec, io: Io, handed: bool)
    requires QueueKept(io) && ReaderKept(spec, io) && io.queue != []
    ensures var t := AfterGet(io, handed);
      && QueueKept(t) && ReaderKept(spec, t)
      && t.reader == io.reader && t.readerOpen == io.readerOpen && t.stderrOpen == io.stderrOpen && t.begun == io.begun
  {
    hide QueueKept, ReaderKept, AfterGet;
    GetKeepsQueue(io, handed);
    GetKeepsReader(spec, io, handed);
  }

  lemma ReceiveKeepsDelivery(s: Session, how: IoEnd)
    requires DeliveryKept(s.io, s.end)
    ensures DeliveryKept(OnReceive(s, how).io, OnReceive(s, how).end)
  {
  }

  lemma FinishKeeps(spec: Spec, s: Session)
    requires Kept(spec, s)
    ensures Kept(spec, OnCollect(s)) && Kept(spec, OnPublish(spec, s))
  {
    hide ReadAll, FramesIn;
    EndOfQueue(s.io.queue);
  }

  lemma StepKeeps(spec: Spec, s: Session, e: Event)
    requires Kept(spec, s)
    ensures Kept(spec, Step(spec, s, e))
  {
    hide ReadAll, FramesIn, OnStdout, OnReceive, OnCollect, OnPublish, OnStop, OnRevoke, OnReceipt, Settle, OnExitSeen,
      OnDrainEnds, OnStderr, OnStartFails, OnWaitClosed, OnSend;
    match e {
      case Stdout(read) => StdoutKeeps(spec, s, read);
      case Receive(how) => ReceiveKeeps(spec, s, how);
      case Collect => FinishKeeps(spec, s);
      case Publish => FinishKeeps(spec, s);
      case Begin => NotBegunIsIdle(spec, s.io);
      case Close(_) => EndStepKeeps(spec, s, e);
      case Send(_) => EndStepKeeps(spec, s, e);
      case Revoke(_) => EndStepKeeps(spec, s, e);
      case Stop(_, _, _, _) => EndStepKeeps(spec, s, e);
      case Receipt(_) => EndStepKeeps(spec, s, e);
      case Stderr(_, _) => StderrKeeps(spec, s, e);
      case StartFails(_) => EndStepKeeps(spec, s, e);
      case WaitClosed => EndStepKeeps(spec, s, e);
      case _ => PipeStepKeeps(spec, s, e);
    }
  }

  /** Events that leave the pipes alone. */
  lemma EndStepKeeps(spec: Spec, s: Session, e: Event)
    requires Kept(spec, s) && (e.StartFails? || e.WaitClosed? || e.Close? || e.Send? || e.Revoke? || e.Stop? || e.Receipt?)
    ensures Kept(spec, Step(spec, s, e))
  {
    hide QueueKept, ReaderKept;
  }

  lemma StderrKeeps(spec: Spec, s: Session, e: Event)
    requires Kept(spec, s) && e.Stderr?
    ensures Kept(spec, Step(spec, s, e))
  {
    hide ReadAll, FramesIn;
  }

  lemma PipeStepKeeps(spec: Spec, s: Session, e: Event)
    requires Kept(spec, s) && (e.ExitSeen? || e.DrainEnds?)
    ensures Kept(spec, Step(spec, s, e))
  {
    hide ReadAll, FramesIn;
  }

  lemma NotBegunIsIdle(spec: Spec, io: Io)
    requires ReaderKept(spec, io)
    ensures !io.begun ==> io.reader == IDLE
  {
  }

  lemma {:induction false} RunKeeps(spec: Spec, es: seq<Event>)
    ensures Kept(spec, Run(spec, es))
  {
    hide Step, Kept;
    if es == [] {
      NewIsKept(spec);
    } else {
      RunKeeps(spec, es[..|es| - 1]);
      StepKeeps(spec, Run(spec, es[..|es| - 1]), es[|es| - 1]);
    }
  }

  lemma NewIsKept(spec: Spec)
    ensures Kept(spec, NEW)
  {
  }

  // ---- the main results ----

  /** In every run the finishing task starts once, on the first outcome, and reports its result at most once. */
  lemma SettlesOnce(spec: Spec, es: seq<Event>)
    ensures var d := Run(spec, es).end;
      && d.finishRuns == (if d.settled.Some? then 1 else 0)
      && d.receipts == (if d.report.Some? && spec.hasLifecycle then [d.report.value] else [])
  {
    hide Run;
    RunKeeps(spec, es);
  }

  /** A confirmed stop is exactly an outcome other than an uncertain stop. */
  lemma ConfirmedIffNotUncertain(spec: Spec, es: seq<Event>)
    requires Run(spec, es).end.report.Some?
    ensures var r := Run(spec, es).end.report.value; r.stopConfirmed <==> r.outcome != StopUncertain
  {
    hide Run;
    RunKeeps(spec, es);
  }

  lemma StepKeepsDecisions(spec: Spec, s: Session, e: Event)
    requires EndKept(spec, s.end)
    ensures s.end.settled.Some? ==> Step(spec, s, e).end.settled == s.end.settled
    ensures s.end.report.Some? ==> Step(spec, s, e).end.report == s.end.report
  {
    hide ReadStep;
  }

  /** Neither the first outcome nor the report ever changes again, whatever still happens. */
  lemma {:induction false} DecisionsStand(spec: Spec, es: seq<Event>, n: nat)
    requires n <= |es|
    ensures var early, late := Run(spec, es[..n]).end, Run(spec, es).end;
      && (early.settled.Some? ==> late.settled == early.settled)
      && (early.report.Some? ==> late.report == early.report)
    decreases |es|
  {
    hide Step, EndKept;
    if n < |es| {
      var front := es[..|es| - 1];
      DecisionsStand(spec, front, n);
      assert front[..n] == es[..n];
      RunKeeps(spec, front);
      StepKeepsDecisions(spec, Run(spec, front), es[|es| - 1]);
    } else {
      assert es[..n] == es;
    }
  }

  /**
   Frames are taken in admission order, each at most once, and none is lost from the queue. What the owner
   gets leads what is taken, and is all of it while no failure is recorded.
   */
  lemma FramesAreDeliveredInOrder(spec: Spec, es: seq<Event>)
    ensures var s := Run(spec, es);
      && s.io.taken + FramesIn(s.io.queue) == s.io.reader.frames
      && s.io.unread == |s.io.reader.frames| - |s.io.taken|
      && s.io.delivered <= s.io.taken
      && (s.end.failure.None? ==> s.io.delivered == s.io.taken)
  {
    hide Run;
    RunKeeps(spec, es);
  }

  lemma StepDelivers(spec: Spec, s: Session, e: Event)
    ensures var t := Step(spec, s, e);
      && s.io.delivered <= t.io.delivered
      && (s.end.failure.Some? ==> t.end.failure.Some? && t.io.delivered == s.io.delivered)
  {
    hide ReadStep;
  }

  /** What was delivered stays delivered, and once a failure is recorded the owner gets no further frame. */
  lemma {:induction false} DeliveryStops(spec: Spec, es: seq<Event>, n: nat)
    requires n <= |es|
    ensures var early, late := Run(spec, es[..n]), Run(spec, es);
      && early.io.delivered <= late.io.delivered
      && (early.end.failure.Some? ==> late.end.failure.Some? && late.io.delivered == early.io.delivered)
    decreases |es|
  {
    hide Step;
    if n < |es| {
      var front := es[..|es| - 1];
      DeliveryStops(spec, front, n);
      assert front[..n] == es[..n];
      StepDelivers(spec, Run(spec, front), es[|es| - 1]);
    } else {
      assert es[..n] == es;
    }
  }

  /** A log on which the reader ended is its chunks and then the empty read. */
  lemma EndedLog(spec: Spec, io: Io) returns (chunks: seq<seq<byte>>)
    requires ReaderKept(spec, io) && io.reader.status == Ended
    ensures io.output == Reads(chunks) + [Chunk([])] && forall c :: c in chunks ==> c != []
  {
    hide ReadAll;
    var n := |io.output| - 1;
    LogShape(spec.limits, io.output);
    chunks := seq(n, i requires 0 <= i < n => io.output[i].bytes);
    assert io.output == Reads(chunks) + [Chunk([])];
  }

  lemma LogShape(limits: Limits, log: seq<Read>)
    requires ReadAll(limits, log).status == Ended
    requires forall k :: 0 <= k < |log| ==> ReadAll(limits, log[..k]).status == Reading
    ensures |log| > 0 && log[|log| - 1] == Chunk([])
    ensures forall k :: 0 <= k < |log| - 1 ==> log[k].Chunk? && log[k].bytes != []
  {
    forall k | 0 <= k < |log| - 1 ensures log[k].Chunk? && log[k].bytes != [] {
      assert log[..k + 1][..k] == log[..k];
      assert ReadAll(limits, log[..k + 1]).status == Reading;
    }
  }

  /**
   A report shows frames only for a confirmed exit, and then it shows the client's whole output: the
   bytes read form one accepted stream and the frames are its decoded lines, one for each.
   */
  lemma ExposedFramesAreTheWholeStream(spec: Spec, es: seq<Event>) returns (chunks: seq<seq<byte>>)
    requires Run(spec, es).end.report.Some?
    ensures var r := Run(spec, es).end.report.value;
      && (r.frames != [] ==> r.outcome == Exited && r.stopConfirmed)
      && (r.outcome == Exited && Run(spec, es).io.begun ==>
            && Run(spec, es).io.output == Reads(chunks) + [Chunk([])]
            && Accepts(spec.limits, Stream(chunks))
            && |r.frames| == |Lines(Stream(chunks))|
            && forall i :: 0 <= i < |r.frames| ==> Some(r.frames[i]) == spec.limits.decode(Lines(Stream(chunks))[i]))
  {
    hide Run, Accepts, Stream, Lines, ReadAll, FramesIn;
    chunks := [];
    RunKeeps(spec, es);
    var s := Run(spec, es);
    if s.end.report.value.outcome == Exited && s.io.begun {
      chunks := EndedLog(spec, s.io);
      FramingIgnoresChunks(spec.limits, chunks);
    }
  }

  // ---- the finishing task gets to its end ----

  /** How far a stage is, from open to closed. */
  function Rank(stage: Stage): nat {
    match stage
    case Open => 0
    case Scheduled => 1
    case Revoked => 2
    case Stopped => 3
    case Collected => 4
    case Published => 5
    case Closed(_) => 6
  }

  /** The stage a stretch of the finishing task picks up; other events belong to no stage. */
  function Serves(e: Event): Option<nat> {
    match e
    case Revoke(_) => Some(1)
    case Stop(_, _, _, _) => Some(2)
    case Collect => Some(3)
    case Publish => Some(4)
    case Receipt(_) => Some(5)
    case _ => None
  }

  /** No event takes the task back, and the stretch of its present stage takes it on. */
  lemma StageAdvances(spec: Spec, s: Session, e: Event)
    requires EndKept(spec, s.end)
    ensures var t := Step(spec, s, e);
      && Rank(t.end.stage) >= Rank(s.end.stage)
      && (Serves(e) == Some(Rank(s.end.stage)) ==> Rank(t.end.stage) > Rank(s.end.stage))
  {
    hide ReadStep, AfterRead, AfterGet, ReportOf;
  }

  lemma {:induction false} StageNeverFalls(spec: Spec, es: seq<Event>, n: nat)
    requires n <= |es|
    ensures Rank(Run(spec, es[..n]).end.stage) <= Rank(Run(spec, es).end.stage)
    decreases |es|
  {
    hide Step, Rank, EndKept;
    if n < |es| {
      var front := es[..|es| - 1];
      StageNeverFalls(spec, front, n);
      assert front[..n] == es[..n];
      RunKeeps(spec, front);
      StageAdvances(spec, Run(spec, front), es[|es| - 1]);
    } else {
      assert es[..n] == es;
    }
  }

  /** Behind the stretch of a stage the task is past that stage, if it had reached it. */
  lemma PastStage(spec: Spec, es: seq<Event>, k: nat, rank: nat)
    requires k < |es| && Serves(es[k]) == Some(rank) && Rank(Run(spec, es[..k]).end.stage) >= rank
    ensures Rank(Run(spec, es[..k + 1]).end.stage) > rank
  {
    hide Step, EndKept;
    assert es[..k + 1][..k] == es[..k];
    RunKeeps(spec, es[..k]);
    StageAdvances(spec, Run(spec, es[..k]), es[k]);
  }

  lemma ReachedBy(spec: Spec, es: seq<Event>, k: nat, l: nat, rank: nat)
    requires k <= l <= |es| && Rank(Run(spec, es[..k]).end.stage) >= rank
    ensures Rank(Run(spec, es[..l]).end.stage) >= rank
  {
    hide Run, Rank;
    assert es[..l][..k] == es[..k];
    StageNeverFalls(spec, es[..l], k);
  }

  /** From one stretch of the task to just behind the next. */
  lemma NextStretch(spec: Spec, es: seq<Event>, k: nat, l: nat, rank: nat)
    requires k <= l < |es| && Serves(es[l]) == Some(rank) && Rank(Run(spec, es[..k]).end.stage) >= rank
    ensures Rank(Run(spec, es[..l + 1]).end.stage) >= rank + 1
  {
    hide Run, Rank, Serves;
    ReachedBy(spec, es, k, l, rank);
    PastStage(spec, es, l, rank);
  }

  lemma SettledIsScheduled(spec: Spec, es: seq<Event>)
    requires Run(spec, es).end.settled.Some?
    ensures Rank(Run(spec, es).end.stage) >= 1
  {
    hide Run, QueueKept, ReaderKept, Linked;
    RunKeeps(spec, es);
  }

  lemma LastRankIsClosed(spec: Spec, es: seq<Event>)
    requires Rank(Run(spec, es).end.stage) >= 6
    ensures Run(spec, es).end.stage.Closed? && Run(spec, es).end.report.Some?
  {
    hide Run, QueueKept, ReaderKept, Linked;
    RunKeeps(spec, es);
  }

  /** The run holds the five stretches of the finishing task at these places, in their order. */
  ghost predicate HoldsStretches(es: seq<Event>, start: nat, at: seq<nat>) {
    && |at| == 5 && start <= at[0] < at[1] < at[2] < at[3] < at[4] < |es|
    && forall i :: 0 <= i < 5 ==> Serves(es[at[i]]) == Some(i + 1)
  }

  lemma {:induction false} StretchesDone(spec: Spec, es: seq<Event>, start: nat, at: seq<nat>, n: nat)
    requires HoldsStretches(es, start, at) && n < 5 && Rank(Run(spec, es[..start]).end.stage) >= 1
    ensures Rank(Run(spec, es[..at[n] + 1]).end.stage) >= n + 2
  {
    hide Run, Serves, Rank;
    if n == 0 {
      NextStretch(spec, es, start, at[0], 1);
    } else {
      StretchesDone(spec, es, start, at, n - 1);
      NextStretch(spec, es, at[n - 1] + 1, at[n], n + 1);
    }
  }

  /**
   Once something has settled, a run that holds the five stretches of the finishing task in their order,
   with anything whatever before, between and after them, ends closed with a report.
   */
  lemma SettlementCompletes(spec: Spec, es: seq<Event>, start: nat, at: seq<nat>)
    requires HoldsStretches(es, start, at) && Run(spec, es[..start]).end.settled.Some?
    ensures Run(spec, es).end.stage.Closed? && Run(spec, es).end.report.Some?
  {
    hide Run, Serves, Rank;
    SettledIsScheduled(spec, es[..start]);
    StretchesDone(spec, es, start, at, 4);
    assert es[..|es|] == es;
    ReachedBy(spec, es, at[4] + 1, |es|, 6);
    LastRankIsClosed(spec, es);
  }

  /** What an event finds that keeps the stop from being confirmed. */
  predicate Unsure(s: Session, e: Event) {
    match e
    case Revoke(sure) => s.end.stage == Scheduled && (!sure || s.end.outcome == StopUncertain)
    case Stop(_, _, _, fault) => s.end.stage == Revoked && fault
    case Collect => s.end.stage == Stopped && (s.io.readerOpen || s.io.stderrOpen)
    case _ => false
  }

  predicate UnsureAt(spec: Spec, es: seq<Event>, k: nat) {
    k < |es| && Unsure(Run(spec, es[..k]), es[k])
  }

  lemma UnsureInFront(spec: Spec, es: seq<Event>, n: nat, k: nat)
    requires k < n <= |es|
    ensures UnsureAt(spec, es[..n], k) <==> UnsureAt(spec, es, k)
  {
    hide Run, Unsure;
    assert es[..n][..k] == es[..k];
  }

  lemma StepConfirms(spec: Spec, s: Session, e: Event)
    ensures var d := Step(spec, s, e).end;
      Rank(d.stage) >= 2 ==>
        (d.confirmed <==> (Rank(s.end.stage) >= 2 ==> s.end.confirmed) && !Unsure(s, e))
  {
    hide ReadStep, AfterRead, AfterGet, ReportOf;
  }

  lemma {:induction false} ConfirmedUnless(spec: Spec, es: seq<Event>)
    ensures var d := Run(spec, es).end;
      && (Rank(d.stage) >= 2 ==> (d.confirmed <==> forall k: nat :: !UnsureAt(spec, es, k)))
      && (Rank(d.stage) < 2 ==> forall k: nat :: !UnsureAt(spec, es, k))
  {
    hide Step, Unsure, Rank, EndKept;
    if es == [] {
      NothingDone();
    } else {
      var n := |es| - 1;
      var front := es[..n];
      ConfirmedUnless(spec, front);
      RunKeeps(spec, front);
      StepConfirms(spec, Run(spec, front), es[n]);
      StageAdvances(spec, Run(spec, front), es[n]);
      if Unsure(Run(spec, front), es[n]) { UnsureAdvances(spec, Run(spec, front), es[n]); }
      assert UnsureAt(spec, es, n) <==> Unsure(Run(spec, front), es[n]);
      if k: nat :| UnsureAt(spec, front, k) { UnsureInFront(spec, es, n, k); }
      if k: nat :| UnsureAt(spec, es, k) && k < n { UnsureInFront(spec, es, n, k); }
    }
  }

  lemma NothingDone()
    ensures Rank(NEW.end.stage) == 0
  {
  }

  lemma UnsureAdvances(spec: Spec, s: Session, e: Event)
    requires Unsure(s, e)
    ensures Rank(Step(spec, s, e).end.stage) >= 2
  {
  }

  /**
   A reported stop is unconfirmed exactly when the revocation failed or the outcome was already uncertain,
   the stop itself failed, or a reader was still open when the frames were collected.
   */
  lemma ConfirmedIffNothingUnsure(spec: Spec, es: seq<Event>)
    requires Run(spec, es).end.report.Some?
    ensures Run(spec, es).end.report.value.stopConfirmed <==> forall k: nat :: !UnsureAt(spec, es, k)
  {
    hide Run, QueueKept, ReaderKept, Linked, UnsureAt;
    RunKeeps(spec, es);
    ConfirmedUnless(spec, es);
  }
}
