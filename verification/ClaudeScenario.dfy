/**
 Two concrete attempts with the three-step handshake, the settings and one served call: one whose allowance is
 then spent and whose close is cancelled, and one that decides.
 */
module ClaudeScenario {
  import opened Prelude
  import opened CallKey
  import opened ClaudeCodec
  import opened ClaudeExchange
  import Q = ClaudeQuota
  import Usage = ClaudeUsage
  import O = ClaudeOutcome
  import S = ClientSettlement
  import opened ClaudeEndings
  import opened ClaudeReports

  const THREAD: string := "thread"
  const TOOL: string := "repo.read_file"

  function Installation(digest: string -> string): Setup {
    Setup(Wiring(THREAD, "turn", {TOOL}, digest), true, Budget(1, 0, None, None), false,
          Q.Reader({"five_hour"}, (v: Json, now: int) => None,
                   (status: Option<int>, errors: Json, text: Json, now: int) => Q.Diagnosis(Q.Outage, false, None)),
          (name: string) => {"path"}, (name: string) => {"path"},
          (settings: JObj) => true, (frame: JObj) => true, (decision: Json) => Decision(decision))
  }

  // ---- the frames ----

  const TEXT: JObj := map["text" := Str("hello")]

  function Received(frame: JObj): Input {
    Frame(frame, true, 100, 100, Receipt(TEXT), None)
  }

  function Response(id: string): JObj {
    ResponseFrame(id, "success", Obj(map[]))
  }

  const HELLO: JObj := InitializeMessage(Int(0), "2025-06-18")
  const READY: JObj := INITIALIZED_MESSAGE
  const LISTING: JObj := ListMessage(Int(1))
  const ARGUMENTS: JObj := map["path" := Str("README")]
  const PARAMS: JObj := CallParams(TOOL, ARGUMENTS, "toolu_1", Int(2))
  const CALLING: JObj := CallMessage(Int(2), PARAMS)
  const INIT: JObj := map["type" := Str("system"), "subtype" := Str("init")]
  const SPENT: JObj := map["type" := Str("rate_limit_event"), "session_id" := Str(THREAD), "uuid" := Str("u"),
                           "rate_limit_info" := Obj(map["status" := Str("rejected"), "rateLimitType" := Str("five_hour")])]

  const LENGTH: nat := 9

  /** What is received, in order. */
  function Line(k: nat): Input {
    match k
    case 0 => Received(McpRequest("1", HELLO))
    case 1 => Received(McpRequest("2", READY))
    case 2 => Received(McpRequest("3", LISTING))
    case 3 => Received(Response("forge_initialize"))
    case 4 => Received(Response("forge_settings"))
    case 5 => Received(INIT)
    case 6 => Received(McpRequest("4", CALLING))
    case 7 => Received(SPENT)
    case _ => Eof
  }

  function Script(): (script: seq<Input>)
    ensures |script| == LENGTH && forall k :: 0 <= k < LENGTH ==> script[k] == Line(k)
  {
    seq(LENGTH, (k: nat) => Line(k))
  }

  // ---- the states they lead through ----

  /** The three handshake requests have been answered. */
  const SHAKEN := IDLE.(requests := {"1", "2", "3"}, initialized := true, notified := true, listed := true)

  function ServedCall(digest: string -> string): Call {
    Call(digest(Preimage(Dumps(Int(2)), "toolu_1")), THREAD, "turn", TOOL, ARGUMENTS)
  }

  /** After the call: it is recorded, dispatched once and answered. */
  function Served(digest: string -> string): Attempt {
    var call := ServedCall(digest);
    Attempt(
      Open,
      SHAKEN.(requests := {"1", "2", "3", "4"},
              tables := Record(IDLE.tables, Dumps(Int(2)), call.key, Fingerprint(TOOL, ARGUMENTS, "toolu_1"))),
      Desk(true, map[call.key := (call, TEXT)], 1, 0, [call], [(call, TEXT)]),
      Q.UNSEEN, Usage.FRESH, [SettingsMatched, TurnSent, Admitted, HandlerReached])
  }

  /** A handshake message that is answered moves the greeting on by one frame. */
  lemma Greets(x: Setup, s: Attempt, id: string, message: JObj, codec: Codec, reply: Reply)
    requires s.phase.Greeting? && s.phase.frames + 1 < 64 && id != "" && IsHandshakeMessage(message) && !reply.Serve?
    requires Receive(x.wiring, s.codec, Some(McpRequest(id, message))) == (codec, Answer(id, reply))
    ensures Step(x, s, Received(McpRequest(id, message))) == s.(phase := Greeting(s.phase.frames + 1), codec := codec)
  {
    hide Receive, IsHandshakeMessage, Step;
    HandshakeGoesOn(x, s, Received(McpRequest(id, message)), id, message, codec, reply);
  }

  const GREETED := START.(phase := Greeting(1), codec := IDLE.(requests := {"1"}, initialized := true))
  const NOTED := GREETED.(phase := Greeting(2), codec := GREETED.codec.(requests := {"1", "2"}, notified := true))

  lemma Hello(x: Setup)
    ensures Step(x, START, Received(McpRequest("1", HELLO))) == GREETED
  {
    hide Step, Receive;
    assert IDLE.requests + {"1"} == {"1"};
    HandshakeIsAnsweredIff(x.wiring, IDLE, "1", Int(0), "2025-06-18");
    Greets(x, START, "1", HELLO, GREETED.codec, Initialized(Int(0), "2025-06-18"));
  }

  lemma Ready(x: Setup)
    ensures Step(x, GREETED, Received(McpRequest("2", READY))) == NOTED
  {
    hide Step, Receive;
    assert {"1"} + {"2"} == {"1", "2"};
    HandshakeIsAnsweredIff(x.wiring, GREETED.codec, "2", Int(0), "");
    Greets(x, GREETED, "2", READY, NOTED.codec, Notified);
  }

  lemma Listing(x: Setup)
    ensures Step(x, NOTED, Received(McpRequest("3", LISTING))) == START.(phase := Greeting(3), codec := SHAKEN)
  {
    hide Step, Receive;
    assert {"1", "2"} + {"3"} == {"1", "2", "3"};
    HandshakeIsAnsweredIff(x.wiring, NOTED.codec, "3", Int(1), "");
    Greets(x, NOTED, "3", LISTING, SHAKEN, Listed(Int(1)));
  }

  const TURNED := START.(phase := Open, codec := SHAKEN, marks := [SettingsMatched, TurnSent])
  const WORKING := TURNED.(desk := CLOSED.(initialized := true), marks := [SettingsMatched, TurnSent, Admitted])

  lemma Configures(digest: string -> string)
    ensures Step(Installation(digest), Scene(digest, 3), Received(Response("forge_initialize"))) == Scene(digest, 4)
  {
    hide Step, ResponseFrame;
    GreetingEnds(Installation(digest), Scene(digest, 3), Received(Response("forge_initialize")), "success", Obj(map[]));
  }

  lemma Matches(digest: string -> string)
    ensures Step(Installation(digest), Scene(digest, 4), Received(Response("forge_settings"))) == TURNED
  {
    hide ResponseTo, Relay, IsInit, ResponseFrame;
    ResponseIsRead("forge_settings", "success", Obj(map[]));
  }

  lemma Admits(digest: string -> string)
    ensures Step(Installation(digest), TURNED, Received(INIT)) == WORKING
  {
    assert McpMessage(INIT).None?;
  }

  lemma CallIsTaken(digest: string -> string)
    ensures CallTool(Installation(digest).wiring, SHAKEN.(requests := {"1", "2", "3", "4"}), Int(2), PARAMS)
            == (Served(digest).codec, Some(Serve(Int(2), ServedCall(digest))))
  {
    hide Requested, Dumps, Preimage;
    CallIsRead(Installation(digest).wiring, TOOL, ARGUMENTS, "toolu_1", Int(2));
  }

  /** The codec serves the call and records it. */
  lemma CallIsServed(digest: string -> string)
    ensures Receive(Installation(digest).wiring, SHAKEN, Some(McpRequest("4", CALLING)))
            == (Served(digest).codec, Answer("4", Serve(Int(2), ServedCall(digest))))
  {
    hide CallTool, Served, ServedCall, Receive, Mcp, Installation, McpRequest;
    CallIsTaken(digest);
    assert SHAKEN.requests + {"4"} == {"1", "2", "3", "4"};
    CallIsCall(Installation(digest).wiring, SHAKEN.(requests := {"1", "2", "3", "4"}), Int(2), PARAMS);
    RequestReachesMcp(Installation(digest).wiring, SHAKEN, "4", CALLING);
  }

  lemma CallFits(digest: string -> string)
    ensures var x, call := Installation(digest), ServedCall(digest);
      && ArgumentsFit(x, call) && !Exhausted(x.budget, WORKING.desk, TOOL) && IsCheck(TOOL) == 0
      && !Unadmitted(x, WORKING.desk, false, call)
  {
    assert ARGUMENTS.Keys == {"path"};
    assert TOOL[0] != NAMED_CHECK[0];
  }

  lemma CallIsHandled(digest: string -> string)
    ensures Handle(Installation(digest), WORKING.desk, false, ServedCall(digest), Receipt(TEXT))
            == (Served(digest).desk, Ok(TEXT))
  {
    hide Preimage, Dumps, ArgumentsFit, Exhausted, Unadmitted, IsCheck, Installation;
    var x, call := Installation(digest), ServedCall(digest);
    CallFits(digest);
    assert Handle(x, WORKING.desk, false, call, Receipt(TEXT)) == Dispatch(WORKING.desk, call, Receipt(TEXT));
    var d := Dispatch(WORKING.desk, call, Receipt(TEXT)).0;
    assert d.dispatched == [call] && d.returned == [(call, TEXT)];
    assert d.admitted == map[call.key := (call, TEXT)];
  }

  lemma CallIsDelivered(digest: string -> string)
    ensures Deliver(Installation(digest), WORKING, Received(McpRequest("4", CALLING))) == (Served(digest), Replied)
  {
    hide Receive, Handle, McpRequest, ServedCall, Installation, Record;
    var x, i, t := Installation(digest), Received(McpRequest("4", CALLING)), WORKING.(codec := Served(digest).codec);
    CallIsServed(digest);
    assert Receive(x.wiring, WORKING.codec, Some(i.frame)) == (t.codec, Answer("4", Serve(Int(2), ServedCall(digest))));
    CallIsHandled(digest);
    assert Handle(x, t.desk, t.quota.quota.Some?, ServedCall(digest), i.broker) == (Served(digest).desk, Ok(TEXT));
    assert Deliver(x, WORKING, i) == (Note(t.(desk := Served(digest).desk), HandlerReached), Replied);
    assert [SettingsMatched, TurnSent, Admitted] + [HandlerReached] == [SettingsMatched, TurnSent, Admitted, HandlerReached];
  }

  /** A frame that is no notice, no assistant report and no terminal changes neither evidence nor meter. */
  lemma RequestIsSilent(x: Setup, s: Attempt, i: Input)
    requires i.Frame? && i.sendFault.None? && Get(i.frame, "type") == Str("control_request")
    requires s.codec.terminal.None? && s.usage == Usage.FRESH
    ensures Account(x, s, i, true) == s && !IsInit(i.frame)
  {
    assert Q.Notification(x.reader, s.quota, i.frame, i.now) == Some(s.quota);
    assert Evidence(x, s, i) == (s.quota, Some(None));
    assert Usage.AssistantStep(s.usage, i.frame, x.wiring.thread) == (s.usage, Usage.Ignored);
    assert !OverBudget(x.budget, s.usage);
  }

  lemma TypeOfRequest(id: string, message: JObj)
    ensures Get(McpRequest(id, message), "type") == Str("control_request")
  {
  }

  /** The handler dispatches the call once, and its receipt goes back. */
  lemma DispatchesOnce(digest: string -> string)
    ensures Step(Installation(digest), WORKING, Received(McpRequest("4", CALLING))) == Served(digest)
  {
    hide Receive, Deliver, Account, McpRequest, Preimage, Dumps, Record;
    CallIsDelivered(digest);
    TypeOfRequest("4", CALLING);
    RequestIsSilent(Installation(digest), Served(digest), Received(McpRequest("4", CALLING)));
  }

  lemma NoticeIsTaken(digest: string -> string, s: Codec)
    requires s.terminal.None?
    ensures var w := Installation(digest).wiring; Receive(w, s, Some(SPENT)) == (s, Quiet) && !IsInit(SPENT)
  {
    assert SPENT.Keys == {"type", "session_id", "uuid", "rate_limit_info"};
  }

  lemma NoticeIsEvidence(digest: string -> string)
    ensures Q.Notification(Installation(digest).reader, Q.UNSEEN, SPENT, 100) == Some(EVIDENCE)
  {
    var info := SPENT["rate_limit_info"].fields;
    assert Get(info, "rateLimitType") == Str("five_hour") && Get(info, "status") == Str("rejected");
    assert Q.Rejects(Installation(digest).reader, info);
    assert Installation(digest).reader.resetOf(Get(info, "resetsAt"), 100) == None;
  }

  lemma NoticeIsNoReport()
    ensures Usage.AssistantStep(Usage.FRESH, SPENT, THREAD) == (Usage.FRESH, Usage.Ignored)
  {
    assert Get(SPENT, "type") == Str("rate_limit_event");
  }

  lemma Spends(digest: string -> string)
    ensures Step(Installation(digest), Served(digest), Received(SPENT)) == Served(digest).(quota := EVIDENCE)
  {
    hide Record, Dumps, Preimage, Receive, Q.Notification, Usage.AssistantStep;
    NoticeIsTaken(digest, Served(digest).codec);
    NoticeIsEvidence(digest);
    NoticeIsNoReport();
  }

  // ---- the whole script ----

  const EVIDENCE := Q.Evidence(Some(Q.Quota(100, None)), None)

  /** The state before line `k`; the last one holds one answered call, the evidence and a protocol fault. */
  function Scene(digest: string -> string, k: nat): Attempt {
    match k
    case 0 => START
    case 1 => GREETED
    case 2 => NOTED
    case 3 => START.(phase := Greeting(3), codec := SHAKEN)
    case 4 => START.(phase := Configuring(0, None), codec := SHAKEN)
    case 5 => TURNED
    case 6 => WORKING
    case 7 => Served(digest)
    case 8 => Served(digest).(quota := EVIDENCE)
    case _ => Served(digest).(quota := EVIDENCE, phase := Ended(Raised(Protocol)))
  }

  lemma Follows(digest: string -> string, k: nat)
    requires k < LENGTH
    ensures Step(Installation(digest), Scene(digest, k), Line(k)) == Scene(digest, k + 1)
  {
    hide Step, Installation;
    match k {
      case 0 => Hello(Installation(digest));
      case 1 => Ready(Installation(digest));
      case 2 => Listing(Installation(digest));
      case 3 => Configures(digest);
      case 4 => Matches(digest);
      case 5 => Admits(digest);
      case 6 => DispatchesOnce(digest);
      case 7 => Spends(digest);
      case _ => EndOfStream(Installation(digest), digest);
    }
  }

  lemma EndOfStream(x: Setup, digest: string -> string)
    ensures Step(x, Scene(digest, 8), Eof) == Scene(digest, LENGTH)
  {
  }

  lemma {:induction false} Leads(digest: string -> string, k: nat, m: nat)
    requires k <= m <= LENGTH
    ensures Play(Installation(digest), Scene(digest, k), Script()[k..m]) == Scene(digest, m)
    decreases m - k
  {
    hide Step, Installation, Scene, Line;
    if k < m {
      Follows(digest, k);
      assert Script()[k..m][0] == Line(k) && Script()[k..m][1..] == Script()[k + 1..m];
      Leads(digest, k + 1, m);
    }
  }

  /**
   A cancellation while this attempt's session is closed loses its result, and with it the evidence that a
   settled close carries to the caller.
   */
  lemma CancelledCloseLosesQuota(digest: string -> string, report: S.Report, revoking: O.Revocation, policyAllows: bool)
    ensures var s := Play(Installation(digest), START, Script());
      && s.phase == Ended(Raised(Protocol)) && s.quota.quota == Some(Q.Quota(100, None)) && |s.desk.dispatched| == 1
      && O.Settle(s.quota.quota, O.Ran(s.phase.end), O.CloseCancelled, revoking, policyAllows) == O.Escaped
      && O.Carries(O.Settle(s.quota.quota, O.Ran(s.phase.end), O.Closed(report), revoking, policyAllows), s.quota.quota)
  {
    hide Installation, Play, Script;
    Leads(digest, 0, LENGTH);
    assert Script()[0..LENGTH] == Script();
    assert Scene(digest, 0) == START;
  }

  // ---- the attempt that decides ----

  const COUNTS: JObj := map["input_tokens" := Int(7), "output_tokens" := Int(3)]

  function Verdicts(digest: string -> string): JObj {
    SuccessFrame(Installation(digest).wiring, map["decision" := Str("done")], map["usage" := Obj(COUNTS)])
  }

  lemma CountsAreTaken()
    ensures var (usage, v) := Usage.ClosingStep(Usage.FRESH, Obj(COUNTS)); v == Usage.Merged && usage.input == Some(7)
  {
    hide Usage.ClosingStep;
    Usage.FreshIsSettled();
    ClosingIs(Usage.FRESH, COUNTS, Said(Some(7), Some(3), None, None, None));
  }

  lemma VerdictFields(w: Wiring)
    ensures var frame := SuccessFrame(w, map["decision" := Str("done")], map["usage" := Obj(COUNTS)]);
      && Genuine(w, frame) && !IsError(frame) && Offered(frame) == Some(Str("done"))
      && Get(frame, "usage") == Obj(COUNTS)
  {
    hide Receive, Genuine, COUNTS;
    OrdinaryResultsAreTaken(w, IDLE, map["decision" := Str("done")], "", map["usage" := Obj(COUNTS)]);
    TakenIsGenuine(w, IDLE, Some(SuccessFrame(w, map["decision" := Str("done")], map["usage" := Obj(COUNTS)])));
    assert map["decision" := Str("done")].Keys == {"decision"};
  }

  lemma VerdictIsOffered(digest: string -> string)
    ensures Offers(Installation(digest), Scene(digest, 7), Received(Verdicts(digest)), Str("done"))
  {
    hide Usage.ClosingStep, Record, Preimage, Dumps, Genuine, COUNTS, Offered, IsError, SuccessFrame;
    CountsAreTaken();
    VerdictFields(Installation(digest).wiring);
  }

  /**
   The same script up to the served call, and then its result: the attempt decides, and settled by a complete
   and permitted report under an allowing policy it returns that decision.
   */
  lemma ScriptDecides(digest: string -> string, report: S.Report, closing: O.Closing, revoking: O.Revocation)
    requires closing == O.Closed(report) && report.stopConfirmed && report.outcome == S.Exited && !report.stdoutTruncated
    ensures var s := Play(Installation(digest), START, Script()[..7] + [Received(Verdicts(digest))]);
      && s.phase == Ended(Decided(Str("done"))) && s.quota.quota.None? && |s.desk.returned| == 1
      && O.Settle(s.quota.quota, O.Ran(s.phase.end), closing, revoking, true)
         == O.Returned(O.Final(Some(Str("done")), None, None, None, Some(report)))
  {
    hide Installation, Play, Script, Offers, Step;
    Leads(digest, 0, 7);
    assert Script()[0..7] == Script()[..7] && Scene(digest, 0) == START;
    VerdictIsOffered(digest);
    VerdictIsDecoded(digest);
    DecidesIff(Installation(digest), Script()[..7], Received(Verdicts(digest)));
    PlayOneMore(Installation(digest), START, Script()[..7], Received(Verdicts(digest)));
    DeskIsKept(digest);
  }

  lemma VerdictIsDecoded(digest: string -> string)
    ensures Installation(digest).decode(Str("done")) == Decision(Str("done"))
  {
  }

  lemma DeskIsKept(digest: string -> string)
    ensures var t := Step(Installation(digest), Scene(digest, 7), Received(Verdicts(digest)));
      t.quota.quota.None? && |t.desk.returned| == 1
  {
    hide Step, Running, Play, Affords, Genuine, Script, Installation, Offered, IsError, Verdicts;
    Leads(digest, 0, 7);
    assert Scene(digest, 0) == START;
    StartRuns(Installation(digest), Script()[0..7]);
    VerdictIsOffered(digest);
    SuccessEnds(Installation(digest), Scene(digest, 7), Received(Verdicts(digest)));
  }
}
