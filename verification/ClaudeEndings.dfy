/**
 How an exchange ends, told frame by frame: which frames decide, refuse or raise, and which let an admitted
 attempt go on.
 */
module ClaudeEndings {
  import opened Prelude
  import opened CallKey
  import opened ClaudeCodec
  import opened ClaudeExchange
  import Usage = ClaudeUsage
  import Q = ClaudeQuota

  // ---- what a running attempt keeps ----

  predicate WithinCaps(b: Budget, u: Usage.Usage) {
    && (b.maxInput.Some? && u.input.Some? ==> u.input.value <= b.maxInput.value)
    && (b.maxOutput.Some? && u.output.Some? ==> u.output.value <= b.maxOutput.value)
  }

  /** Until it ends an attempt has no terminal, has classified none, and is within its token caps. */
  ghost predicate Running(x: Setup, s: Attempt) {
    !s.phase.Ended? ==>
      s.codec.terminal.None? && s.quota.terminalObservedAt.None? && WithinCaps(x.budget, s.usage)
  }

  lemma CapsAre(b: Budget, u: Usage.Usage)
    ensures OverBudget(b, u) <==> !WithinCaps(b, u)
  {
  }

  lemma DeliverKeepsTerminal(x: Setup, s: Attempt, i: Input)
    requires i.Frame? && s.codec.terminal.None?
    ensures var t := Deliver(x, s, i).0;
      && t.quota == s.quota && t.usage == s.usage && t.phase == s.phase
      && (Get(i.frame, "type") != Str("result") ==> t.codec.terminal.None?)
  {
    hide Receive, Handle;
    var line := if i.encodable then Some(i.frame) else None;
    if Receive(x.wiring, s.codec, line).0.terminal.Some? {
      TakenIsGenuine(x.wiring, s.codec, line);
    }
  }

  lemma RelayRuns(x: Setup, s: Attempt, i: Input, next: Phase)
    requires i.Frame? && s.codec.terminal.None? && s.quota.terminalObservedAt.None? && WithinCaps(x.budget, s.usage)
    requires IsSetup(i.frame)
    ensures Running(x, Relay(x, s, i, next))
  {
    hide Deliver, IsSetup, WithinCaps;
    SetupIsRequest(i.frame);
    DeliverKeepsTerminal(x, s, i);
  }

  lemma SetupIsRequest(frame: JObj)
    requires IsSetup(frame)
    ensures Get(frame, "type") == Str("control_request")
  {
  }

  lemma NoticeKeepsClock(r: Q.Reader, s: Q.Evidence, frame: JObj, now: int)
    ensures Q.Notification(r, s, frame, now).Some? ==>
      Q.Notification(r, s, frame, now).value.terminalObservedAt == s.terminalObservedAt
  {
  }

  lemma AccountRuns(x: Setup, s: Attempt, i: Input, replied: bool)
    requires i.Frame? && s.quota.terminalObservedAt.None?
    ensures Running(x, Account(x, s, i, replied))
  {
    hide Q.Notification, Usage.AssistantStep, Usage.ClosingStep, Q.Terminal, WithinCaps, OverBudget, Conclude;
    NoticeKeepsClock(x.reader, s.quota, i.frame, i.now);
    CapsAre(x.budget, Usage.AssistantStep(s.usage, i.frame, x.wiring.thread).0);
  }

  lemma WorkRuns(x: Setup, s: Attempt, i: Input)
    requires i.Frame? && s.codec.terminal.None? && s.quota.terminalObservedAt.None?
    ensures Running(x, Work(x, s, i))
  {
    hide Deliver, Account, WithinCaps;
    DeliverKeepsTerminal(x, s, i);
    AccountRuns(x, Deliver(x, s, i).0, i, Deliver(x, s, i).1.Replied?);
  }

  lemma StepRuns(x: Setup, s: Attempt, i: Input)
    requires Running(x, s)
    ensures Running(x, Step(x, s, i))
  {
    hide WithinCaps, IsPreinit, McpMessage, Work, Relay, IsSetup, HandshakeComplete, ResponseTo, IsInit;
    if !s.phase.Ended? && i.Frame? {
      if s.phase.Open? && s.desk.initialized {
        WorkRuns(x, s, i);
      } else {
        PreinitIsSetup(i.frame);
        if IsSetup(i.frame) { forall next { RelayRuns(x, s, i, next); } }
      }
    }
  }

  lemma PreinitIsSetup(frame: JObj)
    ensures IsPreinit(frame) ==> IsSetup(frame)
  {
  }

  lemma {:induction false} PlayRuns(x: Setup, s: Attempt, inputs: seq<Input>)
    requires Running(x, s)
    ensures Running(x, Play(x, s, inputs))
    decreases |inputs|
  {
    hide Running, Step;
    if inputs != [] {
      StepRuns(x, s, inputs[0]);
      PlayRuns(x, Step(x, s, inputs[0]), inputs[1..]);
    }
  }

  lemma StartRuns(x: Setup, inputs: seq<Input>)
    ensures Running(x, Play(x, START, inputs)) && Q.Proper(Play(x, START, inputs).quota)
  {
    hide Running, Base, PhaseFits;
    StartIsRunning(x);
    PlayRuns(x, START, inputs);
    StartIsCore(x);
    RunKeeps(x, START, inputs);
    CoreIsProper(x, Play(x, START, inputs));
  }

  lemma StartIsRunning(x: Setup)
    ensures Running(x, START)
  {
  }

  lemma CoreIsProper(x: Setup, s: Attempt)
    requires Core(x, s)
    ensures Q.Proper(s.quota)
  {
    hide PhaseFits;
  }

  // ---- the frames that end an attempt ----

  /** An admitted attempt at work, and a frame it receives that is this turn's result. */
  ghost predicate Concluding(x: Setup, s: Attempt, i: Input) {
    s.phase.Open? && s.desk.initialized && i.Frame? && i.encodable && Genuine(x.wiring, i.frame)
  }

  /** The closing usage of the result is not refused and within both token caps. */
  ghost predicate Affords(x: Setup, s: Attempt, frame: JObj) {
    var (usage, v) := Usage.ClosingStep(s.usage, Get(frame, "usage"));
    !v.Refused? && WithinCaps(x.budget, usage)
  }

  predicate IsError(frame: JObj) {
    Get(frame, "is_error") == Bool(true)
  }

  /** The output of a result is an object with one key, and what stands under it. */
  function Offered(frame: JObj): Option<Json> {
    match GetObj(frame, "structured_output")
    case None => None
    case Some(output) => if output.Keys == {"decision"} then Some(output["decision"]) else None
  }

  lemma ResultIsDelivered(x: Setup, s: Attempt, i: Input)
    requires Running(x, s) && Concluding(x, s, i)
    ensures Deliver(x, s, i) == (s.(codec := s.codec.(terminal := Some(i.frame))), Silent) && !IsInit(i.frame)
    ensures Get(i.frame, "type") == Str("result")
  {
    hide Receive, WithinCaps;
    ResultIsTakenIff(x.wiring, s.codec, i.frame);
  }

  /** A result is no notice and no assistant report. */
  lemma ResultIsNoReport(x: Setup, s: Attempt, frame: JObj, now: int)
    requires Get(frame, "type") == Str("result")
    ensures Q.Notification(x.reader, s.quota, frame, now) == Some(s.quota)
    ensures Usage.AssistantStep(s.usage, frame, x.wiring.thread) == (s.usage, Usage.Ignored)
  {
  }

  /** A finished turn ends the attempt as its output is decoded, if it is affordable and no evidence is held. */
  lemma SuccessEnds(x: Setup, s: Attempt, i: Input)
    requires Running(x, s) && Concluding(x, s, i) && !IsError(i.frame)
    ensures Step(x, s, i).quota == s.quota && Step(x, s, i).desk == s.desk
    ensures Step(x, s, i).phase == Ended(
      if !Affords(x, s, i.frame) || s.quota.quota.Some? || Offered(i.frame).None? then Raised(Protocol)
      else match x.decode(Offered(i.frame).value)
           case Decision(d) => Decided(d)
           case Forbidden(kind) => ForbiddenRole(kind)
           case Undecodable => Raised(Protocol))
  {
    hide Deliver, Usage.ClosingStep, WithinCaps, OverBudget, Genuine, Q.Notification, Usage.AssistantStep, Q.Terminal;
    ResultIsDelivered(x, s, i);
    ResultIsNoReport(x, s, i.frame, i.now);
    CapsAre(x.budget, s.usage);
    CapsAre(x.budget, Usage.ClosingStep(s.usage, Get(i.frame, "usage")).0);
    OutputIsObject(x, i.frame);
  }

  lemma OutputIsObject(x: Setup, frame: JObj)
    requires Genuine(x.wiring, frame) && !IsError(frame)
    ensures Get(frame, "structured_output").Obj?
  {
    hide TELEMETRY, JUDGED;
  }

  /** What the reader makes of an error result first seen at a given time. */
  function Diagnosed(x: Setup, frame: JObj, at: int): Q.Diagnosis {
    var status := Get(frame, "api_error_status");
    x.reader.classify(if status.Int? then Some(status.n) else None, Get(frame, "errors"), Get(frame, "result"), at)
  }

  predicate MeansQuota(kind: Q.FailureKind) {
    kind == Q.QuotaSpent || kind == Q.Throttled
  }

  /** Exhaustion observed at a time, with a reset only if it lies ahead. */
  function SpentAt(now: int, reset: Option<int>): Q.Quota {
    Q.Quota(now, if reset.Some? && reset.value > now then reset else None)
  }

  /**
   A failed turn is refused with its kind, or, once the allowance is known to be spent, with quota and the
   evidence; it raises when the kind then says otherwise, when its status is malformed, or when it is
   unaffordable.
   */
  lemma ErrorEnds(x: Setup, s: Attempt, i: Input)
    requires Running(x, s) && Concluding(x, s, i) && IsError(i.frame)
    requires s.quota.quota.None? || !Diagnosed(x, i.frame, i.later).spent
    ensures var t, status, d := Step(x, s, i), Get(i.frame, "api_error_status"), Diagnosed(x, i.frame, i.later);
      && t.quota.quota == (if (status.Null? || status.Int?) && d.spent then Some(SpentAt(i.later, d.reset)) else s.quota.quota)
      && t.phase == Ended(
        if !(status.Null? || status.Int?) || !Affords(x, s, i.frame) then Raised(Protocol)
        else if t.quota.quota.None? then Refused(d.kind, None)
        else if MeansQuota(d.kind) then Refused(Q.QuotaSpent, t.quota.quota)
        else Raised(Protocol))
  {
    hide Deliver, Usage.ClosingStep, WithinCaps, OverBudget, Genuine, Q.Notification, Usage.AssistantStep;
    ResultIsDelivered(x, s, i);
    ResultIsNoReport(x, s, i.frame, i.now);
    CapsAre(x.budget, s.usage);
    CapsAre(x.budget, Usage.ClosingStep(s.usage, Get(i.frame, "usage")).0);
    RunningObserves(x, s);
  }

  lemma RunningObserves(x: Setup, s: Attempt)
    requires Running(x, s) && !s.phase.Ended?
    ensures s.quota.terminalObservedAt.None? && WithinCaps(x.budget, s.usage)
  {
  }

  /** Only a result of an admitted attempt at work decides, forbids or refuses. */
  lemma OnlyResultsConclude(x: Setup, s: Attempt, i: Input)
    requires Running(x, s) && !s.phase.Ended? && Step(x, s, i).phase.Ended? && !Step(x, s, i).phase.end.Raised?
    ensures Concluding(x, s, i)
  {
    hide Deliver, Account, WithinCaps, Genuine, IsPreinit, IsSetup, ResponseTo, HandshakeComplete, Receive;
    if i.Frame? && s.phase.Open? && s.desk.initialized && !IsInit(i.frame) {
      var line := if i.encodable then Some(i.frame) else None;
      DeliverTakes(x, s, i);
      if Receive(x.wiring, s.codec, line).0.terminal.Some? {
        TakenIsGenuine(x.wiring, s.codec, line);
      } else {
        NoTerminalGoesOn(x, Deliver(x, s, i).0, i, Deliver(x, s, i).1.Replied?);
      }
    } else if i.Frame? {
      SetupOnlyRaises(x, s, i);
    }
  }

  lemma DeliverTakes(x: Setup, s: Attempt, i: Input)
    requires i.Frame?
    ensures var (codec, v) := Receive(x.wiring, s.codec, if i.encodable then Some(i.frame) else None);
      && Deliver(x, s, i).0.codec == codec && Deliver(x, s, i).0.phase == s.phase
  {
    hide Receive, Handle;
  }

  lemma NoTerminalGoesOn(x: Setup, s: Attempt, i: Input, replied: bool)
    requires i.Frame? && s.codec.terminal.None? && s.phase.Open?
    ensures var t := Account(x, s, i, replied); t.phase.Open? || (t.phase.Ended? && t.phase.end.Raised?)
  {
    hide Q.Notification, Usage.AssistantStep, OverBudget;
  }

  lemma SetupOnlyRaises(x: Setup, s: Attempt, i: Input)
    requires i.Frame? && !s.phase.Ended? && !(s.phase.Open? && s.desk.initialized && !IsInit(i.frame))
    ensures Step(x, s, i).phase.Ended? ==> Step(x, s, i).phase.end.Raised?
  {
    hide Deliver, IsPreinit, IsSetup, ResponseTo, HandshakeComplete;
  }

  lemma {:induction false} PlayOneMore(x: Setup, s: Attempt, inputs: seq<Input>, i: Input)
    ensures Play(x, s, inputs + [i]) == Step(x, Play(x, s, inputs), i)
    decreases |inputs|
  {
    hide Step;
    if inputs == [] {
      assert [] + [i] == [i] && [i][1..] == [];
    } else {
      assert (inputs + [i])[0] == inputs[0] && (inputs + [i])[1..] == inputs[1..] + [i];
      PlayOneMore(x, Step(x, s, inputs[0]), inputs[1..], i);
    }
  }

  /** The frame is an affordable result of an admitted attempt without evidence, offering this under its one key. */
  ghost predicate Offers(x: Setup, s: Attempt, i: Input, offered: Json) {
    && Concluding(x, s, i) && !IsError(i.frame) && Affords(x, s, i.frame) && s.quota.quota.None?
    && Offered(i.frame) == Some(offered)
  }

  /**
   An exchange decides exactly on an affordable success frame of an admitted attempt without evidence whose
   one-key output is decoded as that decision; a forbidden role ends it likewise, and an output that cannot
   be decoded raises.
   */
  lemma DecidesIff(x: Setup, inputs: seq<Input>, i: Input)
    requires !Play(x, START, inputs).phase.Ended?
    ensures var s, t := Play(x, START, inputs), Play(x, START, inputs + [i]);
      && (forall d :: t.phase == Ended(Decided(d)) <==>
            exists offered :: Offers(x, s, i, offered) && x.decode(offered) == Decision(d))
      && (forall kind :: t.phase == Ended(ForbiddenRole(kind)) <==>
            exists offered :: Offers(x, s, i, offered) && x.decode(offered) == Forbidden(kind))
      && (forall offered :: Offers(x, s, i, offered) && x.decode(offered).Undecodable? ==>
            t.phase == Ended(Raised(Protocol)))
  {
    hide Play, Step, Running, Affords, Genuine;
    var s := Play(x, START, inputs);
    StartRuns(x, inputs);
    PlayOneMore(x, START, inputs, i);
    if Concluding(x, s, i) {
      if IsError(i.frame) {
        ErrorsDoNotDecide(x, s, i);
      } else {
        SuccessEnds(x, s, i);
        if Offered(i.frame).Some? && Affords(x, s, i.frame) && s.quota.quota.None? {
          assert Offers(x, s, i, Offered(i.frame).value);
        }
      }
    } else if Step(x, s, i).phase.Ended? && !Step(x, s, i).phase.end.Raised? {
      OnlyResultsConclude(x, s, i);
    }
  }

  lemma ErrorsDoNotDecide(x: Setup, s: Attempt, i: Input)
    requires Running(x, s) && Concluding(x, s, i) && IsError(i.frame)
    ensures Step(x, s, i).phase.Ended? && !Step(x, s, i).phase.end.Decided? && !Step(x, s, i).phase.end.ForbiddenRole?
  {
    hide Deliver, Usage.ClosingStep, WithinCaps, OverBudget, Genuine, Q.Notification, Usage.AssistantStep, Q.Terminal;
    ResultIsDelivered(x, s, i);
    ResultIsNoReport(x, s, i.frame, i.now);
    TerminalAlwaysFails(x, s, i);
  }

  lemma TerminalAlwaysFails(x: Setup, s: Attempt, i: Input)
    requires i.Frame? && IsError(i.frame)
    ensures Failed(Some(i.frame))
  {
  }

  lemma {:induction false} EndedStays(x: Setup, s: Attempt, inputs: seq<Input>)
    requires s.phase.Ended?
    ensures Play(x, s, inputs) == s
    decreases |inputs|
  {
    if inputs != [] { EndedStays(x, s, inputs[1..]); }
  }

  /** A decided run holds the frame that decided it, at which everything that takes was so. */
  lemma {:induction false} DecisionHasResult(x: Setup, inputs: seq<Input>, decision: Json) returns (n: nat, offered: Json)
    requires Play(x, START, inputs).phase == Ended(Decided(decision))
    ensures n < |inputs| && Offers(x, Play(x, START, inputs[..n]), inputs[n], offered)
    ensures x.decode(offered) == Decision(decision)
    decreases |inputs|
  {
    hide Offers, Step;
    assert inputs != [];
    var front, last := inputs[..|inputs| - 1], inputs[|inputs| - 1];
    assert inputs == front + [last];
    PlayOneMore(x, START, front, last);
    if Play(x, START, front).phase.Ended? {
      EndedStep(x, Play(x, START, front), last);
      n, offered := DecisionHasResult(x, front, decision);
      assert front[..n] == inputs[..n];
    } else {
      DecidesIff(x, front, last);
      n := |front|;
      offered :| Offers(x, Play(x, START, front), last, offered) && x.decode(offered) == Decision(decision);
    }
  }

  lemma EndedStep(x: Setup, s: Attempt, i: Input)
    requires s.phase.Ended?
    ensures Step(x, s, i) == s
  {
  }

  // ---- the frames that set it up ----

  /** The client's response to one of the two requests of the setup. */
  function ResponseFrame(id: string, subtype: string, body: Json): JObj {
    map["type" := Str("control_response"),
        "response" := Obj(map["subtype" := Str(subtype), "request_id" := Str(id), "response" := body])]
  }

  lemma ResponseIsRead(id: string, subtype: string, body: Json)
    ensures var frame := ResponseFrame(id, subtype, body);
      && Get(frame, "type") == Str("control_response") && !IsInit(frame)
      && ResponseTo(frame, id) == Some(map["subtype" := Str(subtype), "request_id" := Str(id), "response" := body])
  {
  }

  /** The greeting ends with the successful response to the first request, and any other response raises. */
  lemma GreetingEnds(x: Setup, s: Attempt, i: Input, subtype: string, body: Json)
    requires s.phase.Greeting? && i.Frame? && i.frame == ResponseFrame("forge_initialize", subtype, body)
    ensures Step(x, s, i) ==
      s.(phase := if subtype != "success" || !body.Obj? then Ended(Raised(Protocol))
                  else if i.sendFault.Some? then Ended(Raised(i.sendFault.value)) else Configuring(0, None))
  {
    hide ResponseTo, IsSetup, Relay;
    ResponseIsRead("forge_initialize", subtype, body);
  }

  ghost predicate IsHandshakeMessage(message: JObj) {
    || message == INITIALIZED_MESSAGE
    || (exists id :: IsIdent(id) && message == ListMessage(id))
    || (exists id, version :: IsIdent(id) && message == InitializeMessage(id, version))
  }

  lemma HandshakeMessageIsSetup(request: string, message: JObj)
    requires request != "" && IsHandshakeMessage(message)
    ensures IsSetup(McpRequest(request, message)) && Get(McpRequest(request, message), "type") == Str("control_request")
    ensures McpMessage(McpRequest(request, message)) == Some(message)
  {
    hide IsInitialize, IsListing;
    MessageIsHeld(request, message);
    if id :| IsIdent(id) && message == ListMessage(id) { ListIsListing(id); }
    if id, version :| IsIdent(id) && message == InitializeMessage(id, version) { InitializeIsInitialize(id, version); }
  }

  lemma MessageIsHeld(request: string, message: JObj)
    requires request != ""
    ensures McpMessage(McpRequest(request, message)) == Some(message)
    ensures Get(McpRequest(request, message), "type") == Str("control_request")
  {
  }

  lemma ListIsListing(id: Json)
    requires IsIdent(id)
    ensures IsListing(ListMessage(id))
  {
    assert ListMessage(id).Keys == {"jsonrpc", "method", "id"};
  }

  lemma InitializeIsInitialize(id: Json, version: string)
    requires IsIdent(id)
    ensures IsInitialize(InitializeMessage(id, version))
  {
    assert InitializeMessage(id, version).Keys == {"jsonrpc", "id", "method", "params"};
    var params: JObj := map["protocolVersion" := Str(version)];
    assert Get(InitializeMessage(id, version), "params") == Obj(params);
  }

  /** A handshake message that the codec answers is answered and the setup waits on, within its frames. */
  lemma HandshakeGoesOn(x: Setup, s: Attempt, i: Input, request: string, message: JObj, codec: Codec, reply: Reply)
    requires (s.phase.Greeting? || s.phase.Configuring?) && i.Frame? && i.encodable && request != ""
    requires i.frame == McpRequest(request, message) && IsHandshakeMessage(message)
    requires Receive(x.wiring, s.codec, Some(i.frame)) == (codec, Answer(request, reply)) && !reply.Serve?
    ensures Step(x, s, i) == s.(codec := codec, phase :=
      if i.sendFault.Some? then Ended(Raised(i.sendFault.value))
      else if s.phase.Greeting? then
        if s.phase.frames + 1 < 64 then Greeting(s.phase.frames + 1) else Ended(Raised(Protocol))
      else if s.phase.frames + 1 < 128 then Configuring(s.phase.frames + 1, s.phase.init) else Ended(Raised(Protocol)))
  {
    hide Receive, IsSetup, IsHandshakeMessage, McpMessage, ResponseTo, McpRequest;
    HandshakeMessageIsSetup(request, message);
    NotAResponse(i.frame);
  }

  lemma NotAResponse(frame: JObj)
    requires Get(frame, "type") == Str("control_request")
    ensures ResponseTo(frame, "forge_settings").None? && !IsInit(frame)
  {
  }

  /** The settings the client reports; under operator trust a refusal to report them reads as none. */
  function Reported(x: Setup, subtype: string, body: Json): Option<JObj> {
    if subtype == "success" then (if body.Obj? then Some(body.fields) else None)
    else if x.operator then Some(map[]) else None
  }

  /** Whether the settings step admits the attempt, leaves it to wait for its init frame, or raises. */
  function AfterSettings(x: Setup, s: Attempt, init: Option<JObj>, settings: Option<JObj>): Result<bool, Fault> {
    if settings.None? || !x.settingsMatch(settings.value) then Err(Configuration)
    else if init.None? then Ok(false)
    else if !(s.codec.initialized && s.codec.notified && s.codec.listed) then Err(Protocol)
    else if !x.initMatches(init.value) then Err(Configuration)
    else Ok(true)
  }

  lemma SettingsAreReported(x: Setup, id: string, subtype: string, body: Json)
    ensures Settings(x, map["subtype" := Str(subtype), "request_id" := Str(id), "response" := body]) == Reported(x, subtype, body)
  {
  }

  lemma MatchOpens(x: Setup, s: Attempt, init: Option<JObj>, settings: JObj, sendFault: Option<Fault>)
    ensures var t, after := MatchSettings(x, s, init, settings, sendFault), AfterSettings(x, s, init, Some(settings));
      && t.codec == s.codec && t.quota == s.quota && t.usage == s.usage
      && (after.Err? ==> t.phase == Ended(Raised(after.error)) && t.desk == s.desk)
      && (after.Ok? ==>
            && t.phase == (if sendFault.Some? then Ended(Raised(sendFault.value)) else Open)
            && t.desk == if after.value then s.desk.(initialized := true) else s.desk)
  {
  }

  /**
   The settings response opens the attempt exactly when its settings match and an init frame noted before, if
   any, came after the handshake and matches; with such a frame the attempt is admitted at once.
   */
  lemma SettingsOpen(x: Setup, s: Attempt, i: Input, subtype: string, body: Json)
    requires s.phase.Configuring? && i.Frame? && i.frame == ResponseFrame("forge_settings", subtype, body)
    ensures var t, after := Step(x, s, i), AfterSettings(x, s, s.phase.init, Reported(x, subtype, body));
      && t.codec == s.codec && t.quota == s.quota && t.usage == s.usage
      && (after.Err? ==> t.phase == Ended(Raised(after.error)) && t.desk == s.desk)
      && (after.Ok? ==>
            && t.phase == (if i.sendFault.Some? then Ended(Raised(i.sendFault.value)) else Open)
            && t.desk == if after.value then s.desk.(initialized := true) else s.desk)
  {
    hide ResponseTo, IsSetup, Relay, ResponseFrame, IsInit, Settings, MatchSettings, Reported;
    ResponseIsRead("forge_settings", subtype, body);
    SettingsAreReported(x, "forge_settings", subtype, body);
    var settings := Reported(x, subtype, body);
    if settings.Some? { MatchOpens(x, s, s.phase.init, settings.value, i.sendFault); }
  }

  /** An init frame is noted once, after the handshake, or admits an open attempt if it matches. */
  lemma InitAdmits(x: Setup, s: Attempt, i: Input)
    requires (s.phase.Configuring? || (s.phase.Open? && !s.desk.initialized)) && i.Frame?
    requires Get(i.frame, "type") == Str("system") && Get(i.frame, "subtype") == Str("init")
    ensures var t, shaken := Step(x, s, i), s.codec.initialized && s.codec.notified && s.codec.listed;
      if s.phase.Configuring? then
        t == s.(phase := if shaken && s.phase.init.None? && s.phase.frames + 1 < 128
                         then Configuring(s.phase.frames + 1, Some(i.frame)) else Ended(Raised(Protocol)))
      else if shaken && x.initMatches(i.frame) then
        t.desk == s.desk.(initialized := true) && t.phase == Open && t.codec == s.codec && t.usage == s.usage && t.quota == s.quota
      else t == s.(phase := Ended(Raised(if shaken then Configuration else Protocol)))
  {
    hide ResponseTo, Relay;
    SystemIsNoRequest(i.frame);
  }

  lemma SystemIsNoRequest(frame: JObj)
    requires Get(frame, "type") == Str("system")
    ensures McpMessage(frame).None? && !IsPreinit(frame)
  {
  }

  // ---- the frames that let it go on ----

  /** Stream frames change nothing, and an assistant's report moves the meter within its caps or raises. */
  lemma StreamGoesOn(x: Setup, s: Attempt, i: Input)
    requires Running(x, s) && s.phase.Open? && s.desk.initialized && i.Frame? && i.encodable && !IsInit(i.frame)
    ensures Get(i.frame, "type") in {Str("system"), Str("user"), Str("stream_event")} ==> Step(x, s, i) == s
    ensures var (usage, v) := Usage.AssistantStep(s.usage, i.frame, x.wiring.thread);
      Get(i.frame, "type") == Str("assistant") ==>
        Step(x, s, i) == if v.Refused? || !WithinCaps(x.budget, usage)
                         then s.(usage := usage, phase := Ended(Raised(Protocol))) else s.(usage := usage)
  {
    hide Receive, WithinCaps, OverBudget;
    OtherFramesAreQuietOrForeign(x.wiring, s.codec, i.frame, "", map[]);
    CapsAre(x.budget, s.usage);
    CapsAre(x.budget, Usage.AssistantStep(s.usage, i.frame, x.wiring.thread).0);
    RunningObserves(x, s);
  }

  /** A well-formed notice. */
  predicate Announces(uuid: string, info: JObj) {
    && 1 <= |uuid| <= 128 && Get(info, "status") in {Str("allowed"), Str("allowed_warning"), Str("rejected")}
    && (Get(info, "rateLimitType") == Null || Get(info, "rateLimitType").Str?)
  }

  /** The first rejection of a bound window is kept with its time; any other notice changes nothing. */
  lemma NoticeGoesOn(x: Setup, s: Attempt, i: Input, uuid: string, info: JObj)
    requires Running(x, s) && s.phase.Open? && s.desk.initialized && s.quota.quota.None? && Announces(uuid, info)
    requires i.Frame? && i.encodable && i.frame == NoticeFrame(x.wiring, uuid, info)
    ensures var window := Get(info, "rateLimitType");
      Step(x, s, i) ==
        if Get(info, "status") == Str("rejected") && window.Str? && window.s in x.reader.limitTypes
        then s.(quota := s.quota.(quota := Some(SpentAt(i.now, x.reader.resetOf(Get(info, "resetsAt"), i.now)))))
        else s
  {
    hide Receive, WithinCaps, OverBudget;
    OtherFramesAreQuietOrForeign(x.wiring, s.codec, i.frame, uuid, info);
    CapsAre(x.budget, s.usage);
    RunningObserves(x, s);
    NoticeIsNoReport(x, s, i.frame);
    NoticeHolds(x.wiring, uuid, info);
  }

  lemma NoticeHolds(w: Wiring, uuid: string, info: JObj)
    ensures var frame := NoticeFrame(w, uuid, info);
      Get(frame, "type") == Str("rate_limit_event") && GetObj(frame, "rate_limit_info") == Some(info) && !IsInit(frame)
  {
  }

  lemma NoticeIsNoReport(x: Setup, s: Attempt, frame: JObj)
    requires Get(frame, "type") == Str("rate_limit_event")
    ensures Usage.AssistantStep(s.usage, frame, x.wiring.thread) == (s.usage, Usage.Ignored)
  {
  }

  /** What a call not yet filed must meet to be sent to the broker. */
  predicate Sendable(x: Setup, s: Attempt, call: Call) {
    && s.quota.quota.None? && x.brokered && call.name in x.wiring.tools
    && x.required(call.name) <= call.arguments.Keys <= x.permitted(call.name)
    && (forall k :: k in call.arguments ==> call.arguments[k].Str?)
    && s.desk.calls < x.budget.maxCalls
    && (call.name == "build.run_named_check" ==> s.desk.checks < x.budget.maxChecks)
  }

  /** A new call is sent exactly when it is sendable, its receipt is filed and returned, and any fault raises. */
  lemma NewCallIsSentIff(x: Setup, s: Attempt, i: Input, request: string, id: Json, call: Call)
    requires Running(x, s) && s.phase.Open? && s.desk.initialized && i.Frame? && i.encodable
    requires Get(i.frame, "type") == Str("control_request")
    requires Receive(x.wiring, s.codec, Some(i.frame)).1 == Answer(request, Serve(id, call))
    requires call.key !in s.desk.admitted
    ensures var t, d := Step(x, s, i), s.desk;
      && t.usage == s.usage && t.quota == s.quota
      && t.desk.dispatched == (if Sendable(x, s, call) then d.dispatched + [call] else d.dispatched)
      && (if !Sendable(x, s, call) then t.desk == d && t.phase == Ended(Raised(Protocol))
          else match i.broker
            case BrokerFails(fault) => t.desk.admitted == d.admitted && t.phase == Ended(Raised(fault))
            case Receipt(value) =>
              && t.desk.admitted == d.admitted[call.key := (call, value)]
              && t.desk.returned == d.returned + [(call, value)]
              && t.phase == if i.sendFault.Some? then Ended(Raised(i.sendFault.value)) else Open)
  {
    hide Receive, WithinCaps, OverBudget, Usage.AssistantStep, Q.Notification, Handle;
    CapsAre(x.budget, s.usage);
    RunningObserves(x, s);
    RequestIsNoReport(x, s, i.frame, i.now);
    DeliverKeepsTerminal(x, s, i);
    NewCallIsHandled(x, s, call, i.broker);
  }

  lemma RequestIsNoReport(x: Setup, s: Attempt, frame: JObj, now: int)
    requires Get(frame, "type") == Str("control_request")
    ensures Q.Notification(x.reader, s.quota, frame, now) == Some(s.quota) && !IsInit(frame)
    ensures Usage.AssistantStep(s.usage, frame, x.wiring.thread) == (s.usage, Usage.Ignored)
  {
  }

  lemma NewCallIsHandled(x: Setup, s: Attempt, call: Call, broker: BrokerReply)
    requires s.desk.initialized && call.key !in s.desk.admitted
    ensures var (e, r) := Handle(x, s.desk, s.quota.quota.Some?, call, broker);
      && var d := s.desk;
      && e.initialized == d.initialized
      && e.dispatched == (if Sendable(x, s, call) then d.dispatched + [call] else d.dispatched)
      && (if !Sendable(x, s, call) then e == d && r == Err(Protocol)
          else match broker
            case BrokerFails(fault) => e.admitted == d.admitted && r == Err(fault)
            case Receipt(value) =>
              && e.admitted == d.admitted[call.key := (call, value)]
              && e.returned == d.returned + [(call, value)]
              && r == Ok(value))
  {
  }
}
