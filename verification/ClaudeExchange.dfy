/**
 One exchange with the provider's client: MCP setup traffic, the settings check, then the admitted
 turn, with the tool handler that dispatches each call to the broker.

 Each input is one `receive` of the session together with what the outside answers while the frame is
 handled: the clock, the broker, and whether sending the reply fails.
 */
module ClaudeExchange {
  import opened Prelude
  import opened CallKey
  import opened ClaudeCodec
  import Usage = ClaudeUsage
  import Q = ClaudeQuota

  const SETUP_FRAMES: nat := 64
  const SETTINGS_FRAMES: nat := 128
  const NAMED_CHECK: string := "build.run_named_check"

  /** What an exception is caught as: any other one counts as a protocol fault. */
  datatype Fault = Protocol | Configuration | Timeout | Cancelled | Uncertain

  datatype Decoding = Decision(decision: Json) | Forbidden(kind: string) | Undecodable

  datatype Budget = Budget(maxCalls: nat, maxChecks: nat, maxInput: Option<int>, maxOutput: Option<int>)

  /** The request and the installation, with the comparisons and decoders of other files as functions. */
  datatype Setup = Setup(
    wiring: Wiring, brokered: bool, budget: Budget, operator: bool, reader: Q.Reader,
    required: string -> set<string>, permitted: string -> set<string>,
    settingsMatch: JObj -> bool, initMatches: JObj -> bool, decode: Json -> Decoding)

  datatype BrokerReply = Receipt(value: JObj) | BrokerFails(fault: Fault)

  datatype Input =
    | Frame(frame: JObj, encodable: bool, now: int, later: int, broker: BrokerReply, sendFault: Option<Fault>)
    | Eof
    | Broken(fault: Fault)

  // ---- the tool handler ----

  /** `admitted` are the calls with their receipts; `dispatched` and `returned` are the history. */
  datatype Desk = Desk(
    initialized: bool, admitted: map<string, (Call, JObj)>, calls: nat, checks: nat,
    dispatched: seq<Call>, returned: seq<(Call, JObj)>)

  const CLOSED := Desk(false, map[], 0, 0, [], [])

  predicate Unadmitted(x: Setup, d: Desk, spent: bool, call: Call) {
    !d.initialized || spent || call.name !in x.wiring.tools || !x.brokered
  }

  predicate ArgumentsFit(x: Setup, call: Call) {
    && x.required(call.name) <= call.arguments.Keys <= x.permitted(call.name)
    && forall k :: k in call.arguments ==> call.arguments[k].Str?
  }

  function IsCheck(name: string): nat {
    if name == NAMED_CHECK then 1 else 0
  }

  predicate Exhausted(b: Budget, d: Desk, name: string) {
    d.calls >= b.maxCalls || (name == NAMED_CHECK && d.checks >= b.maxChecks)
  }

  function Dispatch(d: Desk, call: Call, broker: BrokerReply): (Desk, Result<JObj, Fault>) {
    var sent := d.(calls := d.calls + 1, checks := d.checks + IsCheck(call.name), dispatched := d.dispatched + [call]);
    match broker
    case BrokerFails(fault) => (sent, Err(fault))
    case Receipt(value) =>
      (sent.(admitted := d.admitted[call.key := (call, value)], returned := d.returned + [(call, value)]), Ok(value))
  }

  /** The handler: a known key is answered from the table, a new one is checked, counted and sent once. */
  function Handle(x: Setup, d: Desk, spent: bool, call: Call, broker: BrokerReply): (Desk, Result<JObj, Fault>) {
    if Unadmitted(x, d, spent, call) then (d, Err(Protocol))
    else if call.key in d.admitted then
      if d.admitted[call.key].0 != call then (d, Err(Protocol))
      else (d.(returned := d.returned + [d.admitted[call.key]]), Ok(d.admitted[call.key].1))
    else if !ArgumentsFit(x, call) || Exhausted(x.budget, d, call.name) then (d, Err(Protocol))
    else Dispatch(d, call, broker)
  }

  // ---- setup frames ----

  function McpMessage(frame: JObj): Option<JObj> {
    if frame.Keys != {"type", "request_id", "request"} || frame["type"] != Str("control_request") then None
    else
      var id, request := frame["request_id"], frame["request"];
      if !id.Str? || id.s == "" || !request.Obj? || request.fields.Keys != {"subtype", "server_name", "message"}
         || request.fields["subtype"] != Str("mcp_message") || request.fields["server_name"] != Str("forge") then None
      else GetObj(request.fields, "message")
  }

  predicate IsListing(message: JObj) {
    && message.Keys in {{"jsonrpc", "method", "id"}, {"jsonrpc", "method", "id", "params"}}
    && Get(message, "jsonrpc") == Str("2.0")
    && Get(message, "method") == Str("tools/list")
    && Params(message) == Obj(map[])
    && IsIdent(Get(message, "id"))
  }

  predicate IsInitialize(message: JObj) {
    var params := Get(message, "params");
    && message.Keys == {"jsonrpc", "id", "method", "params"}
    && Get(message, "jsonrpc") == Str("2.0")
    && Get(message, "method") == Str("initialize")
    && IsIdent(Get(message, "id"))
    && params.Obj?
    && params.fields.Keys <= {"protocolVersion", "capabilities", "clientInfo"}
    && Get(params.fields, "protocolVersion").Str?
  }

  predicate IsPreinit(frame: JObj) {
    match McpMessage(frame)
    case None => false
    case Some(message) =>
      message == map["jsonrpc" := Str("2.0"), "method" := Str("notifications/initialized")] || IsListing(message)
  }

  predicate IsSetup(frame: JObj) {
    IsPreinit(frame) || (McpMessage(frame).Some? && IsInitialize(McpMessage(frame).value))
  }

  predicate IsInit(frame: JObj) {
    Get(frame, "type") == Str("system") && Get(frame, "subtype") == Str("init")
  }

  /** The body of a control response to the given request. */
  function ResponseTo(frame: JObj, id: string): Option<JObj> {
    if Get(frame, "type") != Str("control_response") then None
    else
      match GetObj(frame, "response")
      case None => None
      case Some(response) => if Get(response, "request_id") == Str(id) then Some(response) else None
  }

  // ---- the exchange ----

  datatype End =
    | Decided(decision: Json)
    | Refused(kind: Q.FailureKind, quota: Option<Q.Quota>)
    | ForbiddenRole(decisionKind: string)
    | Raised(fault: Fault)

  datatype Phase =
    | Greeting(frames: nat)
    | Configuring(frames: nat, init: Option<JObj>)
    | Open
    | Ended(end: End)

  /** What has happened that admission depends on, in order. */
  datatype Mark = SettingsMatched | Admitted | TurnSent | HandlerReached

  datatype Attempt = Attempt(
    phase: Phase, codec: Codec, desk: Desk, quota: Q.Evidence, usage: Usage.Usage, marks: seq<Mark>)

  const START := Attempt(Greeting(0), ClaudeCodec.IDLE, CLOSED, Q.UNSEEN, Usage.FRESH, [])

  function Fail(s: Attempt, fault: Fault): Attempt {
    s.(phase := Ended(Raised(fault)))
  }

  function Note(s: Attempt, mark: Mark): Attempt {
    s.(marks := s.marks + [mark])
  }

  datatype Delivery = Silent | Replied | Faulted(fault: Fault)

  /** The codec takes the frame; a served call goes through the handler. */
  function Deliver(x: Setup, s: Attempt, i: Input): (Attempt, Delivery)
    requires i.Frame?
  {
    var (codec, verdict) := Receive(x.wiring, s.codec, if i.encodable then Some(i.frame) else None);
    var t := s.(codec := codec);
    match verdict
    case Rejected => (t, Faulted(Protocol))
    case Quiet => (t, Silent)
    case Answer(_, reply) =>
      if !reply.Serve? then (t, Replied)
      else
        var (desk, receipt) := Handle(x, t.desk, t.quota.quota.Some?, reply.call, i.broker);
        (Note(t.(desk := desk), HandlerReached), if receipt.Ok? then Replied else Faulted(receipt.error))
  }

  /** Hands a setup frame to the codec and sends the reply it must have. */
  function Relay(x: Setup, s: Attempt, i: Input, next: Phase): Attempt
    requires i.Frame?
  {
    var (t, d) := Deliver(x, s, i);
    match d
    case Faulted(fault) => Fail(t, fault)
    case Silent => Fail(t, Protocol)
    case Replied => if i.sendFault.Some? then Fail(t, i.sendFault.value) else t.(phase := next)
  }

  function Greet(x: Setup, s: Attempt, n: nat, i: Input): Attempt
    requires i.Frame?
  {
    if Get(i.frame, "type") == Str("control_request") then
      if !IsSetup(i.frame) then Fail(s, Protocol)
      else Relay(x, s, i, if n + 1 < SETUP_FRAMES then Greeting(n + 1) else Ended(Raised(Protocol)))
    else
      match ResponseTo(i.frame, "forge_initialize")
      case None => Fail(s, Protocol)
      case Some(response) =>
        if Get(response, "subtype") != Str("success") || !Get(response, "response").Obj? then Fail(s, Protocol)
        else if i.sendFault.Some? then Fail(s, i.sendFault.value)
        else s.(phase := Configuring(0, None))
  }

  /** The reported settings; under operator trust an unanswered request reads as no settings. */
  function Settings(x: Setup, response: JObj): Option<JObj> {
    var good := Get(response, "subtype") == Str("success");
    if !good && x.operator then Some(map[]) else if !good then None else GetObj(response, "response")
  }

  function Admit(s: Attempt): Attempt {
    Note(s.(desk := s.desk.(initialized := true)), Admitted)
  }

  function MatchSettings(x: Setup, s: Attempt, init: Option<JObj>, settings: JObj, sendFault: Option<Fault>): Attempt {
    if !x.settingsMatch(settings) then Fail(s, Configuration)
    else
      var t := Note(s, SettingsMatched);
      if init.Some? && !HandshakeComplete(t.codec) then Fail(t, Protocol)
      else if init.Some? && !x.initMatches(init.value) then Fail(t, Configuration)
      else
        var u := if init.Some? then Admit(t) else t;
        if sendFault.Some? then Fail(u, sendFault.value) else Note(u, TurnSent).(phase := Open)
  }

  function Configure(x: Setup, s: Attempt, n: nat, init: Option<JObj>, i: Input): Attempt
    requires i.Frame?
  {
    var last := n + 1 >= SETTINGS_FRAMES;
    if IsInit(i.frame) then
      if init.Some? || !HandshakeComplete(s.codec) || last then Fail(s, Protocol)
      else s.(phase := Configuring(n + 1, Some(i.frame)))
    else
      match ResponseTo(i.frame, "forge_settings")
      case Some(response) =>
        (match Settings(x, response)
         case None => Fail(s, Configuration)
         case Some(settings) => MatchSettings(x, s, init, settings, i.sendFault))
      case None =>
        if !IsSetup(i.frame) then Fail(s, Protocol)
        else Relay(x, s, i, if last then Ended(Raised(Protocol)) else Configuring(n + 1, init))
  }

  function AwaitInit(x: Setup, s: Attempt, i: Input): Attempt
    requires i.Frame?
  {
    if IsPreinit(i.frame) then Relay(x, s, i, Open)
    else if !IsInit(i.frame) || !HandshakeComplete(s.codec) then Fail(s, Protocol)
    else if !x.initMatches(i.frame) then Fail(s, Configuration)
    else Admit(s)
  }

  predicate OverBudget(b: Budget, u: Usage.Usage) {
    || (b.maxInput.Some? && u.input.Some? && u.input.value > b.maxInput.value)
    || (b.maxOutput.Some? && u.output.Some? && u.output.value > b.maxOutput.value)
  }

  predicate Failed(terminal: Option<JObj>) {
    terminal.Some? && Get(terminal.value, "is_error") == Bool(true)
  }

  /** The evidence after a frame, and the failure of an erroneous terminal; `None` when either step raises. */
  function Evidence(x: Setup, s: Attempt, i: Input): (Q.Evidence, Option<Option<Q.FailureKind>>)
    requires i.Frame?
  {
    match Q.Notification(x.reader, s.quota, i.frame, i.now)
    case None => (s.quota, None)
    case Some(noted) =>
      if !Failed(s.codec.terminal) then (noted, Some(None))
      else
        var (seen, failure) := Q.Terminal(x.reader, noted, s.codec.terminal.value, i.later);
        (seen, if failure.None? then None else Some(failure))
  }

  /** The terminal frame has passed every check but the decision itself. */
  function Conclude(x: Setup, s: Attempt, terminal: JObj, failure: Option<Q.FailureKind>): End {
    var output := Get(terminal, "structured_output");
    if failure.Some? then Refused(failure.value, s.quota.quota)
    else if s.quota.quota.Some? || !output.Obj? || output.fields.Keys != {"decision"} then Raised(Protocol)
    else
      match x.decode(output.fields["decision"])
      case Decision(decision) => Decided(decision)
      case Forbidden(kind) => ForbiddenRole(kind)
      case Undecodable => Raised(Protocol)
  }

  ghost function Close(x: Setup, s: Attempt, failure: Option<Q.FailureKind>): Attempt {
    match s.codec.terminal
    case None => s
    case Some(terminal) =>
      var (usage, v) := Usage.ClosingStep(s.usage, Get(terminal, "usage"));
      var t := s.(usage := usage);
      if v.Refused? || OverBudget(x.budget, usage) then Fail(t, Protocol)
      else t.(phase := Ended(Conclude(x, t, terminal, failure)))
  }

  /** After the codec: evidence first, then the meter, the budget, the reply, and the terminal. */
  ghost function Account(x: Setup, s: Attempt, i: Input, replied: bool): Attempt
    requires i.Frame?
  {
    var (quota, failure) := Evidence(x, s, i);
    var t := s.(quota := quota);
    if failure.None? then Fail(t, Protocol)
    else
      var (usage, v) := Usage.AssistantStep(t.usage, i.frame, x.wiring.thread);
      var u := t.(usage := usage);
      if v.Refused? || OverBudget(x.budget, usage) then Fail(u, Protocol)
      else if replied && i.sendFault.Some? then Fail(u, i.sendFault.value)
      else Close(x, u, failure.value)
  }

  ghost function Work(x: Setup, s: Attempt, i: Input): Attempt
    requires i.Frame?
  {
    if IsInit(i.frame) then Fail(s, Protocol)
    else
      var (t, d) := Deliver(x, s, i);
      if d.Faulted? then Fail(t, d.fault) else Account(x, t, i, d.Replied?)
  }

  ghost function Step(x: Setup, s: Attempt, i: Input): Attempt {
    if s.phase.Ended? then s
    else
      match i
      case Eof => Fail(s, Protocol)
      case Broken(fault) => Fail(s, fault)
      case Frame(_, _, _, _, _, _) =>
        match s.phase
        case Greeting(n) => Greet(x, s, n, i)
        case Configuring(n, init) => Configure(x, s, n, init, i)
        case Open => if s.desk.initialized then Work(x, s, i) else AwaitInit(x, s, i)
        case Ended(_) => s
  }

  ghost function Play(x: Setup, s: Attempt, inputs: seq<Input>): Attempt
    decreases |inputs|
  {
    if inputs == [] then s else Play(x, Step(x, s, inputs[0]), inputs[1..])
  }

  // ---- the desk ----

  ghost predicate DistinctKeys(calls: seq<Call>) {
    forall i, j :: 0 <= i < j < |calls| ==> calls[i].key != calls[j].key
  }

  function Checks(calls: seq<Call>): nat {
    if calls == [] then 0 else Checks(calls[..|calls| - 1]) + IsCheck(calls[|calls| - 1].name)
  }

  ghost predicate Filed(d: Desk, entry: (Call, JObj)) {
    entry.0.key in d.admitted && d.admitted[entry.0.key] == entry
  }

  /** The counters count the dispatches, no key is dispatched twice, and only filed receipts are returned. */
  ghost predicate InOrder(b: Budget, d: Desk) {
    && DistinctKeys(d.dispatched)
    && |d.dispatched| == d.calls <= b.maxCalls
    && Checks(d.dispatched) == d.checks <= b.maxChecks
    && (forall k :: k in d.admitted ==> d.admitted[k].0.key == k && d.admitted[k].0 in d.dispatched)
    && (forall j :: 0 <= j < |d.returned| ==> Filed(d, d.returned[j]))
  }

  /** Every dispatch has come back with a receipt. */
  ghost predicate AllBack(d: Desk) {
    forall j :: 0 <= j < |d.dispatched| ==>
      d.dispatched[j].key in d.admitted && d.admitted[d.dispatched[j].key].0 == d.dispatched[j]
  }

  /** History only grows, and a filed receipt stays. */
  ghost predicate DeskGrows(d: Desk, e: Desk) {
    && d.dispatched <= e.dispatched
    && d.returned <= e.returned
    && (d.initialized ==> e.initialized)
    && (forall k :: k in d.admitted ==> k in e.admitted && e.admitted[k] == d.admitted[k])
  }

  lemma NewKeyIsDistinct(d: Desk, call: Call)
    requires DistinctKeys(d.dispatched) && AllBack(d) && call.key !in d.admitted
    ensures DistinctKeys(d.dispatched + [call])
    ensures Checks(d.dispatched + [call]) == Checks(d.dispatched) + IsCheck(call.name)
  {
    assert (d.dispatched + [call])[..|d.dispatched|] == d.dispatched;
  }

  lemma FiledStays(d: Desk, e: Desk, call: Call, value: JObj)
    requires call.key !in d.admitted && e.admitted == d.admitted[call.key := (call, value)]
    requires e.returned == d.returned + [(call, value)]
    requires forall j :: 0 <= j < |d.returned| ==> Filed(d, d.returned[j])
    ensures forall j :: 0 <= j < |e.returned| ==> Filed(e, e.returned[j])
  {
    forall j | 0 <= j < |e.returned| ensures Filed(e, e.returned[j]) {
      if j < |d.returned| { assert Filed(d, d.returned[j]); }
    }
  }

  lemma AllBackAfter(d: Desk, e: Desk, call: Call, value: JObj)
    requires AllBack(d) && call.key !in d.admitted && e.admitted == d.admitted[call.key := (call, value)]
    requires e.dispatched == d.dispatched + [call]
    ensures AllBack(e)
  {
  }

  lemma DispatchKeepsOrder(b: Budget, d: Desk, call: Call, broker: BrokerReply)
    requires InOrder(b, d) && AllBack(d) && call.key !in d.admitted && !Exhausted(b, d, call.name)
    ensures var (e, r) := Dispatch(d, call, broker);
      && InOrder(b, e) && DeskGrows(d, e) && (r.Ok? ==> AllBack(e))
  {
    hide DistinctKeys, AllBack, Filed, Checks;
    var e := Dispatch(d, call, broker).0;
    NewKeyIsDistinct(d, call);
    assert call in e.dispatched by { assert e.dispatched[|d.dispatched|] == call; }
    forall k | k in d.admitted ensures d.admitted[k].0 in e.dispatched {}
    match broker {
      case BrokerFails(_) => SameFiled(d, e);
      case Receipt(value) =>
        FiledStays(d, e, call, value);
        AllBackAfter(d, e, call, value);
    }
  }

  lemma SameFiled(d: Desk, e: Desk)
    requires e.admitted == d.admitted && e.returned == d.returned
    ensures forall entry :: Filed(d, entry) == Filed(e, entry)
  {
  }

  lemma HandleKeepsOrder(x: Setup, d: Desk, spent: bool, call: Call, broker: BrokerReply)
    requires InOrder(x.budget, d) && AllBack(d)
    ensures var (e, r) := Handle(x, d, spent, call, broker);
      && InOrder(x.budget, e) && DeskGrows(d, e) && (r.Ok? ==> AllBack(e) && call.key in e.admitted)
      && e.initialized == d.initialized
      && (spent || !d.initialized ==> e == d)
      && (forall k :: k in e.admitted && k !in d.admitted ==> k == call.key && e.admitted[k].0 == call)
  {
    hide Dispatch, Exhausted, ArgumentsFit;
    if !Unadmitted(x, d, spent, call) {
      if call.key in d.admitted {
        var e := Handle(x, d, spent, call, broker).0;
        if d.admitted[call.key].0 == call {
          forall j | 0 <= j < |e.returned| ensures Filed(e, e.returned[j]) {
            if j < |d.returned| { assert Filed(d, d.returned[j]); }
          }
        }
      } else if ArgumentsFit(x, call) && !Exhausted(x.budget, d, call.name) {
        DispatchKeepsOrder(x.budget, d, call, broker);
        DispatchFiles(d, call, broker);
      }
    }
  }

  lemma DispatchFiles(d: Desk, call: Call, broker: BrokerReply)
    ensures var (e, r) := Dispatch(d, call, broker);
      && (r.Ok? ==> call.key in e.admitted)
      && e.initialized == d.initialized
      && (forall k :: k in e.admitted && k !in d.admitted ==> k == call.key && e.admitted[k].0 == call)
  {
  }

  // ---- what every step keeps ----

  /** Each filed call is the one the codec has recorded under its key. */
  ghost predicate Linked(w: Wiring, codec: Codec, d: Desk) {
    forall k :: k in d.admitted ==> k in codec.tables.calls && d.admitted[k].0 == CallOf(w, k, codec.tables.calls[k])
  }

  /** Every recorded call has its receipt, and every dispatch has come back. */
  ghost predicate NothingPending(codec: Codec, d: Desk) {
    AllBack(d) && forall k :: k in codec.tables.calls ==> k in d.admitted
  }

  ghost predicate Precedes(marks: seq<Mark>, a: Mark, b: Mark) {
    forall i :: 0 <= i < |marks| && marks[i] == b ==> a in marks[..i]
  }

  ghost predicate MarksInOrder(marks: seq<Mark>) {
    && Precedes(marks, SettingsMatched, TurnSent)
    && Precedes(marks, SettingsMatched, Admitted)
    && Precedes(marks, Admitted, HandlerReached)
    && Precedes(marks, TurnSent, HandlerReached)
  }

  /** An admitted attempt has matched settings, a finished handshake and a matching init behind it. */
  ghost predicate ProperlyAdmitted(s: Attempt) {
    s.desk.initialized ==> HandshakeComplete(s.codec) && SettingsMatched in s.marks && Admitted in s.marks
  }

  ghost predicate Base(x: Setup, s: Attempt) {
    && Sound(x.wiring, s.codec)
    && Linked(x.wiring, s.codec, s.desk)
    && InOrder(x.budget, s.desk)
    && Q.Proper(s.quota)
    && MarksInOrder(s.marks)
    && ProperlyAdmitted(s)
  }

  /** A decision leaves no quota evidence behind, and a refusal carries whatever evidence there is. */
  ghost predicate EndCarries(end: End, quota: Option<Q.Quota>) {
    match end
    case Decided(_) => quota.None?
    case ForbiddenRole(_) => quota.None?
    case Refused(kind, q) => q == quota && (quota.Some? ==> kind == Q.QuotaSpent)
    case Raised(_) => true
  }

  ghost predicate PhaseFits(s: Attempt) {
    match s.phase
    case Ended(end) => EndCarries(end, s.quota.quota)
    case Open => NothingPending(s.codec, s.desk) && SettingsMatched in s.marks && TurnSent in s.marks
    case _ => NothingPending(s.codec, s.desk) && !s.desk.initialized
  }

  ghost predicate Core(x: Setup, s: Attempt) {
    Base(x, s) && PhaseFits(s)
  }

  /** What never shrinks from one state to a later one. */
  ghost predicate Grows(s: Attempt, t: Attempt) {
    && DeskGrows(s.desk, t.desk)
    && Q.Extends(s.quota.quota, t.quota.quota)
    && s.marks <= t.marks
    && (s.quota.quota.Some? ==> t.desk.dispatched == s.desk.dispatched)
  }

  lemma GrowsOn(s: Attempt, t: Attempt, u: Attempt)
    requires Grows(s, t) && Grows(t, u)
    ensures Grows(s, u)
  {
  }

  lemma MarkKeepsOrder(marks: seq<Mark>, mark: Mark)
    requires MarksInOrder(marks)
    requires mark == SettingsMatched || SettingsMatched in marks
    requires mark == HandlerReached ==> Admitted in marks && TurnSent in marks
    ensures MarksInOrder(marks + [mark])
  {
    var more := marks + [mark];
    forall i | 0 <= i <= |marks| ensures more[..i] == marks[..i] {}
    assert marks[..|marks|] == marks;
  }

  // ---- setup frames never reach the handler ----

  lemma SetupIsForged(frame: JObj)
    requires McpMessage(frame).Some?
    ensures frame["request"].Obj? && ForgeMessage(frame["request"].fields) == McpMessage(frame)
  {
  }

  lemma SetupIsNoCall(w: Wiring, s: Codec, frame: JObj)
    requires IsSetup(frame)
    ensures var v := Receive(w, s, Some(frame)).1; v.Rejected? || (v.Answer? && !v.reply.Serve?)
  {
    hide Dumps, KeyOf, Conflicts, IsTerminal, IsQuotaNotice, Requested, Record, ForgeMessage, McpMessage;
    assert Get(frame, "type") == Str("control_request") by { SetupType(frame); }
    SetupIsForged(frame);
    SetupMethod(McpMessage(frame).value);
  }

  lemma SetupType(frame: JObj)
    requires McpMessage(frame).Some?
    ensures Get(frame, "type") == Str("control_request")
  {
  }

  lemma SetupMethod(message: JObj)
    requires message == map["jsonrpc" := Str("2.0"), "method" := Str("notifications/initialized")]
          || IsListing(message) || IsInitialize(message)
    ensures Get(message, "method") != Str("tools/call")
  {
  }

  // ---- one delivery ----

  ghost predicate Serves(x: Setup, s: Attempt, i: Input)
    requires i.Frame?
  {
    var v := Receive(x.wiring, s.codec, if i.encodable then Some(i.frame) else None).1;
    v.Answer? && v.reply.Serve?
  }

  lemma LinkedAfterHandle(x: Setup, s: Codec, t: Codec, d: Desk, e: Desk, call: Call)
    requires Linked(x.wiring, s, d)
    requires CallsGrow(s, t, Some(call))
    requires call.key in t.tables.calls && call == CallOf(x.wiring, call.key, t.tables.calls[call.key])
    requires forall k :: k in d.admitted ==> k in e.admitted && e.admitted[k] == d.admitted[k]
    requires forall k :: k in e.admitted && k !in d.admitted ==> k == call.key && e.admitted[k].0 == call
    ensures Linked(x.wiring, t, e)
    ensures NothingPending(s, d) && AllBack(e) && call.key in e.admitted ==> NothingPending(t, e)
  {
    forall k | k in e.admitted
      ensures k in t.tables.calls && e.admitted[k].0 == CallOf(x.wiring, k, t.tables.calls[k])
    {
      if k in d.admitted { assert k in s.tables.calls; }
    }
  }

  lemma LinkedAfterCodec(x: Setup, s: Codec, t: Codec, d: Desk)
    requires Linked(x.wiring, s, d) && CallsGrow(s, t, None)
    ensures Linked(x.wiring, t, d)
    ensures NothingPending(s, d) ==> NothingPending(t, d)
  {
  }

  lemma DeliverKeepsRest(x: Setup, s: Attempt, i: Input)
    requires i.Frame?
    ensures var (t, _) := Deliver(x, s, i);
      && t.phase == s.phase && t.quota == s.quota && t.usage == s.usage
      && t.codec == Receive(x.wiring, s.codec, if i.encodable then Some(i.frame) else None).0
      && (!Serves(x, s, i) ==> t.desk == s.desk && t.marks == s.marks)
      && (Serves(x, s, i) ==> t.marks == s.marks + [HandlerReached])
  {
    hide Handle, Receive;
  }

  lemma DeliverKeepsBase(x: Setup, s: Attempt, i: Input)
    requires i.Frame? && Base(x, s) && NothingPending(s.codec, s.desk)
    requires Serves(x, s, i) ==> s.desk.initialized && TurnSent in s.marks
    ensures var (t, d) := Deliver(x, s, i);
      && Base(x, t) && Grows(s, t) && t.desk.initialized == s.desk.initialized
      && (!d.Faulted? ==> NothingPending(t.codec, t.desk))
  {
    hide Receive, Sound, InOrder, Linked, AllBack, Handle, MarksInOrder;
    var line := if i.encodable then Some(i.frame) else None;
    var (codec, v) := Receive(x.wiring, s.codec, line);
    var (t, d) := Deliver(x, s, i);
    DeliverKeepsRest(x, s, i);
    ReceiveKeepsSound(x.wiring, s.codec, line);
    CallsStand(x.wiring, s.codec, line);
    FlagsRise(x.wiring, s.codec, line);
    if Serves(x, s, i) {
      var call := v.reply.call;
      HandleKeepsOrder(x, s.desk, s.quota.quota.Some?, call, i.broker);
      LinkedAfterHandle(x, s.codec, codec, s.desk, t.desk, call);
      MarkKeepsOrder(s.marks, HandlerReached);
    } else {
      LinkedAfterCodec(x, s.codec, codec, s.desk);
    }
  }

  // ---- every step ----

  lemma FailKeeps(x: Setup, s: Attempt, fault: Fault)
    requires Base(x, s)
    ensures Core(x, Fail(s, fault)) && Grows(s, Fail(s, fault))
  {
    hide Sound, InOrder, Linked, MarksInOrder;
  }

  lemma RelayKeeps(x: Setup, s: Attempt, i: Input, next: Phase)
    requires i.Frame? && Core(x, s) && !s.phase.Ended? && IsSetup(i.frame)
    requires next == s.phase || next == Ended(Raised(Protocol))
          || (!s.phase.Open? && (next.Greeting? || next.Configuring?))
    ensures Core(x, Relay(x, s, i, next)) && Grows(s, Relay(x, s, i, next))
  {
    hide Deliver, Base, IsSetup, NothingPending, DeskGrows;
    assert NothingPending(s.codec, s.desk) && !Serves(x, s, i) by { SetupServesNothing(x, s, i); }
    DeliverKeepsBase(x, s, i);
    DeliverKeepsRest(x, s, i);
    var (t, d) := Deliver(x, s, i);
    BaseIgnoresPhase(x, t, next);
    forall fault { FailKeeps(x, t, fault); }
  }

  lemma SetupServesNothing(x: Setup, s: Attempt, i: Input)
    requires i.Frame? && IsSetup(i.frame)
    ensures !Serves(x, s, i)
  {
    hide Receive, IsSetup;
    SetupIsNoCall(x.wiring, s.codec, i.frame);
    NoLineNoCall(x.wiring, s.codec);
  }

  lemma NoLineNoCall(w: Wiring, s: Codec)
    ensures Receive(w, s, None).1 == Rejected
  {
  }

  lemma BaseIgnoresPhase(x: Setup, s: Attempt, next: Phase)
    requires Base(x, s)
    ensures Base(x, s.(phase := next))
  {
    hide Sound, InOrder, Linked, MarksInOrder;
  }

  lemma GreetKeeps(x: Setup, s: Attempt, i: Input)
    requires i.Frame? && Core(x, s) && s.phase.Greeting?
    ensures var t := Greet(x, s, s.phase.frames, i); Core(x, t) && Grows(s, t)
  {
    hide Relay, Base, IsSetup, ResponseTo, DeskGrows, NothingPending;
    var n := s.phase.frames;
    forall fault { FailKeeps(x, s, fault); }
    if IsSetup(i.frame) {
      RelayKeeps(x, s, i, if n + 1 < SETUP_FRAMES then Greeting(n + 1) else Ended(Raised(Protocol)));
    }
    BaseIgnoresPhase(x, s, Configuring(0, None));
    GrowsItself(s, Configuring(0, None));
  }

  lemma GrowsItself(s: Attempt, next: Phase)
    ensures Grows(s, s.(phase := next))
  {
  }

  lemma NoteKeeps(x: Setup, s: Attempt, mark: Mark)
    requires Base(x, s) && mark != HandlerReached
    requires mark == SettingsMatched || SettingsMatched in s.marks
    ensures Base(x, Note(s, mark)) && Grows(s, Note(s, mark)) && mark in Note(s, mark).marks
  {
    hide Sound, InOrder, Linked, MarksInOrder;
    MarkKeepsOrder(s.marks, mark);
    assert (s.marks + [mark])[|s.marks|] == mark;
  }

  lemma AdmitKeeps(x: Setup, s: Attempt)
    requires Base(x, s) && NothingPending(s.codec, s.desk) && HandshakeComplete(s.codec) && SettingsMatched in s.marks
    ensures Base(x, Admit(s)) && Grows(s, Admit(s)) && NothingPending(Admit(s).codec, Admit(s).desk)
  {
    hide Sound, MarksInOrder;
    MarkKeepsOrder(s.marks, Admitted);
    assert (s.marks + [Admitted])[|s.marks|] == Admitted;
    AdmissionKeepsDesk(x, s.codec, s.desk);
  }

  lemma AdmissionKeepsDesk(x: Setup, codec: Codec, d: Desk)
    requires InOrder(x.budget, d) && Linked(x.wiring, codec, d)
    ensures var e := d.(initialized := true); InOrder(x.budget, e) && Linked(x.wiring, codec, e)
  {
    var e := d.(initialized := true);
    assert forall entry :: Filed(d, entry) == Filed(e, entry);
  }

  lemma MatchSettingsKeeps(x: Setup, s: Attempt, init: Option<JObj>, settings: JObj, sendFault: Option<Fault>)
    requires Core(x, s) && s.phase.Configuring?
    ensures var t := MatchSettings(x, s, init, settings, sendFault); Core(x, t) && Grows(s, t)
  {
    hide Base, Admit, Note, DeskGrows, NothingPending, HandshakeComplete, Grows;
    FailKeeps(x, s, Configuration);
    var t := Note(s, SettingsMatched);
    NoteKeeps(x, s, SettingsMatched);
    NoteRest(s, SettingsMatched);
    FailsFrom(x, s, t, Protocol);
    FailsFrom(x, s, t, Configuration);
    if init.None? {
      OpensAfter(x, s, t, sendFault);
    } else if HandshakeComplete(t.codec) {
      var u := Admit(t);
      AdmitKeeps(x, t);
      AdmitRest(t);
      GrowsOn(s, t, u);
      OpensAfter(x, s, u, sendFault);
    }
  }

  lemma GrowsFromItself(s: Attempt)
    ensures Grows(s, s)
  {
  }

  lemma FailGrows(s: Attempt, t: Attempt, fault: Fault)
    requires Grows(s, t)
    ensures Grows(s, Fail(t, fault))
  {
  }

  lemma FailsFrom(x: Setup, s: Attempt, t: Attempt, fault: Fault)
    requires Base(x, t) && Grows(s, t)
    ensures Core(x, Fail(t, fault)) && Grows(s, Fail(t, fault))
  {
    hide Base, Grows;
    FailKeeps(x, t, fault);
    FailGrows(s, t, fault);
  }

  lemma NoteRest(s: Attempt, mark: Mark)
    ensures var t := Note(s, mark);
      && t.desk == s.desk && t.codec == s.codec && t.phase == s.phase && t.quota == s.quota && t.usage == s.usage
      && t.marks == s.marks + [mark]
  {
  }

  lemma AdmitRest(s: Attempt)
    requires SettingsMatched in s.marks
    ensures var t := Admit(s);
      && t.codec == s.codec && t.phase == s.phase && t.quota == s.quota && t.usage == s.usage
      && SettingsMatched in t.marks && (TurnSent in s.marks ==> TurnSent in t.marks)
  {
  }

  lemma OpensAfter(x: Setup, s: Attempt, u: Attempt, sendFault: Option<Fault>)
    requires Base(x, u) && Grows(s, u) && NothingPending(u.codec, u.desk) && SettingsMatched in u.marks
    ensures var t := if sendFault.Some? then Fail(u, sendFault.value) else Note(u, TurnSent).(phase := Open);
      Core(x, t) && Grows(s, t)
  {
    hide Base, DeskGrows, NothingPending;
    if sendFault.Some? {
      FailsFrom(x, s, u, sendFault.value);
    } else {
      var v := Note(u, TurnSent);
      NoteKeeps(x, u, TurnSent);
      BaseIgnoresPhase(x, v, Open);
      GrowsItself(v, Open);
      GrowsOn(s, u, v);
      GrowsOn(s, v, v.(phase := Open));
    }
  }

  lemma ConfigureKeeps(x: Setup, s: Attempt, i: Input)
    requires i.Frame? && Core(x, s) && s.phase.Configuring?
    ensures var t := Configure(x, s, s.phase.frames, s.phase.init, i); Core(x, t) && Grows(s, t)
  {
    hide Relay, Base, IsSetup, IsInit, ResponseTo, Settings, MatchSettings, DeskGrows, NothingPending, HandshakeComplete;
    var n, init := s.phase.frames, s.phase.init;
    forall fault { FailKeeps(x, s, fault); }
    if IsInit(i.frame) {
      BaseIgnoresPhase(x, s, Configuring(n + 1, Some(i.frame)));
      GrowsItself(s, Configuring(n + 1, Some(i.frame)));
    } else {
      match ResponseTo(i.frame, "forge_settings") {
        case Some(response) =>
          var settings := Settings(x, response);
          if settings.Some? { MatchSettingsKeeps(x, s, init, settings.value, i.sendFault); }
        case None =>
          if IsSetup(i.frame) {
            RelayKeeps(x, s, i, if n + 1 >= SETTINGS_FRAMES then Ended(Raised(Protocol)) else Configuring(n + 1, init));
          }
      }
    }
  }

  lemma AwaitInitKeeps(x: Setup, s: Attempt, i: Input)
    requires i.Frame? && Core(x, s) && s.phase.Open?
    ensures var t := AwaitInit(x, s, i); Core(x, t) && Grows(s, t)
  {
    hide Relay, Base, IsPreinit, IsInit, DeskGrows, NothingPending, Admit, Grows, HandshakeComplete;
    forall fault { FailKeeps(x, s, fault); }
    if IsPreinit(i.frame) {
      PreinitIsSetup(i.frame);
      RelayKeeps(x, s, i, Open);
    } else if IsInit(i.frame) && HandshakeComplete(s.codec) {
      AdmitKeeps(x, s);
      AdmitRest(s);
    }
  }

  lemma PreinitIsSetup(frame: JObj)
    requires IsPreinit(frame)
    ensures IsSetup(frame)
  {
  }

  lemma EvidenceExtends(x: Setup, s: Attempt, i: Input)
    requires i.Frame? && Q.Proper(s.quota)
    ensures var (q, failure) := Evidence(x, s, i);
      && Q.Proper(q) && Q.Extends(s.quota.quota, q.quota)
      && (failure.Some? && failure.value.Some? && q.quota.Some? ==> failure.value.value == Q.QuotaSpent)
  {
    Q.NotificationExtends(x.reader, s.quota, i.frame, i.now);
    var noted := Q.Notification(x.reader, s.quota, i.frame, i.now);
    if noted.Some? && Failed(s.codec.terminal) {
      Q.TerminalExtends(x.reader, noted.value, s.codec.terminal.value, i.later);
      Q.ExtendsIsTransitive(
        s.quota.quota, noted.value.quota, Q.Terminal(x.reader, noted.value, s.codec.terminal.value, i.later).0.quota);
    }
  }

  lemma CloseKeeps(x: Setup, s: Attempt, failure: Option<Q.FailureKind>)
    requires Core(x, s) && s.phase.Open?
    requires failure.Some? && s.quota.quota.Some? ==> failure.value == Q.QuotaSpent
    ensures var t := Close(x, s, failure); Core(x, t) && Grows(s, t) && t.quota == s.quota
  {
    hide Sound, Linked, InOrder, MarksInOrder, NothingPending, Usage.ClosingStep, OverBudget;
    if s.codec.terminal.Some? {
      var usage := Usage.ClosingStep(s.usage, Get(s.codec.terminal.value, "usage")).0;
      var end := Conclude(x, s.(usage := usage), s.codec.terminal.value, failure);
      ConclusionCarries(x, s.(usage := usage), s.codec.terminal.value, failure);
    }
  }

  lemma ConclusionCarries(x: Setup, s: Attempt, terminal: JObj, failure: Option<Q.FailureKind>)
    requires failure.Some? && s.quota.quota.Some? ==> failure.value == Q.QuotaSpent
    ensures EndCarries(Conclude(x, s, terminal, failure), s.quota.quota)
  {
  }

  lemma AccountKeeps(x: Setup, s: Attempt, i: Input, replied: bool)
    requires i.Frame? && Core(x, s) && s.phase.Open?
    ensures var t := Account(x, s, i, replied); Core(x, t) && Grows(s, t)
  {
    hide Base, DeskGrows, NothingPending, Evidence, Usage.AssistantStep, OverBudget, Close, Grows;
    var (quota, failure) := Evidence(x, s, i);
    BaseIsProper(x, s);
    EvidenceExtends(x, s, i);
    var t := s.(quota := quota);
    var u := t.(usage := Usage.AssistantStep(t.usage, i.frame, x.wiring.thread).0);
    OnlyMetered(x, s, t);
    OnlyMetered(x, s, u);
    forall fault { FailsFrom(x, s, t, fault); }
    forall fault { FailsFrom(x, s, u, fault); }
    if failure.Some? {
      CloseKeeps(x, u, failure.value);
      GrowsOn(s, u, Close(x, u, failure.value));
    }
  }

  lemma BaseIsProper(x: Setup, s: Attempt)
    requires Base(x, s)
    ensures Q.Proper(s.quota)
  {
    hide Sound, Linked, InOrder, MarksInOrder;
  }

  lemma OnlyMetered(x: Setup, s: Attempt, t: Attempt)
    requires Base(x, s) && Q.Proper(t.quota) && Q.Extends(s.quota.quota, t.quota.quota)
    requires t == s.(quota := t.quota, usage := t.usage)
    ensures Base(x, t) && Grows(s, t)
  {
    hide Sound, Linked, InOrder, MarksInOrder;
  }

  lemma WorkKeeps(x: Setup, s: Attempt, i: Input)
    requires i.Frame? && Core(x, s) && s.phase.Open? && s.desk.initialized
    ensures var t := Work(x, s, i); Core(x, t) && Grows(s, t)
  {
    hide Base, Deliver, DeskGrows, NothingPending, Account, IsInit;
    forall fault { FailKeeps(x, s, fault); }
    assert NothingPending(s.codec, s.desk) && TurnSent in s.marks;
    DeliverKeepsBase(x, s, i);
    DeliverKeepsRest(x, s, i);
    var (t, d) := Deliver(x, s, i);
    if d.Faulted? {
      FailsFrom(x, s, t, d.fault);
    } else {
      assert PhaseFits(t);
      AccountKeeps(x, t, i, d.Replied?);
      GrowsOn(s, t, Account(x, t, i, d.Replied?));
    }
  }

  lemma StepKeeps(x: Setup, s: Attempt, i: Input)
    requires Core(x, s)
    ensures Core(x, Step(x, s, i)) && Grows(s, Step(x, s, i))
  {
    hide Base, Greet, Configure, AwaitInit, Work, DeskGrows, NothingPending, Grows;
    if s.phase.Ended? {
      GrowsFromItself(s);
    } else {
      forall fault { FailKeeps(x, s, fault); }
      if i.Frame? {
        match s.phase {
          case Greeting(_) => GreetKeeps(x, s, i);
          case Configuring(_, _) => ConfigureKeeps(x, s, i);
          case Open => if s.desk.initialized { WorkKeeps(x, s, i); } else { AwaitInitKeeps(x, s, i); }
        }
      }
    }
  }

  lemma StartIsCore(x: Setup)
    ensures Core(x, START)
  {
    IdleIsSound(x.wiring);
  }

  lemma {:induction false} RunKeeps(x: Setup, s: Attempt, inputs: seq<Input>)
    requires Core(x, s)
    ensures Core(x, Play(x, s, inputs)) && Grows(s, Play(x, s, inputs))
    decreases |inputs|
  {
    hide Core, Grows, Step;
    if inputs == [] {
      GrowsFromItself(s);
    } else {
      var t := Step(x, s, inputs[0]);
      StepKeeps(x, s, inputs[0]);
      RunKeeps(x, t, inputs[1..]);
      GrowsOn(s, t, Play(x, t, inputs[1..]));
    }
  }

  // ---- main results ----

  /** No call is ever dispatched twice, and the budget bounds the dispatches and the named checks among them. */
  lemma EachCallIsDispatchedOnce(x: Setup, inputs: seq<Input>)
    ensures var d := Play(x, START, inputs).desk;
      && DistinctKeys(d.dispatched)
      && |d.dispatched| == d.calls <= x.budget.maxCalls
      && Checks(d.dispatched) == d.checks <= x.budget.maxChecks
  {
    hide Play;
    StartIsCore(x);
    RunKeeps(x, START, inputs);
  }

  /** Whatever is returned for a key is the receipt of its one dispatch. */
  lemma ReturnsAgree(x: Setup, inputs: seq<Input>, i: nat, j: nat)
    requires i < |Play(x, START, inputs).desk.returned| && j < |Play(x, START, inputs).desk.returned|
    ensures var d := Play(x, START, inputs).desk;
      && d.returned[i].0 in d.dispatched
      && (d.returned[i].0.key == d.returned[j].0.key ==> d.returned[i] == d.returned[j])
  {
    hide Play;
    StartIsCore(x);
    RunKeeps(x, START, inputs);
    var d := Play(x, START, inputs).desk;
    assert Filed(d, d.returned[i]) && Filed(d, d.returned[j]);
  }

  /** The call a frame makes the codec serve. */
  function ServedCall(x: Setup, s: Attempt, i: Input): Option<Call>
    requires i.Frame?
  {
    ServedBy(Receive(x.wiring, s.codec, if i.encodable then Some(i.frame) else None).1)
  }

  /**
   A replay the codec accepts, that is a served call whose key was recorded before, is answered with the
   receipt of its first dispatch and not sent again.
   */
  lemma ReplayIsAnsweredFromTheTable(x: Setup, inputs: seq<Input>, i: Input)
    requires i.Frame? && x.brokered
    requires var s := Play(x, START, inputs);
      && s.phase.Open? && s.desk.initialized && s.quota.quota.None?
      && ServedCall(x, s, i).Some? && ServedCall(x, s, i).value.key in s.codec.tables.calls
    ensures var s := Play(x, START, inputs);
      && var key := ServedCall(x, s, i).value.key;
      && var (t, d) := Deliver(x, s, i);
      && key in s.desk.admitted
      && d == Replied
      && t.desk == s.desk.(returned := s.desk.returned + [s.desk.admitted[key]])
  {
    hide Play, Receive, Sound, InOrder, MarksInOrder;
    StartIsCore(x);
    RunKeeps(x, START, inputs);
    var s := Play(x, START, inputs);
    CallsStand(x.wiring, s.codec, if i.encodable then Some(i.frame) else None);
  }

  /** While the exchange has not ended, every call the codec has recorded has a receipt filed. */
  lemma RecordedCallsHaveReceipts(x: Setup, inputs: seq<Input>)
    ensures var s := Play(x, START, inputs);
      !s.phase.Ended? ==> forall k :: k in s.codec.tables.calls ==> k in s.desk.admitted
  {
    hide Play, Base, AllBack;
    StartIsCore(x);
    RunKeeps(x, START, inputs);
  }

  lemma {:induction false} RunAppend(x: Setup, s: Attempt, a: seq<Input>, b: seq<Input>)
    ensures Play(x, s, a + b) == Play(x, Play(x, s, a), b)
    decreases |a|
  {
    hide Step;
    if a == [] {
      assert a + b == b;
    } else {
      assert (a + b)[1..] == a[1..] + b;
      RunAppend(x, Step(x, s, a[0]), a[1..], b);
    }
  }

  /**
   Once the allowance is known to be spent, that evidence stays, nothing more is dispatched, and no
   decision can come out of the exchange.
   */
  lemma SpentQuotaStopsWork(x: Setup, inputs: seq<Input>, more: seq<Input>)
    requires Play(x, START, inputs).quota.quota.Some?
    ensures var s := Play(x, START, inputs);
      && var t := Play(x, START, inputs + more);
      && Q.Extends(s.quota.quota, t.quota.quota)
      && t.desk.dispatched == s.desk.dispatched
      && (t.phase.Ended? ==> !t.phase.end.Decided? && !t.phase.end.ForbiddenRole?)
      && (t.phase.Ended? && t.phase.end.Refused? ==> t.phase.end == Refused(Q.QuotaSpent, t.quota.quota))
  {
    hide Play, Base, DeskGrows, NothingPending;
    StartIsCore(x);
    RunKeeps(x, START, inputs);
    RunKeeps(x, Play(x, START, inputs), more);
    RunAppend(x, START, inputs, more);
  }

  /** The step adds a `HandlerReached` mark. */
  ghost predicate Reaches(x: Setup, s: Attempt, i: Input) {
    var marks := Step(x, s, i).marks;
    exists k :: |s.marks| <= k < |marks| && marks[k] == HandlerReached
  }

  lemma RelayLeavesMarks(x: Setup, s: Attempt, i: Input, next: Phase)
    requires i.Frame? && IsSetup(i.frame)
    ensures Relay(x, s, i, next).marks == s.marks
  {
    hide Deliver, IsSetup;
    SetupServesNothing(x, s, i);
    DeliverKeepsRest(x, s, i);
  }

  lemma OnlyWorkReachesHandler(x: Setup, s: Attempt, i: Input)
    requires !(s.phase.Open? && s.desk.initialized)
    ensures !Reaches(x, s, i)
  {
    hide Relay, IsSetup, IsInit, IsPreinit, ResponseTo, Settings, Work, Deliver;
    if i.Frame? {
      forall next | IsSetup(i.frame) { RelayLeavesMarks(x, s, i, next); }
      if IsPreinit(i.frame) { PreinitIsSetup(i.frame); }
    }
  }

  // Which frames admitted the attempt.

  predicate IsSettingsFrame(x: Setup, i: Input) {
    i.Frame?
    && ResponseTo(i.frame, "forge_settings").Some?
    && Settings(x, ResponseTo(i.frame, "forge_settings").value).Some?
    && x.settingsMatch(Settings(x, ResponseTo(i.frame, "forge_settings").value).value)
  }

  predicate IsInitFrame(x: Setup, i: Input) {
    i.Frame? && IsInit(i.frame) && x.initMatches(i.frame)
  }

  ghost predicate SettingsAt(x: Setup, inputs: seq<Input>, n: int) {
    0 <= n < |inputs| && IsSettingsFrame(x, inputs[n])
  }

  ghost predicate InitAt(x: Setup, inputs: seq<Input>, n: int) {
    0 <= n < |inputs| && IsInitFrame(x, inputs[n])
  }

  ghost predicate NotedAt(inputs: seq<Input>, n: int, init: JObj) {
    0 <= n < |inputs| && inputs[n].Frame? && inputs[n].frame == init && IsInit(init)
  }

  function NotedInit(s: Attempt): Option<JObj> {
    if s.phase.Configuring? then s.phase.init else None
  }

  /** What the state claims to have matched is among the inputs. */
  ghost predicate Witnessed(x: Setup, inputs: seq<Input>, s: Attempt) {
    && (SettingsMatched in s.marks ==> exists n :: SettingsAt(x, inputs, n))
    && (s.desk.initialized ==> exists n :: InitAt(x, inputs, n))
    && (NotedInit(s).Some? ==> exists n :: NotedAt(inputs, n, NotedInit(s).value))
  }

  /** Nothing about admission has changed. */
  ghost predicate SameAdmission(s: Attempt, t: Attempt) {
    && (SettingsMatched in t.marks ==> SettingsMatched in s.marks)
    && (t.desk.initialized ==> s.desk.initialized)
  }

  lemma HandleKeepsInitialized(x: Setup, d: Desk, spent: bool, call: Call, broker: BrokerReply)
    ensures Handle(x, d, spent, call, broker).0.initialized == d.initialized
  {
    hide ArgumentsFit, Exhausted;
  }

  lemma DeliverAdmitsNothing(x: Setup, s: Attempt, i: Input)
    requires i.Frame?
    ensures SameAdmission(s, Deliver(x, s, i).0) && Deliver(x, s, i).0.phase == s.phase
  {
    hide Receive, Handle;
    var v := Receive(x.wiring, s.codec, if i.encodable then Some(i.frame) else None).1;
    if v.Answer? && v.reply.Serve? {
      HandleKeepsInitialized(x, s.desk, s.quota.quota.Some?, v.reply.call, i.broker);
    }
  }

  lemma RelayAdmitsNothing(x: Setup, s: Attempt, i: Input, next: Phase)
    requires i.Frame?
    ensures var t := Relay(x, s, i, next); SameAdmission(s, t) && (t.phase == next || t.phase.Ended?)
  {
    hide Deliver;
    DeliverAdmitsNothing(x, s, i);
  }

  lemma WorkAdmitsNothing(x: Setup, s: Attempt, i: Input)
    requires i.Frame? && s.phase.Open?
    ensures SameAdmission(s, Work(x, s, i)) && NotedInit(Work(x, s, i)).None?
  {
    hide Deliver, IsInit, Evidence, Usage.AssistantStep, Usage.ClosingStep, OverBudget, Conclude;
    DeliverAdmitsNothing(x, s, i);
  }

  /** A step admits by the frame it is given or by the init frame it had noted, and notes only that frame. */
  ghost predicate AdmitsBy(x: Setup, s: Attempt, i: Input, t: Attempt) {
    && (SettingsMatched in t.marks ==> SettingsMatched in s.marks || IsSettingsFrame(x, i))
    && (t.desk.initialized ==>
          || s.desk.initialized || IsInitFrame(x, i)
          || (NotedInit(s).Some? && x.initMatches(NotedInit(s).value)))
    && (NotedInit(t).Some? ==> NotedInit(t) == NotedInit(s) || (i.Frame? && IsInit(i.frame) && NotedInit(t) == Some(i.frame)))
  }

  lemma ConfigureAdmits(x: Setup, s: Attempt, i: Input)
    requires i.Frame? && s.phase.Configuring?
    ensures AdmitsBy(x, s, i, Configure(x, s, s.phase.frames, s.phase.init, i))
  {
    hide Relay, IsSetup, IsInit, ResponseTo, Settings, HandshakeComplete;
    var n, init := s.phase.frames, s.phase.init;
    RelayAdmitsNothing(x, s, i, if n + 1 >= SETTINGS_FRAMES then Ended(Raised(Protocol)) else Configuring(n + 1, init));
  }

  lemma GreetAdmits(x: Setup, s: Attempt, i: Input)
    requires i.Frame? && s.phase.Greeting?
    ensures AdmitsBy(x, s, i, Greet(x, s, s.phase.frames, i))
  {
    hide Relay, IsSetup, ResponseTo;
    var n := s.phase.frames;
    RelayAdmitsNothing(x, s, i, if n + 1 < SETUP_FRAMES then Greeting(n + 1) else Ended(Raised(Protocol)));
  }

  lemma StepAdmits(x: Setup, s: Attempt, i: Input)
    ensures AdmitsBy(x, s, i, Step(x, s, i))
  {
    hide Greet, Configure, Relay, Work, IsInit, IsPreinit, HandshakeComplete, IsSettingsFrame;
    if i.Frame? {
      match s.phase {
        case Greeting(_) => GreetAdmits(x, s, i);
        case Configuring(_, _) => ConfigureAdmits(x, s, i);
        case Open =>
          WorkAdmitsNothing(x, s, i);
          RelayAdmitsNothing(x, s, i, Open);
        case Ended(_) =>
      }
    }
  }

  lemma WitnessesStay(x: Setup, inputs: seq<Input>, i: Input, n: int)
    ensures SettingsAt(x, inputs, n) ==> SettingsAt(x, inputs + [i], n)
    ensures InitAt(x, inputs, n) ==> InitAt(x, inputs + [i], n)
    ensures forall init {:trigger NotedAt(inputs, n, init)} :: NotedAt(inputs, n, init) ==> NotedAt(inputs + [i], n, init)
  {
    hide IsSettingsFrame, IsInitFrame, IsInit;
  }

  lemma StepIsWitnessed(x: Setup, inputs: seq<Input>, s: Attempt, i: Input)
    requires Witnessed(x, inputs, s)
    ensures Witnessed(x, inputs + [i], Step(x, s, i))
  {
    hide Step, IsSettingsFrame, IsInit;
    StepAdmits(x, s, i);
    var more, t := inputs + [i], Step(x, s, i);
    assert more[|inputs|] == i;
    if n :| SettingsAt(x, inputs, n) { WitnessesStay(x, inputs, i, n); }
    if n :| InitAt(x, inputs, n) { WitnessesStay(x, inputs, i, n); }
    if IsSettingsFrame(x, i) { assert SettingsAt(x, more, |inputs|); }
    if IsInitFrame(x, i) { assert InitAt(x, more, |inputs|); }
    if i.Frame? && IsInit(i.frame) { assert NotedAt(more, |inputs|, i.frame); }
    if NotedInit(s).Some? {
      var n :| NotedAt(inputs, n, NotedInit(s).value);
      WitnessesStay(x, inputs, i, n);
      if x.initMatches(NotedInit(s).value) { assert InitAt(x, more, n) by { assert more[n] == inputs[n]; } }
    }
  }

  lemma {:induction false} RunIsWitnessed(x: Setup, inputs: seq<Input>)
    ensures Witnessed(x, inputs, Play(x, START, inputs))
  {
    hide Witnessed, Step;
    if inputs == [] {
      assert Witnessed(x, [], START) by { StartIsWitnessed(x); }
    } else {
      var front, i := inputs[..|inputs| - 1], inputs[|inputs| - 1];
      RunIsWitnessed(x, front);
      RunAppend(x, START, front, [i]);
      assert inputs == front + [i] && [i][1..] == [];
      StepIsWitnessed(x, front, Play(x, START, front), i);
      assert Play(x, START, inputs) == Step(x, Play(x, START, front), i);
    }
  }

  lemma StartIsWitnessed(x: Setup)
    ensures Witnessed(x, [], START)
  {
  }

  /**
   The handler is only reached after a settings response that matched and an init frame that matched have
   been received, the user turn has been sent and the MCP handshake completed: its own `not initialized`
   guard never fires.
   */
  lemma HandlerIsReachedOnlyAdmitted(x: Setup, inputs: seq<Input>, i: Input)
    requires Reaches(x, Play(x, START, inputs), i)
    ensures var s := Play(x, START, inputs);
      && s.desk.initialized && HandshakeComplete(s.codec)
      && SettingsMatched in s.marks && TurnSent in s.marks && Admitted in s.marks
    ensures exists n :: SettingsAt(x, inputs, n)
    ensures exists n :: InitAt(x, inputs, n)
  {
    hide Play, Step, Sound, InOrder, Linked, MarksInOrder, DeskGrows, NothingPending, HandshakeComplete, SettingsAt, InitAt;
    StartIsCore(x);
    RunKeeps(x, START, inputs);
    RunIsWitnessed(x, inputs);
    var s := Play(x, START, inputs);
    StepKeeps(x, s, i);
    if !(s.phase.Open? && s.desk.initialized) {
      OnlyWorkReachesHandler(x, s, i);
    }
  }

  /** The user turn is only sent once a settings response that matched has been received. */
  lemma TurnFollowsSettings(x: Setup, inputs: seq<Input>)
    requires TurnSent in Play(x, START, inputs).marks
    ensures exists n :: SettingsAt(x, inputs, n)
  {
    hide Play, Sound, InOrder, Linked, SettingsAt, InitAt;
    StartIsCore(x);
    RunKeeps(x, START, inputs);
    RunIsWitnessed(x, inputs);
    var marks := Play(x, START, inputs).marks;
    var k :| 0 <= k < |marks| && marks[k] == TurnSent;
    assert SettingsMatched in marks[..k];
  }

  /** Settings match before the user turn and before admission, and both come before any tool call. */
  lemma AdmissionComesFirst(x: Setup, inputs: seq<Input>)
    ensures MarksInOrder(Play(x, START, inputs).marks)
  {
    hide Play, MarksInOrder;
    StartIsCore(x);
    RunKeeps(x, START, inputs);
  }

  /** The codec's table and counting invariants hold throughout the exchange. */
  lemma CodecStaysSound(x: Setup, inputs: seq<Input>)
    ensures Sound(x.wiring, Play(x, START, inputs).codec)
  {
    hide Play, Sound;
    StartIsCore(x);
    RunKeeps(x, START, inputs);
  }

  // ---- the exchange as the code runs it ----

  lemma RelayPhase(x: Setup, s: Attempt, i: Input, next: Phase)
    requires i.Frame?
    ensures Relay(x, s, i, next).phase == next || Relay(x, s, i, next).phase.Ended?
  {
    hide Deliver;
  }

  lemma WorkPhase(x: Setup, s: Attempt, i: Input)
    requires i.Frame? && s.phase.Open?
    ensures Work(x, s, i).phase.Open? || Work(x, s, i).phase.Ended?
  {
    hide Deliver, IsInit, Evidence, Usage.AssistantStep, Usage.ClosingStep, OverBudget, Conclude;
    DeliverKeepsRest(x, s, i);
  }

  lemma ConfigurePhase(x: Setup, s: Attempt, i: Input)
    requires i.Frame? && s.phase.Configuring?
    ensures !Configure(x, s, s.phase.frames, s.phase.init, i).phase.Greeting?
  {
    hide Relay, IsSetup, IsInit, ResponseTo, Settings;
    var n, init := s.phase.frames, s.phase.init;
    RelayPhase(x, s, i, if n + 1 >= SETTINGS_FRAMES then Ended(Raised(Protocol)) else Configuring(n + 1, init));
  }

  lemma PhasesAdvance(x: Setup, s: Attempt, i: Input)
    ensures var t := Step(x, s, i);
      && (s.phase.Configuring? ==> !t.phase.Greeting?)
      && (s.phase.Open? ==> t.phase.Open? || t.phase.Ended?)
      && (s.phase.Ended? ==> t == s)
  {
    hide Relay, Work, Configure, Greet, IsInit, IsPreinit;
    if i.Frame? {
      match s.phase {
        case Configuring(_, _) => ConfigurePhase(x, s, i);
        case Open =>
          WorkPhase(x, s, i);
          RelayPhase(x, s, i, Open);
        case _ =>
      }
    }
  }

  lemma {:induction false} EndedStays(x: Setup, s: Attempt, inputs: seq<Input>)
    requires s.phase.Ended?
    ensures Play(x, s, inputs) == s
    decreases |inputs|
  {
    if inputs != [] {
      EndedStays(x, s, inputs[1..]);
    }
  }

  class Exchange {
    const x: Setup
    const codec: ClaudeStreamCodec
    const quota: Q.QuotaState
    const meter: Usage.UsageMeter
    var phase: Phase
    var initialized: bool
    var admitted: map<string, (Call, JObj)>
    var calls: nat
    var checks: nat
    var dispatched: seq<Call>
    var returned: seq<(Call, JObj)>
    var marks: seq<Mark>

    ghost predicate Valid()
      reads this
    {
      codec.w == x.wiring && quota.r == x.reader
    }

    ghost function Table(): Desk
      reads this
    {
      Desk(initialized, admitted, calls, checks, dispatched, returned)
    }

    ghost function State(): Attempt
      reads this, codec, quota, meter
    {
      Attempt(phase, codec.State(), Table(), quota.State(), meter.State(), marks)
    }

    constructor (setup: Setup)
      ensures Valid() && x == setup && State() == START
      ensures fresh(codec) && fresh(quota) && fresh(meter)
    {
      x := setup;
      codec := new ClaudeStreamCodec(setup.wiring);
      quota := new Q.QuotaState(setup.reader);
      meter := new Usage.UsageMeter();
      phase, initialized, admitted, calls, checks := Greeting(0), false, map[], 0, 0;
      dispatched, returned, marks := [], [], [];
    }

    /** The tool handler. A failed broker call has been counted and is not filed. */
    method Call(call: Call, broker: BrokerReply) returns (r: Result<JObj, Fault>)
      modifies `admitted, `calls, `checks, `dispatched, `returned
      ensures (Table(), r) == Handle(x, old(Table()), quota.quota.Some?, call, broker)
    {
      hide ArgumentsFit;
      if !initialized || quota.quota.Some? || call.name !in x.wiring.tools || !x.brokered {
        return Err(Protocol);
      }
      if call.key in admitted {
        if admitted[call.key].0 != call {
          return Err(Protocol);
        }
        returned := returned + [admitted[call.key]];
        return Ok(admitted[call.key].1);
      }
      if !ArgumentsFit(x, call) {
        return Err(Protocol);
      }
      if calls >= x.budget.maxCalls || (call.name == NAMED_CHECK && checks >= x.budget.maxChecks) {
        return Err(Protocol);
      }
      calls := calls + 1;
      checks := checks + IsCheck(call.name);
      dispatched := dispatched + [call];
      if broker.BrokerFails? {
        return Err(broker.fault);
      }
      admitted := admitted[call.key := (call, broker.value)];
      returned := returned + [(call, broker.value)];
      r := Ok(broker.value);
    }

    method Stop(fault: Fault)
      modifies `phase
      ensures State() == Fail(old(State()), fault)
    {
      phase := Ended(Raised(fault));
    }

    method Pass(i: Input) returns (d: Delivery)
      requires Valid() && i.Frame?
      modifies this, codec
      ensures Valid() && (State(), d) == Deliver(x, old(State()), i)
      ensures phase == old(phase)
    {
      hide Handle, Receive;
      var v := codec.Take(if i.encodable then Some(i.frame) else None);
      match v {
        case Rejected => d := Faulted(Protocol);
        case Quiet => d := Silent;
        case Answer(_, reply) =>
          if reply.Serve? {
            var receipt := Call(reply.call, i.broker);
            marks := marks + [HandlerReached];
            d := if receipt.Ok? then Replied else Faulted(receipt.error);
          } else {
            d := Replied;
          }
      }
    }

    method Forward(i: Input, next: Phase)
      requires Valid() && i.Frame?
      modifies this, codec
      ensures Valid() && State() == Relay(x, old(State()), i, next)
    {
      hide Deliver;
      var d := Pass(i);
      if d.Faulted? {
        Stop(d.fault);
      } else if d.Silent? {
        Stop(Protocol);
      } else if i.sendFault.Some? {
        Stop(i.sendFault.value);
      } else {
        phase := next;
      }
    }

    method OnGreeting(i: Input)
      requires Valid() && i.Frame? && phase.Greeting?
      modifies this, codec
      ensures Valid() && State() == Greet(x, old(State()), old(phase).frames, i)
    {
      hide Relay, IsSetup, ResponseTo;
      if Get(i.frame, "type") == Str("control_request") {
        if !IsSetup(i.frame) {
          Stop(Protocol);
        } else {
          var n := phase.frames + 1;
          Forward(i, if n < SETUP_FRAMES then Greeting(n) else Ended(Raised(Protocol)));
        }
        return;
      }
      var response := ResponseTo(i.frame, "forge_initialize");
      if response.None? || Get(response.value, "subtype") != Str("success") || !Get(response.value, "response").Obj? {
        Stop(Protocol);
      } else if i.sendFault.Some? {
        Stop(i.sendFault.value);
      } else {
        phase := Configuring(0, None);
      }
    }

    method CheckSettings(init: Option<JObj>, settings: JObj, sendFault: Option<Fault>)
      requires Valid()
      modifies `phase, `marks, `initialized
      ensures State() == MatchSettings(x, old(State()), init, settings, sendFault)
    {
      if !x.settingsMatch(settings) {
        Stop(Configuration);
        return;
      }
      marks := marks + [SettingsMatched];
      if init.Some? {
        if !(codec.initialized && codec.notified && codec.listed) {
          Stop(Protocol);
          return;
        }
        if !x.initMatches(init.value) {
          Stop(Configuration);
          return;
        }
        initialized := true;
        marks := marks + [Admitted];
      }
      if sendFault.Some? {
        Stop(sendFault.value);
        return;
      }
      marks := marks + [TurnSent];
      phase := Open;
    }

    method OnSettings(i: Input)
      requires Valid() && i.Frame? && phase.Configuring?
      modifies this, codec
      ensures Valid() && State() == Configure(x, old(State()), old(phase).frames, old(phase).init, i)
    {
      hide Relay, IsSetup, IsInit, ResponseTo, Settings, MatchSettings;
      var n, init := phase.frames + 1, phase.init;
      if IsInit(i.frame) {
        if init.Some? || !(codec.initialized && codec.notified && codec.listed) || n >= SETTINGS_FRAMES {
          Stop(Protocol);
        } else {
          phase := Configuring(n, Some(i.frame));
        }
        return;
      }
      var response := ResponseTo(i.frame, "forge_settings");
      if response.Some? {
        var settings := Settings(x, response.value);
        if settings.None? {
          Stop(Configuration);
        } else {
          CheckSettings(init, settings.value, i.sendFault);
        }
      } else if !IsSetup(i.frame) {
        Stop(Protocol);
      } else {
        Forward(i, if n >= SETTINGS_FRAMES then Ended(Raised(Protocol)) else Configuring(n, init));
      }
    }

    method OnAwaiting(i: Input)
      requires Valid() && i.Frame?
      modifies this, codec
      ensures Valid() && State() == AwaitInit(x, old(State()), i)
    {
      hide Relay, IsPreinit, IsInit;
      if IsPreinit(i.frame) {
        Forward(i, Open);
      } else if !IsInit(i.frame) || !(codec.initialized && codec.notified && codec.listed) {
        Stop(Protocol);
      } else if !x.initMatches(i.frame) {
        Stop(Configuration);
      } else {
        initialized := true;
        marks := marks + [Admitted];
      }
    }

    method Gather(i: Input) returns (failure: Option<Option<Q.FailureKind>>)
      requires Valid() && i.Frame?
      modifies quota
      ensures (quota.State(), failure) == Evidence(x, old(State()), i)
    {
      hide Q.Notification, Q.Terminal;
      var ok := quota.Notify(i.frame, i.now);
      if !ok {
        return None;
      }
      if !Failed(codec.terminal) {
        return Some(None);
      }
      var kind := quota.End(codec.terminal.value, i.later);
      failure := if kind.None? then None else Some(kind);
    }

    method Spent() returns (over: bool)
      ensures over == OverBudget(x.budget, meter.State())
    {
      var b := x.budget;
      over := (b.maxInput.Some? && meter.input.Some? && meter.input.value > b.maxInput.value)
              || (b.maxOutput.Some? && meter.output.Some? && meter.output.value > b.maxOutput.value);
    }

    method Finish(failure: Option<Q.FailureKind>)
      requires Valid()
      modifies `phase, meter
      ensures State() == Close(x, old(State()), failure)
    {
      hide Usage.ClosingStep, OverBudget;
      if codec.terminal.None? {
        return;
      }
      var terminal := codec.terminal.value;
      var v := meter.Observe(Get(terminal, "usage"));
      var over := Spent();
      if v.Refused? || over {
        Stop(Protocol);
        return;
      }
      var output := Get(terminal, "structured_output");
      if failure.Some? {
        phase := Ended(Refused(failure.value, quota.quota));
      } else if quota.quota.Some? || !output.Obj? || output.fields.Keys != {"decision"} {
        Stop(Protocol);
      } else {
        match x.decode(output.fields["decision"]) {
          case Decision(decision) => phase := Ended(Decided(decision));
          case Forbidden(kind) => phase := Ended(ForbiddenRole(kind));
          case Undecodable => Stop(Protocol);
        }
      }
    }

    method OnWork(i: Input)
      requires Valid() && i.Frame?
      modifies this, codec, quota, meter
      ensures Valid() && State() == Work(x, old(State()), i)
    {
      hide Deliver, IsInit, Evidence, Usage.AssistantStep, OverBudget, Close;
      if IsInit(i.frame) {
        Stop(Protocol);
        return;
      }
      var d := Pass(i);
      if d.Faulted? {
        Stop(d.fault);
        return;
      }
      var failure := Gather(i);
      if failure.None? {
        Stop(Protocol);
        return;
      }
      var v := meter.ObserveAssistant(i.frame, x.wiring.thread);
      var over := Spent();
      if v.Refused? || over {
        Stop(Protocol);
      } else if d.Replied? && i.sendFault.Some? {
        Stop(i.sendFault.value);
      } else {
        Finish(failure.value);
      }
    }

    method Take(i: Input)
      requires Valid()
      modifies this, codec, quota, meter
      ensures Valid() && State() == Step(x, old(State()), i)
    {
      hide Greet, Configure, AwaitInit, Work;
      match i {
        case Eof => if !phase.Ended? { Stop(Protocol); }
        case Broken(fault) => if !phase.Ended? { Stop(fault); }
        case Frame(_, _, _, _, _, _) =>
          match phase {
            case Greeting(_) => OnGreeting(i);
            case Configuring(_, _) => OnSettings(i);
            case Open => if initialized { OnWork(i); } else { OnAwaiting(i); }
            case Ended(_) =>
          }
      }
    }

    /** The three loops; a script that runs out leaves the exchange waiting. */
    method Converse(script: seq<Input>)
      requires Valid() && State() == START
      modifies this, codec, quota, meter
      ensures Valid() && State() == Play(x, START, script)
    {
      hide Step;
      var n := 0;
      while n < |script| && phase.Greeting?
        invariant Valid() && n <= |script| && Play(x, START, script) == Play(x, State(), script[n..])
      {
        assert script[n..][1..] == script[n + 1..];
        Take(script[n]);
        n := n + 1;
      }
      while n < |script| && phase.Configuring?
        invariant Valid() && n <= |script| && Play(x, START, script) == Play(x, State(), script[n..])
        invariant n < |script| ==> !phase.Greeting?
      {
        assert script[n..][1..] == script[n + 1..];
        PhasesAdvance(x, State(), script[n]);
        Take(script[n]);
        n := n + 1;
      }
      while n < |script| && phase.Open?
        invariant Valid() && n <= |script| && Play(x, START, script) == Play(x, State(), script[n..])
        invariant n < |script| ==> phase.Open? || phase.Ended?
      {
        assert script[n..][1..] == script[n + 1..];
        PhasesAdvance(x, State(), script[n]);
        Take(script[n]);
        n := n + 1;
      }
      if n < |script| {
        EndedStays(x, State(), script[n..]);
      }
    }
  }
}
