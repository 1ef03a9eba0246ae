/**
 The stream-json control codec of one Claude attempt: the three-step MCP handshake, the four
 identity tables of tool calls with replay detection, and the absorbing terminal frame.
 */
module ClaudeCodec {
  import opened Prelude
  import opened CallKey

  const MAX_REQUESTS: nat := 1024
  const MAX_CALLS: nat := 1024

  /** The fixed part of one codec; `digest` is the hash of a call key. */
  datatype Wiring = Wiring(thread: string, turn: string, tools: set<string>, digest: string -> string)

  /** A hash without collisions on the texts it is given. */
  ghost predicate Injective(digest: string -> string) {
    forall x, y :: digest(x) == digest(y) ==> x == y
  }

  datatype Fingerprint = Fingerprint(name: string, arguments: JObj, toolUseId: string)

  datatype Tables = Tables(
    calls: map<string, Fingerprint>, toolUseIds: map<string, string>,
    callToolUseIds: map<string, string>, mcpIds: map<string, string>)

  datatype Codec = Codec(
    requests: set<string>, tables: Tables,
    initialized: bool, notified: bool, listed: bool, terminal: Option<JObj>)

  const IDLE := Codec({}, Tables(map[], map[], map[], map[]), false, false, false, None)

  /** What the tool handler is asked to do. */
  datatype Call = Call(key: string, thread: string, turn: string, name: string, arguments: JObj)

  datatype Reply = Notified | Initialized(id: Json, version: string) | Listed(id: Json) | Serve(id: Json, call: Call)

  /** `Serve` replies are completed by the handler's receipt. */
  datatype Verdict = Rejected | Quiet | Answer(requestId: string, reply: Reply)

  predicate HandshakeComplete(s: Codec) {
    s.initialized && s.notified && s.listed
  }

  // ---- MCP messages ----

  function Params(message: JObj): Json {
    if "params" in message then message["params"] else Obj(map[])
  }

  function Notify(s: Codec, message: JObj): (Codec, Option<Reply>) {
    if Get(message, "method") != Str("notifications/initialized") || message.Keys != {"jsonrpc", "method"}
       || !s.initialized || s.notified then (s, None)
    else (s.(notified := true), Some(Notified))
  }

  function Initialize(s: Codec, id: Json, params: JObj): (Codec, Option<Reply>) {
    var version := Get(params, "protocolVersion");
    if !(params.Keys <= {"protocolVersion", "capabilities", "clientInfo"}) || !version.Str? || s.initialized then (s, None)
    else (s.(initialized := true), Some(Initialized(id, version.s)))
  }

  function ListTools(s: Codec, id: Json, params: JObj): (Codec, Option<Reply>) {
    if params != map[] || !s.notified || s.listed then (s, None)
    else (s.(listed := true), Some(Listed(id)))
  }

  /** The verified tool-use id of a call's metadata. */
  function ToolUseId(metadata: Json): Option<string> {
    if !metadata.Obj? || metadata.fields.Keys != {"claudecode/toolUseId", "progressToken"} then None
    else
      var token := metadata.fields["progressToken"];
      var id := metadata.fields["claudecode/toolUseId"];
      if (token.Str? || token.Int?) && id.Str? && 1 <= |id.s| <= 128 then Some(id.s) else None
  }

  /** The named tool, its arguments and its tool-use id, when the parameters have the one permitted shape. */
  function Requested(w: Wiring, params: JObj): Option<Fingerprint> {
    if params.Keys != {"name", "arguments"} && params.Keys != {"name", "arguments", "_meta"} then None
    else
      var name, arguments := params["name"], params["arguments"];
      if !name.Str? || !arguments.Obj? || name.s !in w.tools then None
      else
        match ToolUseId(Get(params, "_meta"))
        case None => None
        case Some(id) => Some(Fingerprint(name.s, arguments.fields, id))
  }

  function KeyOf(w: Wiring, mcpId: string, toolUseId: string): string {
    w.digest(Preimage(mcpId, toolUseId))
  }

  /** Whether a table already binds an id to some other key. */
  predicate BoundElsewhere(table: map<string, string>, id: string, key: string) {
    id in table && table[id] != key
  }

  predicate Conflicts(t: Tables, mcpId: string, key: string, f: Fingerprint) {
    || BoundElsewhere(t.toolUseIds, f.toolUseId, key)
    || BoundElsewhere(t.mcpIds, mcpId, key)
    || (key in t.calls && t.calls[key] != f)
  }

  function Record(t: Tables, mcpId: string, key: string, f: Fingerprint): Tables {
    Tables(t.calls[key := f], t.toolUseIds[f.toolUseId := key], t.callToolUseIds[key := f.toolUseId], t.mcpIds[mcpId := key])
  }

  function CallTool(w: Wiring, s: Codec, id: Json, params: JObj): (Codec, Option<Reply>)
    requires IsIdent(id)
  {
    match Requested(w, params)
    case None => (s, None)
    case Some(f) =>
      var mcpId := Dumps(id);
      var key := KeyOf(w, mcpId, f.toolUseId);
      if !s.listed || Conflicts(s.tables, mcpId, key, f) || |s.tables.calls| >= MAX_CALLS then (s, None)
      else
        (s.(tables := Record(s.tables, mcpId, key, f)),
         Some(Serve(id, Call(key, w.thread, w.turn, f.name, f.arguments))))
  }

  const NOTIFICATIONS: string := "notifications/"

  function Mcp(w: Wiring, s: Codec, message: JObj): (Codec, Option<Reply>) {
    var name, id, params := Get(message, "method"), Get(message, "id"), Params(message);
    if Get(message, "jsonrpc") != Str("2.0") || !(message.Keys <= {"jsonrpc", "id", "method", "params"})
       || !name.Str? || !params.Obj? then (s, None)
    else if NOTIFICATIONS <= name.s then Notify(s, message)
    else if !IsIdent(id) then (s, None)
    else if name.s == "initialize" then Initialize(s, id, params.fields)
    else if !s.initialized then (s, None)
    else if name.s == "tools/list" then ListTools(s, id, params.fields)
    else if name.s == "tools/call" then CallTool(w, s, id, params.fields)
    else (s, None)
  }

  // ---- frames ----

  function ForgeMessage(request: JObj): Option<JObj> {
    if Get(request, "subtype") != Str("mcp_message") || !(request.Keys <= {"subtype", "server_name", "message"})
       || Get(request, "server_name") != Str("forge") then None
    else GetObj(request, "message")
  }

  /** The identified request of a control frame. */
  function Identified(s: Codec, frame: JObj): Option<(string, JObj)> {
    if frame.Keys != {"type", "request_id", "request"} then None
    else
      var id, request := frame["request_id"], frame["request"];
      if !id.Str? || id.s == "" || id.s in s.requests || !request.Obj? then None else Some((id.s, request.fields))
  }

  function ControlRequest(w: Wiring, s: Codec, frame: JObj): (Codec, Verdict) {
    match Identified(s, frame)
    case None => (s, Rejected)
    case Some((id, request)) =>
      if |s.requests| >= MAX_REQUESTS then (s, Rejected)
      else
        var t := s.(requests := s.requests + {id});
        match ForgeMessage(request)
        case None => (t, Rejected)
        case Some(message) =>
          var (u, reply) := Mcp(w, t, message);
          (u, if reply.Some? then Answer(id, reply.value) else Rejected)
  }

  const TERMINAL_KEYS: set<string> := {
    "type", "subtype", "structured_output", "session_id", "duration_ms", "duration_api_ms", "num_turns", "usage",
    "model_usage", "modelUsage", "total_cost_usd", "is_error", "stop_reason", "errors", "uuid", "result",
    "permission_denials", "api_error_status", "terminal_reason", "origin", "deferred_tool_use",
    "fast_mode_disabled_reason", "fast_mode_state", "first_content_frame_ms", "queued_turn_count", "subagent_stats",
    "time_to_request_ms", "ttft_ms", "ttft_stream_ms"}

  predicate HumanOrigin(origin: Json) {
    origin.Null? || (origin.Obj? && Get(origin.fields, "kind") == Str("human"))
  }

  predicate CompletedTurn(frame: JObj) {
    && Get(frame, "subtype") == Str("success")
    && Get(frame, "terminal_reason") in {Null, Str("completed")}
    && Get(frame, "deferred_tool_use").Null?
    && Get(frame, "structured_output").Obj?
  }

  predicate IsTerminal(w: Wiring, frame: JObj) {
    && frame.Keys <= TERMINAL_KEYS
    && Get(frame, "session_id") == Str(w.thread)
    && Get(frame, "is_error").Bool?
    && Get(frame, "subtype").Str?
    && HumanOrigin(Get(frame, "origin"))
    && (Get(frame, "is_error") == Bool(true) || CompletedTurn(frame))
  }

  predicate IsQuotaNotice(w: Wiring, frame: JObj) {
    var info, id := Get(frame, "rate_limit_info"), Get(frame, "uuid");
    && frame.Keys == {"type", "session_id", "uuid", "rate_limit_info"}
    && Get(frame, "session_id") == Str(w.thread)
    && id.Str? && 1 <= |id.s| <= 128
    && info.Obj?
    && Get(info.fields, "status") in {Str("allowed"), Str("allowed_warning"), Str("rejected")}
    && (Get(info.fields, "rateLimitType").Null? || Get(info.fields, "rateLimitType").Str?)
  }

  /** `None` stands for a line that is too long or does not parse to an object. */
  function Receive(w: Wiring, s: Codec, line: Option<JObj>): (Codec, Verdict) {
    if s.terminal.Some? || line.None? then (s, Rejected)
    else
      var frame := line.value;
      var kind := Get(frame, "type");
      if kind == Str("control_request") then ControlRequest(w, s, frame)
      else if kind == Str("result") then
        if IsTerminal(w, frame) then (s.(terminal := Some(frame)), Quiet) else (s, Rejected)
      else if kind == Str("rate_limit_event") then (s, if IsQuotaNotice(w, frame) then Quiet else Rejected)
      else (s, if kind in {Str("system"), Str("assistant"), Str("user"), Str("stream_event")} then Quiet else Rejected)
  }

  // ---- the codec as the code keeps it ----

  class ClaudeStreamCodec {
    const w: Wiring
    var requests: set<string>
    var calls: map<string, Fingerprint>
    var toolUseIds: map<string, string>
    var callToolUseIds: map<string, string>
    var mcpIds: map<string, string>
    var initialized: bool
    var notified: bool
    var listed: bool
    var terminal: Option<JObj>

    ghost function State(): Codec
      reads this
    {
      Codec(requests, Tables(calls, toolUseIds, callToolUseIds, mcpIds), initialized, notified, listed, terminal)
    }

    constructor (wiring: Wiring)
      ensures State() == IDLE && w == wiring
    {
      w := wiring;
      requests, calls, toolUseIds, callToolUseIds, mcpIds := {}, map[], map[], map[], map[];
      initialized, notified, listed, terminal := false, false, false, None;
    }

    method ToolsCall(id: Json, params: JObj) returns (reply: Option<Reply>)
      requires IsIdent(id)
      modifies `calls, `toolUseIds, `callToolUseIds, `mcpIds
      ensures (State(), reply) == CallTool(w, old(State()), id, params)
    {
      var requested := Requested(w, params);
      if requested.None? || !listed {
        return None;
      }
      var f := requested.value;
      var mcpId := Dumps(id);
      var key := w.digest(Preimage(mcpId, f.toolUseId));
      if f.toolUseId in toolUseIds && toolUseIds[f.toolUseId] != key {
        return None;
      }
      if mcpId in mcpIds && mcpIds[mcpId] != key {
        return None;
      }
      if key in calls && calls[key] != f {
        return None;
      }
      if |calls| >= MAX_CALLS {
        return None;
      }
      calls := calls[key := f];
      toolUseIds := toolUseIds[f.toolUseId := key];
      callToolUseIds := callToolUseIds[key := f.toolUseId];
      mcpIds := mcpIds[mcpId := key];
      reply := Some(Serve(id, Call(key, w.thread, w.turn, f.name, f.arguments)));
    }

    method Handshake(message: JObj) returns (reply: Option<Reply>)
      requires Get(message, "method").Str? && Params(message).Obj?
      requires var name := Get(message, "method").s;
        || NOTIFICATIONS <= name
        || (IsIdent(Get(message, "id")) && (name == "initialize" || (initialized && name == "tools/list")))
      modifies `initialized, `notified, `listed
      ensures var name, id, params := Get(message, "method").s, Get(message, "id"), Params(message).fields;
        (State(), reply) ==
          if NOTIFICATIONS <= name then Notify(old(State()), message)
          else if name == "initialize" then Initialize(old(State()), id, params)
          else ListTools(old(State()), id, params)
    {
      var name, id, params := Get(message, "method").s, Get(message, "id"), Params(message).fields;
      reply := None;
      if NOTIFICATIONS <= name {
        if name == "notifications/initialized" && message.Keys == {"jsonrpc", "method"} && initialized && !notified {
          notified := true;
          reply := Some(Notified);
        }
      } else if name == "initialize" {
        var version := Get(params, "protocolVersion");
        if params.Keys <= {"protocolVersion", "capabilities", "clientInfo"} && version.Str? && !initialized {
          initialized := true;
          reply := Some(Initialized(id, version.s));
        }
      } else if params == map[] && notified && !listed {
        listed := true;
        reply := Some(Listed(id));
      }
    }

    method Message(message: JObj) returns (reply: Option<Reply>)
      modifies `calls, `toolUseIds, `callToolUseIds, `mcpIds, `initialized, `notified, `listed
      ensures (State(), reply) == Mcp(w, old(State()), message)
    {
      hide Initialize, Notify, ListTools, CallTool;
      var name, id, params := Get(message, "method"), Get(message, "id"), Params(message);
      if Get(message, "jsonrpc") != Str("2.0") || !(message.Keys <= {"jsonrpc", "id", "method", "params"})
         || !name.Str? || !params.Obj? {
        return None;
      }
      if NOTIFICATIONS <= name.s {
        reply := Handshake(message);
      } else if !IsIdent(id) {
        reply := None;
      } else if name.s == "initialize" {
        reply := Handshake(message);
      } else if !initialized {
        reply := None;
      } else if name.s == "tools/list" {
        reply := Handshake(message);
      } else if name.s == "tools/call" {
        reply := ToolsCall(id, params.fields);
      } else {
        reply := None;
      }
    }

    /** The request id is taken before anything else about the request is checked. */
    method Control(frame: JObj) returns (v: Verdict)
      modifies this
      ensures (State(), v) == ControlRequest(w, old(State()), frame)
    {
      hide Mcp;
      if frame.Keys != {"type", "request_id", "request"} {
        return Rejected;
      }
      var id, request := frame["request_id"], frame["request"];
      if !id.Str? || id.s == "" || id.s in requests || !request.Obj? || |requests| >= MAX_REQUESTS {
        return Rejected;
      }
      requests := requests + {id.s};
      var message := ForgeMessage(request.fields);
      if message.None? {
        return Rejected;
      }
      var reply := Message(message.value);
      v := if reply.Some? then Answer(id.s, reply.value) else Rejected;
    }

    method Take(line: Option<JObj>) returns (v: Verdict)
      modifies this
      ensures (State(), v) == Receive(w, old(State()), line)
    {
      hide ControlRequest;
      if terminal.Some? || line.None? {
        return Rejected;
      }
      var frame := line.value;
      var kind := Get(frame, "type");
      if kind == Str("control_request") {
        v := Control(frame);
      } else if kind == Str("result") {
        if !IsTerminal(w, frame) {
          return Rejected;
        }
        terminal := Some(frame);
        v := Quiet;
      } else if kind == Str("rate_limit_event") {
        v := if IsQuotaNotice(w, frame) then Quiet else Rejected;
      } else {
        v := if kind in {Str("system"), Str("assistant"), Str("user"), Str("stream_event")} then Quiet else Rejected;
      }
    }
  }

  // ---- the identity tables ----

  /** Tool-use ids and call keys are inverse to each other, and the keys are those of the calls. */
  ghost predicate Inverse(t: Tables) {
    && (forall id :: id in t.toolUseIds ==>
          t.toolUseIds[id] in t.callToolUseIds && t.callToolUseIds[t.toolUseIds[id]] == id)
    && (forall k :: k in t.callToolUseIds ==>
          t.callToolUseIds[k] in t.toolUseIds && t.toolUseIds[t.callToolUseIds[k]] == k)
    && t.calls.Keys == t.callToolUseIds.Keys
    && (forall k :: k in t.calls ==> t.calls[k].toolUseId == t.callToolUseIds[k])
  }

  /** Every key is the hash of its MCP id and its tool-use id. */
  ghost predicate Owned(w: Wiring, t: Tables) {
    && (forall m :: m in t.mcpIds ==> Hashed(w, t, m))
    && (forall k :: k in t.calls ==> exists m :: m in t.mcpIds && t.mcpIds[m] == k)
  }

  ghost predicate Matched(w: Wiring, t: Tables) {
    Inverse(t) && Owned(w, t)
  }

  ghost predicate Hashed(w: Wiring, t: Tables, m: string)
    requires m in t.mcpIds
  {
    var k := t.mcpIds[m];
    NUL !in m && k in t.callToolUseIds && k == KeyOf(w, m, t.callToolUseIds[k])
  }

  lemma RecordKeepsInverse(t: Tables, mcpId: string, key: string, f: Fingerprint)
    requires Inverse(t) && !Conflicts(t, mcpId, key, f)
    ensures Inverse(Record(t, mcpId, key, f))
    ensures key in t.callToolUseIds ==> t.callToolUseIds[key] == f.toolUseId
  {
    assert f.toolUseId in t.toolUseIds ==> t.toolUseIds[f.toolUseId] == key;
  }

  lemma RecordKeepsMatched(w: Wiring, t: Tables, mcpId: string, f: Fingerprint)
    requires Matched(w, t) && NUL !in mcpId
    requires !Conflicts(t, mcpId, KeyOf(w, mcpId, f.toolUseId), f)
    ensures Matched(w, Record(t, mcpId, KeyOf(w, mcpId, f.toolUseId), f))
  {
    hide KeyOf, Inverse;
    var key := KeyOf(w, mcpId, f.toolUseId);
    var r := Record(t, mcpId, key, f);
    RecordKeepsInverse(t, mcpId, key, f);
    forall m | m in r.mcpIds ensures Hashed(w, r, m) {
      if m != mcpId { assert Hashed(w, t, m); }
    }
    forall k | k in r.calls ensures exists m :: m in r.mcpIds && r.mcpIds[m] == k {
      if k == key {
        assert mcpId in r.mcpIds && r.mcpIds[mcpId] == k;
      } else {
        var m :| m in t.mcpIds && t.mcpIds[m] == k;
        MovedOnlyOne(t.mcpIds, mcpId, key, m);
      }
    }
  }

  lemma MovedOnlyOne(table: map<string, string>, id: string, key: string, m: string)
    requires m in table && !BoundElsewhere(table, id, key)
    ensures table[id := key][m] == table[m]
  {
  }

  /** Without hash collisions a key belongs to one MCP id. */
  lemma OneMcpId(w: Wiring, t: Tables, m: string, n: string, toolUseId: string)
    requires Injective(w.digest) && Matched(w, t)
    requires m in t.mcpIds && NUL !in n && t.mcpIds[m] == KeyOf(w, n, toolUseId)
    ensures m == n && t.callToolUseIds[t.mcpIds[m]] == toolUseId
  {
    hide Preimage;
    assert Hashed(w, t, m);
    PreimageIsInjective(m, n, t.callToolUseIds[t.mcpIds[m]], toolUseId);
  }

  predicate IsNew(t: Tables, mcpId: string, f: Fingerprint) {
    f.toolUseId !in t.toolUseIds && mcpId !in t.mcpIds
  }

  predicate IsReplay(t: Tables, key: string, f: Fingerprint) {
    key in t.calls && t.calls[key] == f
  }

  /** A call passes the replay checks exactly when both its ids are new, or it repeats an earlier call in full. */
  lemma AdmissibleIff(w: Wiring, t: Tables, mcpId: string, f: Fingerprint)
    requires Injective(w.digest) && Matched(w, t) && NUL !in mcpId
    ensures var key := KeyOf(w, mcpId, f.toolUseId);
      !Conflicts(t, mcpId, key, f) <==> IsNew(t, mcpId, f) || IsReplay(t, key, f)
  {
    hide KeyOf;
    var key := KeyOf(w, mcpId, f.toolUseId);
    if key in t.calls {
      var m :| m in t.mcpIds && t.mcpIds[m] == key;
      OneMcpId(w, t, m, mcpId, f.toolUseId);
    }
    if mcpId in t.mcpIds { assert Hashed(w, t, mcpId); }
  }

  /** A replay writes back what the tables already hold. */
  lemma ReplayChangesNoTable(w: Wiring, t: Tables, mcpId: string, f: Fingerprint)
    requires Injective(w.digest) && Matched(w, t) && NUL !in mcpId
    requires IsReplay(t, KeyOf(w, mcpId, f.toolUseId), f)
    ensures Record(t, mcpId, KeyOf(w, mcpId, f.toolUseId), f) == t
  {
    hide KeyOf;
    var key := KeyOf(w, mcpId, f.toolUseId);
    var m :| m in t.mcpIds && t.mcpIds[m] == key;
    OneMcpId(w, t, m, mcpId, f.toolUseId);
    assert t.calls[key := f] == t.calls && t.mcpIds[mcpId := key] == t.mcpIds;
    assert t.callToolUseIds[key := f.toolUseId] == t.callToolUseIds;
    assert t.toolUseIds[f.toolUseId := key] == t.toolUseIds;
  }

  // ---- whole runs ----

  function HandshakeSteps(s: Codec): nat {
    (if s.initialized then 1 else 0) + (if s.notified then 1 else 0) + (if s.listed then 1 else 0)
  }

  /** Calls come only after the listing, the listing after the notification, that after initialize. */
  ghost predicate Ordered(s: Codec) {
    && (s.tables.calls != map[] ==> s.listed)
    && (s.listed ==> s.notified)
    && (s.notified ==> s.initialized)
  }

  /** Every handshake step and every call has spent a request of its own. */
  ghost predicate Counted(s: Codec) {
    |s.tables.calls| + HandshakeSteps(s) <= |s.requests| <= MAX_REQUESTS
  }

  ghost predicate Sound(w: Wiring, s: Codec) {
    Matched(w, s.tables) && Ordered(s) && Counted(s)
  }

  /** What an MCP message changes: at most one flag or one call, in order, and only if it is answered. */
  lemma McpSpendsOne(w: Wiring, s: Codec, message: JObj)
    ensures var (t, reply) := Mcp(w, s, message);
      && t.requests == s.requests && t.terminal == s.terminal
      && |t.tables.calls| + HandshakeSteps(t) <= |s.tables.calls| + HandshakeSteps(s) + 1
      && (Ordered(s) ==> Ordered(t))
      && (reply.None? ==> t == s)
  {
    hide Requested, KeyOf, Dumps, Conflicts;
  }

  lemma CallToolKeepsFlags(w: Wiring, s: Codec, id: Json, params: JObj)
    requires IsIdent(id)
    ensures var (t, reply) := CallTool(w, s, id, params);
      && t.initialized == s.initialized && t.notified == s.notified && t.listed == s.listed
      && (reply.Some? ==> reply.value.Serve? && s.listed)
  {
    hide Requested, KeyOf, Dumps, Conflicts, Record;
  }

  lemma McpRaisesFlags(w: Wiring, s: Codec, message: JObj)
    ensures var (t, reply) := Mcp(w, s, message);
      && (s.initialized ==> t.initialized) && (s.notified ==> t.notified) && (s.listed ==> t.listed)
      && (t.initialized && !s.initialized ==> reply.Some? && reply.value.Initialized?)
      && (t.notified && !s.notified ==> reply.Some? && reply.value.Notified? && s.initialized)
      && (t.listed && !s.listed ==> reply.Some? && reply.value.Listed? && s.notified)
      && (reply.Some? && reply.value.Serve? ==> s.listed)
  {
    hide CallTool, Dumps;
    if IsIdent(Get(message, "id")) && Params(message).Obj? {
      CallToolKeepsFlags(w, s, Get(message, "id"), Params(message).fields);
    }
  }

  lemma McpKeepsMatched(w: Wiring, s: Codec, message: JObj)
    requires Matched(w, s.tables)
    ensures Matched(w, Mcp(w, s, message).0.tables)
  {
    hide Matched, Requested, Conflicts, KeyOf, Record, Initialize, Notify, ListTools;
    HandshakeKeepsTables(s, message);
    var id, params := Get(message, "id"), Params(message);
    if IsIdent(id) && params.Obj? {
      var requested := Requested(w, params.fields);
      if requested.Some? {
        var mcpId, f := Dumps(id), requested.value;
        if !Conflicts(s.tables, mcpId, KeyOf(w, mcpId, f.toolUseId), f) {
          RecordKeepsMatched(w, s.tables, mcpId, f);
        }
      }
    }
  }

  /** The id and the MCP message of a line that gets as far as the MCP server. */
  function Inner(s: Codec, line: Option<JObj>): Option<(string, JObj)> {
    if s.terminal.Some? || line.None? || Get(line.value, "type") != Str("control_request") then None
    else
      match Identified(s, line.value)
      case None => None
      case Some((id, request)) =>
        if |s.requests| >= MAX_REQUESTS || ForgeMessage(request).None? then None
        else Some((id, ForgeMessage(request).value))
  }

  lemma ReceiveShape(w: Wiring, s: Codec, line: Option<JObj>)
    ensures var (t, v) := Receive(w, s, line);
      match Inner(s, line)
      case None =>
        && t.tables == s.tables && t.initialized == s.initialized && t.notified == s.notified && t.listed == s.listed
        && !v.Answer? && s.requests <= t.requests && |s.requests| <= |t.requests| <= |s.requests| + 1
        && (|s.requests| <= MAX_REQUESTS ==> |t.requests| <= MAX_REQUESTS)
        && (v.Rejected? ==> t == s.(requests := t.requests))
      case Some((id, message)) =>
        var u := s.(requests := s.requests + {id});
        && |u.requests| == |s.requests| + 1 <= MAX_REQUESTS
        && t == Mcp(w, u, message).0
        && v == (if Mcp(w, u, message).1.Some? then Answer(id, Mcp(w, u, message).1.value) else Rejected)
  {
    hide Mcp, ForgeMessage, IsTerminal, IsQuotaNotice;
  }

  lemma HandshakeKeepsTables(s: Codec, message: JObj)
    ensures Notify(s, message).0.tables == s.tables
    ensures forall id, params :: Initialize(s, id, params).0.tables == s.tables
    ensures forall id, params :: ListTools(s, id, params).0.tables == s.tables
  {
  }

  lemma ReceiveKeepsSound(w: Wiring, s: Codec, line: Option<JObj>)
    requires Sound(w, s)
    ensures Sound(w, Receive(w, s, line).0)
  {
    hide Receive, Mcp, Matched, Inner;
    ReceiveShape(w, s, line);
    var inner := Inner(s, line);
    if inner.Some? {
      var t := s.(requests := s.requests + {inner.value.0});
      McpSpendsOne(w, t, inner.value.1);
      McpKeepsMatched(w, t, inner.value.1);
    }
  }

  function Run(w: Wiring, lines: seq<Option<JObj>>): Codec {
    if lines == [] then IDLE else Receive(w, Run(w, lines[..|lines| - 1]), lines[|lines| - 1]).0
  }

  /** Whatever was sent, the tables stay inverse, the handshake stays in order, and the counts add up. */
  lemma {:induction false} RunStaysSound(w: Wiring, lines: seq<Option<JObj>>)
    ensures Sound(w, Run(w, lines))
  {
    hide Receive, Sound;
    if lines == [] {
      assert Sound(w, IDLE) by { IdleIsSound(w); }
    } else {
      RunStaysSound(w, lines[..|lines| - 1]);
      ReceiveKeepsSound(w, Run(w, lines[..|lines| - 1]), lines[|lines| - 1]);
    }
  }

  lemma IdleIsSound(w: Wiring)
    ensures Sound(w, IDLE)
  {
  }

  /** The limit on calls can never be reached: the request limit stops the run first. */
  lemma CallLimitIsUnreachable(w: Wiring, lines: seq<Option<JObj>>)
    ensures |Run(w, lines).tables.calls| <= MAX_REQUESTS - 3 < MAX_CALLS
    ensures Run(w, lines).tables.calls != map[] ==> |Run(w, lines).tables.calls| + 3 <= |Run(w, lines).requests|
  {
    hide Run, Matched;
    RunStaysSound(w, lines);
    var s := Run(w, lines);
    if s.tables.calls == map[] {
      assert |s.tables.calls| == 0;
    }
  }

  /** A rejected line changes nothing but, at most, the request ids already taken. */
  lemma RejectionKeepsAllButRequests(w: Wiring, s: Codec, line: Option<JObj>)
    requires Receive(w, s, line).1 == Rejected
    ensures var t := Receive(w, s, line).0;
      && t == s.(requests := t.requests)
      && s.requests <= t.requests
      && |t.requests| <= |s.requests| + 1
  {
    hide Receive, Mcp, Inner;
    ReceiveShape(w, s, line);
    var inner := Inner(s, line);
    if inner.Some? {
      McpSpendsOne(w, s.(requests := s.requests + {inner.value.0}), inner.value.1);
    }
  }

  lemma {:induction false} TerminalAbsorbs(w: Wiring, lines: seq<Option<JObj>>, more: seq<Option<JObj>>)
    requires Run(w, lines).terminal.Some?
    ensures Run(w, lines + more) == Run(w, lines)
    decreases |more|
  {
    hide ControlRequest, IsTerminal, IsQuotaNotice;
    if more == [] {
      assert lines + more == lines;
    } else {
      var front := lines + more[..|more| - 1];
      assert (lines + more)[..|lines + more| - 1] == front;
      TerminalAbsorbs(w, lines, more[..|more| - 1]);
    }
  }

  // ---- the result frame ----

  /** The telemetry a result frame may carry without anything being asked of it. */
  const TELEMETRY: set<string> := {
    "duration_ms", "duration_api_ms", "num_turns", "usage", "model_usage", "modelUsage", "total_cost_usd", "stop_reason",
    "errors", "uuid", "result", "permission_denials", "api_error_status", "fast_mode_disabled_reason",
    "fast_mode_state", "first_content_frame_ms", "queued_turn_count", "subagent_stats", "time_to_request_ms", "ttft_ms",
    "ttft_stream_ms"}

  const JUDGED: set<string> := {
    "type", "subtype", "session_id", "is_error", "origin", "structured_output", "terminal_reason", "deferred_tool_use"}

  /** What every recorded terminal is: this session's own, for a human turn, and a finished one unless it is an error. */
  ghost predicate Genuine(w: Wiring, frame: JObj) {
    && frame.Keys <= TELEMETRY + JUDGED
    && Get(frame, "type") == Str("result")
    && Get(frame, "session_id") == Str(w.thread)
    && Get(frame, "is_error").Bool?
    && Get(frame, "subtype").Str?
    && (Get(frame, "origin") != Null ==>
          Get(frame, "origin").Obj? && Get(Get(frame, "origin").fields, "kind") == Str("human"))
    && (Get(frame, "is_error") == Bool(false) ==>
          && Get(frame, "subtype") == Str("success")
          && (Get(frame, "terminal_reason") == Null || Get(frame, "terminal_reason") == Str("completed"))
          && Get(frame, "deferred_tool_use") == Null
          && Get(frame, "structured_output").Obj?)
  }

  lemma KeysAreKnown()
    ensures TERMINAL_KEYS == TELEMETRY + JUDGED
  {
  }

  lemma TakenIsGenuine(w: Wiring, s: Codec, line: Option<JObj>)
    requires s.terminal.None? && Receive(w, s, line).0.terminal.Some?
    ensures line.Some? && Receive(w, s, line) == (s.(terminal := line), Quiet) && Genuine(w, line.value)
  {
    hide ControlRequest, IsQuotaNotice, TERMINAL_KEYS, TELEMETRY, JUDGED;
    KeysAreKnown();
    ControlKeepsTerminal(w, s, line);
  }

  lemma ControlKeepsTerminal(w: Wiring, s: Codec, line: Option<JObj>)
    requires line.Some?
    ensures ControlRequest(w, s, line.value).0.terminal == s.terminal
  {
    hide Mcp;
    match Identified(s, line.value) {
      case None =>
      case Some((id, request)) =>
        var message := ForgeMessage(request);
        if message.Some? { McpSpendsOne(w, s.(requests := s.requests + {id}), message.value); }
    }
  }

  /** A result frame is taken exactly when it is genuine, and otherwise leaves the codec as it was. */
  lemma ResultIsTakenIff(w: Wiring, s: Codec, frame: JObj)
    requires s.terminal.None? && Get(frame, "type") == Str("result")
    ensures Receive(w, s, Some(frame)) == if Genuine(w, frame) then (s.(terminal := Some(frame)), Quiet) else (s, Rejected)
  {
    hide ControlRequest, IsQuotaNotice, TERMINAL_KEYS, TELEMETRY, JUDGED;
    KeysAreKnown();
  }

  /** Over every run the recorded terminal is a genuine frame of the run. */
  lemma {:induction false} TerminalIsGenuine(w: Wiring, lines: seq<Option<JObj>>)
    requires Run(w, lines).terminal.Some?
    ensures Genuine(w, Run(w, lines).terminal.value) && Run(w, lines).terminal in lines
  {
    hide Receive, Genuine;
    if lines == [] {
      assert false;
    } else {
      var front, line := lines[..|lines| - 1], lines[|lines| - 1];
      if Run(w, front).terminal.Some? {
        TerminalIsGenuine(w, front);
        KeptTerminal(w, Run(w, front), line);
      } else {
        TakenIsGenuine(w, Run(w, front), line);
      }
    }
  }

  lemma KeptTerminal(w: Wiring, s: Codec, line: Option<JObj>)
    requires s.terminal.Some?
    ensures Receive(w, s, line) == (s, Rejected)
  {
  }

  /** The frame a finished turn sends, with whatever telemetry. */
  function SuccessFrame(w: Wiring, output: JObj, telemetry: JObj): JObj {
    telemetry + map["type" := Str("result"), "subtype" := Str("success"), "session_id" := Str(w.thread),
                    "is_error" := Bool(false), "structured_output" := Obj(output)]
  }

  /** The frame a failed turn sends. */
  function ErrorFrame(w: Wiring, subtype: string, telemetry: JObj): JObj {
    telemetry + map["type" := Str("result"), "subtype" := Str(subtype), "session_id" := Str(w.thread),
                    "is_error" := Bool(true)]
  }

  /** In every state without a terminal both are taken and recorded. */
  lemma OrdinaryResultsAreTaken(w: Wiring, s: Codec, output: JObj, subtype: string, telemetry: JObj)
    requires s.terminal.None? && telemetry.Keys <= TELEMETRY
    ensures Receive(w, s, Some(SuccessFrame(w, output, telemetry)))
            == (s.(terminal := Some(SuccessFrame(w, output, telemetry))), Quiet)
    ensures Receive(w, s, Some(ErrorFrame(w, subtype, telemetry)))
            == (s.(terminal := Some(ErrorFrame(w, subtype, telemetry))), Quiet)
  {
    hide Receive, TELEMETRY;
    TelemetryIsApart();
    ResultIsTakenIff(w, s, SuccessFrame(w, output, telemetry));
    ResultIsTakenIff(w, s, ErrorFrame(w, subtype, telemetry));
  }

  lemma TelemetryIsApart()
    ensures TELEMETRY !! JUDGED
  {
  }

  /** A result of any other session is rejected. */
  lemma ForeignResultIsRejected(w: Wiring, s: Codec, frame: JObj)
    requires Get(frame, "type") == Str("result") && Get(frame, "session_id") != Str(w.thread)
    ensures Receive(w, s, Some(frame)) == (s, Rejected)
  {
    hide Receive;
    if s.terminal.None? {
      ResultIsTakenIff(w, s, frame);
    } else {
      KeptTerminal(w, s, Some(frame));
    }
  }

  /**
   In any reachable state a call that names a permitted tool is accepted exactly when the handshake is
   complete and both ids are new or the call repeats an earlier one in full; a repeat changes nothing.
   */
  lemma CallAcceptedIff(w: Wiring, lines: seq<Option<JObj>>, id: Json, params: JObj)
    requires Injective(w.digest) && IsIdent(id) && Requested(w, params).Some?
    ensures var s := Run(w, lines);
      && var f := Requested(w, params).value;
      && var key := KeyOf(w, Dumps(id), f.toolUseId);
      && var (t, reply) := CallTool(w, s, id, params);
      && (reply.Some? <==> HandshakeComplete(s) && (IsNew(s.tables, Dumps(id), f) || IsReplay(s.tables, key, f)))
      && (reply.Some? ==> reply == Some(Serve(id, Call(key, w.thread, w.turn, f.name, f.arguments))))
      && (IsReplay(s.tables, key, f) ==> t == s)
  {
    hide Run, KeyOf, Matched, Requested, Dumps, Conflicts, IsNew, Record;
    RunStaysSound(w, lines);
    CallLimitIsUnreachable(w, lines);
    var s, f := Run(w, lines), Requested(w, params).value;
    AdmissibleIff(w, s.tables, Dumps(id), f);
    if IsReplay(s.tables, KeyOf(w, Dumps(id), f.toolUseId), f) {
      ReplayChangesNoTable(w, s.tables, Dumps(id), f);
    }
  }

  /** A quota notice of this session with any window. */
  function NoticeFrame(w: Wiring, uuid: string, info: JObj): JObj {
    map["type" := Str("rate_limit_event"), "session_id" := Str(w.thread), "uuid" := Str(uuid), "rate_limit_info" := Obj(info)]
  }

  /** Stream frames and well-formed notices pass in silence, and a frame of no known kind is rejected. */
  lemma OtherFramesAreQuietOrForeign(w: Wiring, s: Codec, frame: JObj, uuid: string, info: JObj)
    requires s.terminal.None?
    ensures Get(frame, "type") in {Str("system"), Str("assistant"), Str("user"), Str("stream_event")} ==>
      Receive(w, s, Some(frame)) == (s, Quiet)
    ensures
      && 1 <= |uuid| <= 128 && Get(info, "status") in {Str("allowed"), Str("allowed_warning"), Str("rejected")}
      && (Get(info, "rateLimitType") == Null || Get(info, "rateLimitType").Str?)
      ==> Receive(w, s, Some(NoticeFrame(w, uuid, info))) == (s, Quiet)
    ensures Get(frame, "type") !in {Str("system"), Str("assistant"), Str("user"), Str("stream_event"), Str("result"),
                                    Str("rate_limit_event"), Str("control_request")} ==>
      Receive(w, s, Some(frame)) == (s, Rejected)
  {
    hide ControlRequest, IsTerminal;
    assert NoticeFrame(w, uuid, info).Keys == {"type", "session_id", "uuid", "rate_limit_info"};
  }

  // ---- the messages a client ordinarily sends ----

  function McpRequest(id: string, message: JObj): JObj {
    map["type" := Str("control_request"), "request_id" := Str(id),
        "request" := Obj(map["subtype" := Str("mcp_message"), "server_name" := Str("forge"), "message" := Obj(message)])]
  }

  function InitializeMessage(id: Json, version: string): JObj {
    map["jsonrpc" := Str("2.0"), "id" := id, "method" := Str("initialize"),
        "params" := Obj(map["protocolVersion" := Str(version)])]
  }

  const INITIALIZED_MESSAGE: JObj := map["jsonrpc" := Str("2.0"), "method" := Str("notifications/initialized")]

  function ListMessage(id: Json): JObj {
    map["jsonrpc" := Str("2.0"), "id" := id, "method" := Str("tools/list")]
  }

  function CallParams(name: string, arguments: JObj, toolUseId: string, token: Json): JObj {
    map["name" := Str(name), "arguments" := Obj(arguments),
        "_meta" := Obj(map["claudecode/toolUseId" := Str(toolUseId), "progressToken" := token])]
  }

  function CallMessage(id: Json, params: JObj): JObj {
    map["jsonrpc" := Str("2.0"), "id" := id, "method" := Str("tools/call"), "params" := Obj(params)]
  }

  /** The codec still takes requests, and this request id is new to it. */
  predicate Listens(s: Codec, id: string) {
    s.terminal.None? && id != "" && id !in s.requests && |s.requests| < 1024
  }

  lemma RequestReachesMcp(w: Wiring, s: Codec, id: string, message: JObj)
    requires Listens(s, id)
    ensures var (t, reply) := Mcp(w, s.(requests := s.requests + {id}), message);
      Receive(w, s, Some(McpRequest(id, message))) == (t, if reply.Some? then Answer(id, reply.value) else Rejected)
  {
    hide Mcp;
  }

  /** A request that repeats an id, has none, or comes after 1024 others is rejected and changes nothing. */
  lemma SpentIdIsRejected(w: Wiring, s: Codec, id: string, message: JObj)
    requires s.terminal.None? && !Listens(s, id)
    ensures Receive(w, s, Some(McpRequest(id, message))) == (s, Rejected)
  {
    hide Mcp;
  }

  /** Each handshake message is answered exactly at its turn, once, and sets its own flag and no other. */
  lemma HandshakeIsAnsweredIff(w: Wiring, s: Codec, request: string, id: Json, version: string)
    requires Listens(s, request) && IsIdent(id)
    ensures var t := s.(requests := s.requests + {request});
      && Receive(w, s, Some(McpRequest(request, InitializeMessage(id, version)))) ==
         (if s.initialized then (t, Rejected)
          else (t.(initialized := true), Answer(request, Initialized(id, version))))
      && Receive(w, s, Some(McpRequest(request, INITIALIZED_MESSAGE))) ==
         (if !s.initialized || s.notified then (t, Rejected) else (t.(notified := true), Answer(request, Notified)))
      && Receive(w, s, Some(McpRequest(request, ListMessage(id)))) ==
         (if !s.initialized || !s.notified || s.listed then (t, Rejected)
          else (t.(listed := true), Answer(request, Listed(id))))
  {
    hide Receive, Mcp;
    var t := s.(requests := s.requests + {request});
    RequestReachesMcp(w, s, request, InitializeMessage(id, version));
    RequestReachesMcp(w, s, request, INITIALIZED_MESSAGE);
    RequestReachesMcp(w, s, request, ListMessage(id));
    InitializeIsRead(w, t, id, version);
    InitializedIsRead(w, t);
    ListIsRead(w, t, id);
  }

  lemma InitializeIsRead(w: Wiring, s: Codec, id: Json, version: string)
    requires IsIdent(id)
    ensures Mcp(w, s, InitializeMessage(id, version)) ==
      if s.initialized then (s, None) else (s.(initialized := true), Some(Initialized(id, version)))
  {
    assert "initialize"[0] != NOTIFICATIONS[0];
  }

  lemma InitializedIsRead(w: Wiring, s: Codec)
    ensures Mcp(w, s, INITIALIZED_MESSAGE) ==
      if !s.initialized || s.notified then (s, None) else (s.(notified := true), Some(Notified))
  {
    assert INITIALIZED_MESSAGE.Keys == {"jsonrpc", "method"};
    assert NOTIFICATIONS <= "notifications/initialized";
  }

  lemma ListIsRead(w: Wiring, s: Codec, id: Json)
    requires IsIdent(id)
    ensures Mcp(w, s, ListMessage(id)) ==
      if !s.initialized || !s.notified || s.listed then (s, None) else (s.(listed := true), Some(Listed(id)))
  {
    assert "tools/list"[0] != NOTIFICATIONS[0];
    assert Params(ListMessage(id)) == Obj(map[]);
  }

  lemma CallIsRead(w: Wiring, name: string, arguments: JObj, toolUseId: string, token: Json)
    requires name in w.tools && 1 <= |toolUseId| <= 128 && (token.Str? || token.Int?)
    ensures Requested(w, CallParams(name, arguments, toolUseId, token)) == Some(Fingerprint(name, arguments, toolUseId))
  {
    var meta: JObj := map["claudecode/toolUseId" := Str(toolUseId), "progressToken" := token];
    assert meta.Keys == {"claudecode/toolUseId", "progressToken"};
    assert CallParams(name, arguments, toolUseId, token).Keys == {"name", "arguments", "_meta"};
    assert Get(CallParams(name, arguments, toolUseId, token), "_meta") == Obj(meta);
  }

  lemma CallIsCall(w: Wiring, s: Codec, id: Json, params: JObj)
    requires s.initialized && IsIdent(id)
    ensures Mcp(w, s, CallMessage(id, params)) == CallTool(w, s, id, params)
  {
    hide CallTool;
    assert "tools/call"[0] != NOTIFICATIONS[0];
  }

  /** The request ids already taken have no say in what a call tool request does. */
  lemma RequestsDoNotMatter(w: Wiring, s: Codec, request: string, id: Json, params: JObj)
    requires IsIdent(id)
    ensures var (t, reply) := CallTool(w, s.(requests := s.requests + {request}), id, params);
      && reply == CallTool(w, s, id, params).1
      && t == CallTool(w, s, id, params).0.(requests := s.requests + {request})
  {
    hide Requested, Dumps, KeyOf, Conflicts, Record;
  }

  /**
   In any reachable state that still listens, the frame of a call of a permitted tool is served, under the
   hash of its two ids and with its own name and arguments, exactly when the handshake is complete and it
   is new or a repeat of the call recorded under that hash.
   */
  lemma CallIsServedIff(
    w: Wiring, lines: seq<Option<JObj>>, request: string, id: Json, name: string, arguments: JObj, toolUseId: string,
    token: Json)
    requires Injective(w.digest) && Listens(Run(w, lines), request) && IsIdent(id)
    requires name in w.tools && 1 <= |toolUseId| <= 128 && (token.Str? || token.Int?)
    ensures var s, key := Run(w, lines), w.digest(Dumps(id) + [NUL] + toolUseId);
      && var recorded := key in s.tables.calls && s.tables.calls[key] == Fingerprint(name, arguments, toolUseId);
      && var isNew := toolUseId !in s.tables.toolUseIds && Dumps(id) !in s.tables.mcpIds;
      && Receive(w, s, Some(McpRequest(request, CallMessage(id, CallParams(name, arguments, toolUseId, token))))).1 ==
           if s.initialized && s.notified && s.listed && (isNew || recorded)
           then Answer(request, Serve(id, Call(key, w.thread, w.turn, name, arguments)))
           else Rejected
  {
    hide Receive, Mcp, CallTool, Run, Dumps, Requested, Matched;
    var s, params := Run(w, lines), CallParams(name, arguments, toolUseId, token);
    var t := s.(requests := s.requests + {request});
    RequestReachesMcp(w, s, request, CallMessage(id, params));
    CallIsRead(w, name, arguments, toolUseId, token);
    CallAcceptedIff(w, lines, id, params);
    RunStaysSound(w, lines);
    RequestsDoNotMatter(w, s, request, id, params);
    if s.initialized {
      CallIsCall(w, t, id, params);
    } else {
      CallNeedsInitialize(w, t, id, params);
    }
  }

  lemma CallNeedsInitialize(w: Wiring, s: Codec, id: Json, params: JObj)
    requires !s.initialized && IsIdent(id)
    ensures Mcp(w, s, CallMessage(id, params)).1.None?
  {
    hide CallTool;
    assert "tools/call"[0] != NOTIFICATIONS[0];
  }

  /** Distinct JSON-RPC ids never share a call, and distinct tool-use ids never do. */
  lemma KeyNamesOneCall(w: Wiring, a: Json, b: Json, x: string, y: string)
    requires Injective(w.digest) && IsIdent(a) && IsIdent(b)
    ensures KeyOf(w, Dumps(a), x) == KeyOf(w, Dumps(b), y) <==> a == b && x == y
  {
    hide Dumps, Preimage;
    if KeyOf(w, Dumps(a), x) == KeyOf(w, Dumps(b), y) {
      KeyTextIsInjective(a, b, x, y);
    }
  }

  function CallOf(w: Wiring, key: string, f: Fingerprint): Call {
    Call(key, w.thread, w.turn, f.name, f.arguments)
  }

  /** Between two states calls were only added, and at most the one served. */
  ghost predicate CallsGrow(s: Codec, t: Codec, served: Option<Call>) {
    && (forall k :: k in s.tables.calls ==> k in t.tables.calls && t.tables.calls[k] == s.tables.calls[k])
    && (forall k :: k in t.tables.calls ==> k in s.tables.calls || (served.Some? && k == served.value.key))
  }

  function Served(reply: Option<Reply>): Option<Call> {
    if reply.Some? && reply.value.Serve? then Some(reply.value.call) else None
  }

  function ServedBy(v: Verdict): Option<Call> {
    if v.Answer? then Served(Some(v.reply)) else None
  }

  lemma CallToolStands(w: Wiring, s: Codec, id: Json, params: JObj)
    requires IsIdent(id)
    ensures var (t, reply) := CallTool(w, s, id, params);
      && CallsGrow(s, t, Served(reply))
      && (reply.Some? ==>
            && reply.value.Serve?
            && var call := reply.value.call;
            && call.key in t.tables.calls
            && call == CallOf(w, call.key, t.tables.calls[call.key])
            && call.name in w.tools)
  {
    hide Dumps, KeyOf, BoundElsewhere, ToolUseId;
  }

  lemma McpCallsStand(w: Wiring, s: Codec, message: JObj)
    ensures var (t, reply) := Mcp(w, s, message);
      && CallsGrow(s, t, Served(reply))
      && (reply.Some? && reply.value.Serve? ==>
            && var call := reply.value.call;
            && call.key in t.tables.calls
            && call == CallOf(w, call.key, t.tables.calls[call.key])
            && call.name in w.tools)
  {
    hide CallTool, Dumps;
    if IsIdent(Get(message, "id")) && Params(message).Obj? {
      CallToolStands(w, s, Get(message, "id"), Params(message).fields);
    }
  }

  /** A recorded call is never overwritten, and what is served is what is recorded. */
  lemma CallsStand(w: Wiring, s: Codec, line: Option<JObj>)
    ensures var (t, v) := Receive(w, s, line);
      && CallsGrow(s, t, ServedBy(v))
      && (v.Answer? && v.reply.Serve? ==>
            && var call := v.reply.call;
            && call.key in t.tables.calls
            && call == CallOf(w, call.key, t.tables.calls[call.key])
            && call.name in w.tools)
  {
    hide Receive, Mcp, Inner;
    ReceiveShape(w, s, line);
    var inner := Inner(s, line);
    if inner.Some? {
      McpCallsStand(w, s.(requests := s.requests + {inner.value.0}), inner.value.1);
    }
  }

  // ---- the handshake in time ----

  ghost predicate Answered(w: Wiring, lines: seq<Option<JObj>>, n: nat, reply: Reply)
    requires n < |lines|
  {
    var v := Receive(w, Run(w, lines[..n]), lines[n]).1;
    v.Answer? && v.reply == reply
  }

  ghost predicate InitializedAt(w: Wiring, lines: seq<Option<JObj>>, n: nat)
    requires n < |lines|
  {
    exists id, version :: Answered(w, lines, n, Initialized(id, version))
  }

  ghost predicate ListedAt(w: Wiring, lines: seq<Option<JObj>>, n: nat)
    requires n < |lines|
  {
    exists id :: Answered(w, lines, n, Listed(id))
  }

  /** A flag is only ever raised by the step that answers for it, in a state that already has the earlier flags. */
  lemma FlagsRise(w: Wiring, s: Codec, line: Option<JObj>)
    ensures var (t, v) := Receive(w, s, line);
      && (s.initialized ==> t.initialized) && (s.notified ==> t.notified) && (s.listed ==> t.listed)
      && (t.initialized && !s.initialized ==> v.Answer? && v.reply.Initialized?)
      && (t.notified && !s.notified ==> v.Answer? && v.reply.Notified? && s.initialized)
      && (t.listed && !s.listed ==> v.Answer? && v.reply.Listed? && s.notified)
      && (v.Answer? && v.reply.Serve? ==> s.listed)
  {
    hide Receive, Mcp, Inner;
    ReceiveShape(w, s, line);
    var inner := Inner(s, line);
    if inner.Some? {
      McpRaisesFlags(w, s.(requests := s.requests + {inner.value.0}), inner.value.1);
    }
  }

  lemma {:induction false} InitializedSince(w: Wiring, lines: seq<Option<JObj>>, n: nat) returns (i: nat)
    requires n <= |lines| && Run(w, lines[..n]).initialized
    ensures i < n && InitializedAt(w, lines, i)
  {
    hide Receive;
    assert n > 0;
    assert lines[..n][..n - 1] == lines[..n - 1];
    FlagsRise(w, Run(w, lines[..n - 1]), lines[n - 1]);
    if Run(w, lines[..n - 1]).initialized {
      i := InitializedSince(w, lines, n - 1);
    } else {
      i := n - 1;
      var reply := Receive(w, Run(w, lines[..i]), lines[i]).1.reply;
      assert Answered(w, lines, i, Initialized(reply.id, reply.version));
    }
  }

  lemma {:induction false} NotifiedSince(w: Wiring, lines: seq<Option<JObj>>, n: nat) returns (i: nat, j: nat)
    requires n <= |lines| && Run(w, lines[..n]).notified
    ensures i < j < n && InitializedAt(w, lines, i) && Answered(w, lines, j, Notified)
  {
    hide Receive, InitializedAt;
    assert n > 0;
    assert lines[..n][..n - 1] == lines[..n - 1];
    FlagsRise(w, Run(w, lines[..n - 1]), lines[n - 1]);
    if Run(w, lines[..n - 1]).notified {
      i, j := NotifiedSince(w, lines, n - 1);
    } else {
      j := n - 1;
      i := InitializedSince(w, lines, j);
    }
  }

  lemma {:induction false} ListedSince(w: Wiring, lines: seq<Option<JObj>>, n: nat) returns (i: nat, j: nat, k: nat)
    requires n <= |lines| && Run(w, lines[..n]).listed
    ensures i < j < k < n
    ensures InitializedAt(w, lines, i) && Answered(w, lines, j, Notified) && ListedAt(w, lines, k)
  {
    hide Receive, InitializedAt;
    assert n > 0;
    assert lines[..n][..n - 1] == lines[..n - 1];
    FlagsRise(w, Run(w, lines[..n - 1]), lines[n - 1]);
    if Run(w, lines[..n - 1]).listed {
      i, j, k := ListedSince(w, lines, n - 1);
    } else {
      k := n - 1;
      i, j := NotifiedSince(w, lines, k);
      assert Answered(w, lines, k, Listed(Receive(w, Run(w, lines[..k]), lines[k]).1.reply.id));
    }
  }

  /** A call is only served after initialize, then the notification, then the listing were each answered. */
  lemma HandshakePrecedesCalls(w: Wiring, lines: seq<Option<JObj>>, n: nat, id: Json, call: Call)
    returns (i: nat, j: nat, k: nat)
    requires n < |lines| && Answered(w, lines, n, Serve(id, call))
    ensures i < j < k < n
    ensures InitializedAt(w, lines, i) && Answered(w, lines, j, Notified) && ListedAt(w, lines, k)
  {
    hide Receive, InitializedAt, ListedAt, Run;
    FlagsRise(w, Run(w, lines[..n]), lines[n]);
    i, j, k := ListedSince(w, lines, n);
  }
}
