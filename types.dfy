/** The two closed message unions of the agent (agent/src/types.ts) and the tool names the
    agent relays, with the schema checks as total parse functions over decoded JSON.
    Each schema is a discriminated union on the key "type"; an option's object schema
    ignores keys it does not name, as Zod's default object parsing does. */
module Types {
  import opened Common

  // ---------------------------------------------------------------- tool names

  /** The tools the agent relays to the host. */
  datatype ToolName = GitStatus | GitDiff | ReadFile | WriteFile | RunCommand

  function ToolNameText(t: ToolName): string {
    match t
    case GitStatus => "git_status"
    case GitDiff => "git_diff"
    case ReadFile => "read_file"
    case WriteFile => "write_file"
    case RunCommand => "run_command"
  }

  lemma {:induction false} ToolNameTextInjective(a: ToolName, b: ToolName)
    requires ToolNameText(a) == ToolNameText(b)
    ensures a == b
  {
    match a
    case GitStatus => assert ToolNameText(b)[4] == 's';
    case GitDiff => assert ToolNameText(b)[4] == 'd';
    case ReadFile => assert ToolNameText(b)[0] == 'r';
    case WriteFile => assert ToolNameText(b)[0] == 'w';
    case RunCommand => assert ToolNameText(b)[1] == 'u';
  }

  // ---------------------------------------------------------------- agent events

  datatype HostStatus = Online | Offline

  /** An event the agent sends to its observers. A `tool_pending` event always carries the
      status "waiting_for_approval", so the variant has no status field. */
  datatype AgentEvent =
    | HostStatusEvent(status: HostStatus)
    | ToolPending(tool: string)
    | ToolComplete(tool: string, output: Option<string>)
    | ErrorEvent(message: string)

  const WaitingForApproval := "waiting_for_approval"

  function StatusText(s: HostStatus): string {
    match s
    case Online => "online"
    case Offline => "offline"
  }

  function EventTag(e: AgentEvent): string {
    match e
    case HostStatusEvent(_) => "host_status"
    case ToolPending(_) => "tool_pending"
    case ToolComplete(_, _) => "tool_complete"
    case ErrorEvent(_) => "error"
  }

  /** The JSON object `JSON.stringify` writes for an event; an absent optional output is
      left out of the object. */
  function EncodeEvent(e: AgentEvent): (j: Json)
    ensures j.JObj? && "type" in j.fields && j.fields["type"] == JStr(EventTag(e))
  {
    match e
    case HostStatusEvent(s) =>
      JObj(map["type" := JStr("host_status"), "status" := JStr(StatusText(s))])
    case ToolPending(t) =>
      JObj(map["type" := JStr("tool_pending"), "tool" := JStr(t), "status" := JStr(WaitingForApproval)])
    case ToolComplete(t, None) =>
      JObj(map["type" := JStr("tool_complete"), "tool" := JStr(t)])
    case ToolComplete(t, Some(o)) =>
      JObj(map["type" := JStr("tool_complete"), "tool" := JStr(t), "output" := JStr(o)])
    case ErrorEvent(m) =>
      JObj(map["type" := JStr("error"), "message" := JStr(m)])
  }

  /** A string-valued field of an object, or None when absent or not a string. */
  function StrField(m: map<string, Json>, key: string): (r: Option<string>)
    ensures r.Some? <==> key in m && m[key].JStr?
    ensures r.Some? ==> m[key] == JStr(r.value)
  {
    if key in m && m[key].JStr? then Some(m[key].s) else None
  }

  function ParseHostStatus(m: map<string, Json>): Option<AgentEvent> {
    match StrField(m, "status")
    case Some("online") => Some(HostStatusEvent(Online))
    case Some("offline") => Some(HostStatusEvent(Offline))
    case _ => None
  }

  function ParseToolPending(m: map<string, Json>): Option<AgentEvent> {
    if StrField(m, "tool").Some? && StrField(m, "status") == Some(WaitingForApproval)
    then Some(ToolPending(StrField(m, "tool").value))
    else None
  }

  /** The output of `tool_complete` is optional: absent is accepted, present must be a string. */
  function ParseToolComplete(m: map<string, Json>): Option<AgentEvent> {
    if StrField(m, "tool").None? then None
    else if "output" !in m then Some(ToolComplete(StrField(m, "tool").value, None))
    else if m["output"].JStr? then Some(ToolComplete(StrField(m, "tool").value, Some(m["output"].s)))
    else None
  }

  function ParseErrorEvent(m: map<string, Json>): Option<AgentEvent> {
    if StrField(m, "message").Some? then Some(ErrorEvent(StrField(m, "message").value)) else None
  }

  /** `AgentEventSchema.safeParse`: the tag must be one of the four known ones. */
  function ParseAgentEvent(j: Json): (r: Option<AgentEvent>)
    ensures r.Some? ==> j.JObj? && StrField(j.fields, "type") == Some(EventTag(r.value))
  {
    if !j.JObj? then None
    else
      match StrField(j.fields, "type")
      case Some("host_status") => ParseHostStatus(j.fields)
      case Some("tool_pending") => ParseToolPending(j.fields)
      case Some("tool_complete") => ParseToolComplete(j.fields)
      case Some("error") => ParseErrorEvent(j.fields)
      case _ => None
  }

  /** `big` holds every key of `small`, with the same value. */
  predicate SubObject(small: map<string, Json>, big: map<string, Json>) {
    forall k :: k in small ==> k in big && big[k] == small[k]
  }

  /** Decoding undoes encoding. */
  lemma {:induction false} EventRoundTrip(e: AgentEvent)
    ensures ParseAgentEvent(EncodeEvent(e)) == Some(e)
  {
    var m := EncodeEvent(e).fields;
    match e
    case HostStatusEvent(s) =>
      assert StrField(m, "type") == Some("host_status");
      if s == Online { assert StrField(m, "status") == Some("online"); }
      else { assert StrField(m, "status") == Some("offline"); }
    case ToolPending(t) =>
      assert StrField(m, "type") == Some("tool_pending");
    case ToolComplete(t, o) =>
      assert StrField(m, "type") == Some("tool_complete");
    case ErrorEvent(msg) =>
      assert StrField(m, "type") == Some("error");
  }

  /** Exactly the objects that extend an event's encoding parse as that event (keys the
      schema does not name are ignored), except that a `tool_complete` without output
      requires the "output" key to be absent. */
  lemma {:induction false} ParseAgentEventExactly(j: Json, e: AgentEvent)
    ensures ParseAgentEvent(j) == Some(e) <==>
      j.JObj? && SubObject(EncodeEvent(e).fields, j.fields) &&
      (e.ToolComplete? && e.output.None? ==> "output" !in j.fields)
  {
    if j.JObj? && SubObject(EncodeEvent(e).fields, j.fields) &&
       (e.ToolComplete? && e.output.None? ==> "output" !in j.fields) {
      var m := j.fields;
      var enc := EncodeEvent(e).fields;
      assert "type" in enc;
      match e
      case HostStatusEvent(s) =>
        assert "status" in enc;
        assert StrField(m, "type") == Some("host_status");
        assert StrField(m, "status") == Some(StatusText(s));
      case ToolPending(t) =>
        assert "tool" in enc && "status" in enc;
        assert StrField(m, "type") == Some("tool_pending");
      case ToolComplete(t, o) =>
        assert "tool" in enc;
        assert StrField(m, "type") == Some("tool_complete");
        if o.Some? { assert "output" in enc; }
      case ErrorEvent(msg) =>
        assert "message" in enc;
        assert StrField(m, "type") == Some("error");
    }
    if ParseAgentEvent(j) == Some(e) {
      var m := j.fields;
      match e
      case HostStatusEvent(s) =>
        assert StrField(m, "type") == Some("host_status");
      case ToolPending(t) =>
        assert StrField(m, "type") == Some("tool_pending");
      case ToolComplete(t, o) =>
        assert StrField(m, "type") == Some("tool_complete");
      case ErrorEvent(msg) =>
        assert StrField(m, "type") == Some("error");
    }
  }

  /** There is no `context_update` event: such a payload never parses, so an observer's
      branch for it cannot fire. */
  lemma NoContextUpdate(j: Json)
    requires j.JObj? && StrField(j.fields, "type") == Some("context_update")
    ensures ParseAgentEvent(j) == None
  {
  }

  // ---------------------------------------------------------------- host messages

  /** A frame the host sends to the agent. */
  datatype HostMessage = Init | ToolResult(callId: string, output: string)

  /** `HostMessageSchema.safeParse`: `init` with role "host", or `tool_result` with string
      call_id and output; any other key (such as `status`) is ignored. */
  function ParseHostMessage(j: Json): (r: Option<HostMessage>)
    ensures r == Some(Init) ==> j.JObj? && StrField(j.fields, "type") == Some("init")
    ensures r.Some? && r.value.ToolResult? ==> j.JObj? && StrField(j.fields, "type") == Some("tool_result")
  {
    if !j.JObj? then None
    else
      var m := j.fields;
      match StrField(m, "type")
      case Some("init") =>
        if StrField(m, "role") == Some("host") then Some(Init) else None
      case Some("tool_result") =>
        if StrField(m, "call_id").Some? && StrField(m, "output").Some?
        then Some(ToolResult(StrField(m, "call_id").value, StrField(m, "output").value))
        else None
      case _ => None
  }

  /** A host message is accepted exactly in the two documented shapes. */
  lemma {:induction false} ParseHostMessageExactly(j: Json, h: HostMessage)
    ensures ParseHostMessage(j) == Some(h) <==>
      j.JObj? &&
      match h
      case Init =>
        "type" in j.fields && j.fields["type"] == JStr("init") &&
        "role" in j.fields && j.fields["role"] == JStr("host")
      case ToolResult(id, out) =>
        "type" in j.fields && j.fields["type"] == JStr("tool_result") &&
        "call_id" in j.fields && j.fields["call_id"] == JStr(id) &&
        "output" in j.fields && j.fields["output"] == JStr(out)
  {
    if j.JObj? {
      var m := j.fields;
      match h
      case Init =>
        if "type" in m && m["type"] == JStr("init") {
          assert StrField(m, "type") == Some("init");
        }
      case ToolResult(id, out) =>
        if "type" in m && m["type"] == JStr("tool_result") {
          assert StrField(m, "type") == Some("tool_result");
        }
    }
  }
}
