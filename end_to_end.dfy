/** The relay as a whole: the session the server hands out, the socket the executor opens
    with it, the `tool_call` frame the agent sends over that socket, the executor's reply
    and the agent's reading of that reply. */
module Relay {
  import opened Common
  import opened Types
  import opened Broker
  import opened AgentTools
  import opened Dispatcher
  import opened Client
  import opened Server

  // ---------------------------------------------------------------- connecting

  /** The executor opens its socket with `role=cli`, which the agent manages neither as its
      host nor as a guest. */
  lemma CliConnectionIsUnmanaged(u: string)
    requires '?' !in u && '#' !in u
    ensures RoleParam(SessionSocketUrl(Some(u))) == Some("cli")
    ensures SelectRole(RoleParam(SessionSocketUrl(Some(u)))) !in {"host", "guest"}
  {
    assert SessionSocketUrl(Some(u)) == u + "?role=" + "cli";
    RoleParamOfSuffix(u, "cli");
  }

  /** Announcing `role=host` in the URL, as the executor's handshake frame does, makes the
      agent take the executor as its host. */
  lemma HostConnectionIsHost(u: string)
    requires '?' !in u && '#' !in u
    ensures RoleParam(HostSocketUrl(Some(u))) == Some("host")
    ensures SelectRole(RoleParam(HostSocketUrl(Some(u)))) == "host"
  {
    assert HostSocketUrl(Some(u)) == u + "?role=" + "host";
    RoleParamOfSuffix(u, "host");
  }

  /** The URL the server writes has no query or fragment when its host and session id have
      none, so the executor's suffix is the only query the agent sees. */
  lemma ServerUrlHasNoQuery(url: RequestUrl, sessionId: string)
    requires '?' !in url.host && '#' !in url.host && '?' !in sessionId && '#' !in sessionId
    ensures '?' !in SocketUrl(url, sessionId) && '#' !in SocketUrl(url, sessionId)
    ensures RoleParam(SessionSocketUrl(Some(SocketUrl(url, sessionId)))) == Some("cli")
    ensures RoleParam(HostSocketUrl(Some(SocketUrl(url, sessionId)))) == Some("host")
  {
    var scheme := SocketScheme(url.protocol);
    assert scheme == "wss" || scheme == "ws";
    assert SocketUrl(url, sessionId) == scheme + "://" + url.host + ChatPath + sessionId;
    CliConnectionIsUnmanaged(SocketUrl(url, sessionId));
    HostConnectionIsHost(SocketUrl(url, sessionId));
  }

  // ---------------------------------------------------------------- one call

  /** The agent's `tool_call` frame is answered with a `tool_result` for the same call id,
      carrying what the dispatcher makes of the call, and the agent's schema accepts that
      reply as exactly that result, unless the executor cannot log the call, in which case
      no reply is sent. */
  lemma ToolCallRoundTrip(id: string, name: ToolName, args: Json, logRaises: Json -> bool, rt: HostRuntime)
    ensures var output := Dispatch(ToolNameText(name), Dispatched(args), rt);
      var handled := HandleMessage(EncodeFrame(ToolCallFrame(id, name, args)), logRaises, rt);
      && (logRaises(JStr(ToolNameText(name))) || logRaises(args) ==> handled == Crashed(MarkupError))
      && (!logRaises(JStr(ToolNameText(name))) && !logRaises(args) ==>
            && handled == Replied(Reply(JStr(id), output))
            && ParseHostMessage(Reply(JStr(id), output)) == Some(ToolResult(id, output)))
  {
    ToolCallAnswered(id, name, args, logRaises, rt);
    var output := Dispatch(ToolNameText(name), Dispatched(args), rt);
    ResultAccepted(id, Status(output), output);
  }

  /** The executor answers a `tool_call` frame for the call's id with the dispatcher's
      output for the call's name and arguments, or raises while logging it. */
  lemma ToolCallAnswered(id: string, name: ToolName, args: Json, logRaises: Json -> bool, rt: HostRuntime)
    ensures HandleMessage(EncodeFrame(ToolCallFrame(id, name, args)), logRaises, rt) ==
      if logRaises(JStr(ToolNameText(name))) || logRaises(args) then Crashed(MarkupError)
      else Replied(Reply(JStr(id), Dispatch(ToolNameText(name), Dispatched(args), rt)))
  {
    var m := EncodeFrame(ToolCallFrame(id, name, args)).fields;
    assert Get(m, "type") == JStr("tool_call");
    assert Get(m, "name") == JStr(ToolNameText(name));
    assert ScalarText(Get(m, "name")) == ToolNameText(name);
    assert Get(m, "call_id") == JStr(id);
    assert Get(m, "arguments") == args;
  }

  /** The agent's schema reads a reply with a string call id as that call's result,
      whatever its status. */
  lemma ResultAccepted(id: string, status: string, output: string)
    ensures ParseHostMessage(ResultFrame(JStr(id), status, output)) == Some(ToolResult(id, output))
  {
    var j := ResultFrame(JStr(id), status, output);
    assert j.fields["type"] == JStr("tool_result");
    assert j.fields["call_id"] == JStr(id);
    assert j.fields["output"] == JStr(output);
    ParseHostMessageExactly(j, ToolResult(id, output));
  }

  /** A reply whose call id is not a string is dropped by the agent's schema. */
  lemma NonStringCallIdDropped(callId: Json, status: string, output: string)
    requires !callId.JStr?
    ensures ParseHostMessage(ResultFrame(callId, status, output)) == None
  {
    var m := ResultFrame(callId, status, output).fields;
    assert StrField(m, "type") == Some("tool_result");
    assert StrField(m, "call_id") == None;
  }

  /** Every tool the catalog relays is in the executor's registry under the same name, and
      the no-argument git tools run with no arguments rather than being refused. */
  lemma ForwardedCallsReachTheirTool(t: CatalogTool, input: Json, rt: HostRuntime)
    requires t != WebSearchTool
    ensures Forward(t, input).Some?
    ensures ToolNameText(Forward(t, input).value.0) in ToolRegistry
    ensures t == GitStatusTool || t == GitDiffTool ==>
      var tool := ToolNameText(Forward(t, input).value.0);
      Dispatch(tool, Dispatched(Forward(t, input).value.1), rt) == Outcome(rt.run(Invocation(tool, map[])))
  {
  }

  // ---------------------------------------------------------------- whole sessions

  /** The output the executor puts in its reply to a `tool_call` frame, or None when it
      raises while logging the call and sends nothing. */
  function AnswerOf(f: Frame, logRaises: Json -> bool, rt: HostRuntime): (answer: Option<string>)
    requires f.ToolCallFrame?
    ensures answer.None? <==> HandleMessage(EncodeFrame(f), logRaises, rt) == Crashed(MarkupError)
    ensures answer.Some? ==>
      && HandleMessage(EncodeFrame(f), logRaises, rt) == Replied(Reply(JStr(f.callId), answer.value))
      && ParseHostMessage(Reply(JStr(f.callId), answer.value)) == Some(ToolResult(f.callId, answer.value))
  {
    ToolCallRoundTrip(f.callId, f.name, f.arguments, logRaises, rt);
    if logRaises(JStr(ToolNameText(f.name))) || logRaises(f.arguments) then None
    else Some(Dispatch(ToolNameText(f.name), Dispatched(f.arguments), rt))
  }

  /** With the role the executor's URL gives it the agent has no host, and every call fails
      at once. */
  method CliSessionScenario(reg: Registry, args: Json)
    requires 1 in reg.open && 1 !in reg.failing
  {
    var chat := new Chat();
    var u := "ws://example/agents/chat/s1";
    CliConnectionIsUnmanaged(u);
    chat.OnConnect(reg, 1, RoleParam(SessionSocketUrl(Some(u))));
    assert chat.host == None;
    var r := ExecuteRemoteTool(chat, reg, ReadFile, args, "call-1");
    assert r == Immediate(NoHostConnected);
  }

  /** With `role=host` the call goes out, the executor answers it, and the caller is
      fulfilled with the dispatcher's output; or the executor cannot log it and the call
      times out. */
  method HostSessionScenario(reg: Registry, args: Json, logRaises: Json -> bool, rt: HostRuntime)
    requires 1 in reg.open && 1 !in reg.failing
  {
    var chat := new Chat();
    var u := "ws://example/agents/chat/s1";
    HostConnectionIsHost(u);
    var role := RoleParam(HostSocketUrl(Some(u)));
    chat.OnConnect(reg, 1, role);
    assert chat.host == Some(1);
    HostAnswersCall(chat, reg, args, logRaises, rt);
  }

  /** A call relayed to a live host is settled once: by the executor's answer, which
      fulfils it with the dispatcher's output, or, when the executor raises while logging
      the call and sends nothing, by its timer. */
  method HostAnswersCall(chat: Chat, reg: Registry, args: Json, logRaises: Json -> bool, rt: HostRuntime)
    requires chat.Valid() && chat.host == Some(1) && "call-1" !in chat.issued
    requires 1 in reg.open && 1 !in reg.failing
    modifies chat
    ensures chat.Valid()
    ensures "call-1" in chat.outcomes && "call-1" !in chat.pending
    ensures chat.outcomes["call-1"] ==
      if logRaises(JStr("read_file")) || logRaises(args) then Rejected(TimeoutReason)
      else Fulfilled(Dispatch(ToolNameText(ReadFile), Dispatched(args), rt))
  {
    var r := ExecuteRemoteTool(chat, reg, ReadFile, args, "call-1");
    assert r == Suspended("call-1");
    var sent := chat.outbox[|chat.outbox| - 1];
    assert sent == Send(1, ToolCallFrame("call-1", ReadFile, args), true);
    var answer := AnswerOf(sent.frame, logRaises, rt);
    SettleByAnswer(chat, reg, "call-1", answer);
  }

  /** The host's reply, when there is one, settles a pending call with its output;
      without a reply the call's timer settles it. */
  method SettleByAnswer(chat: Chat, reg: Registry, id: string, answer: Option<string>)
    requires chat.Valid() && chat.host == Some(1) && id in chat.pending
    modifies chat
    ensures chat.Valid()
    ensures id in chat.outcomes && id !in chat.pending
    ensures chat.outcomes[id] == if answer.Some? then Fulfilled(answer.value) else Rejected(TimeoutReason)
  {
    if answer.Some? {
      ResultAccepted(id, Status(answer.value), answer.value);
      chat.OnHostMessage(reg, 1, Some(Reply(JStr(id), answer.value)));
    } else {
      chat.OnTimerFire(id);
    }
  }
}
