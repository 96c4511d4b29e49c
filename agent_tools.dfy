/** The agent's tool layer (agent/src/tools.ts): the catalog the assistant sees, and the
    request half of the relay, which hands a call to the host and parks it in the session's
    pending table until a result or the timeout settles it. */
module AgentTools {
  import opened Common
  import opened Types
  import opened Broker

  // ---------------------------------------------------------------- the catalog

  /** The tools of `createAgentTools`. */
  datatype CatalogTool =
    | GitStatusTool | GitDiffTool | ReadFileTool | WriteFileTool | RunCommandTool | WebSearchTool

  /** What a catalog tool's `execute` hands to `executeRemoteTool`, or None for the web
      search tool, which has no `execute`. */
  function Forward(t: CatalogTool, input: Json): (r: Option<(ToolName, Json)>)
    ensures r.None? <==> t == WebSearchTool
    ensures r.Some? && (r.value.0 == GitStatus || r.value.0 == GitDiff) ==> r.value.1 == EmptyObject
  {
    match t
    case GitStatusTool => Some((GitStatus, EmptyObject))
    case GitDiffTool => Some((GitDiff, EmptyObject))
    case ReadFileTool => Some((ReadFile, input))
    case WriteFileTool => Some((WriteFile, input))
    case RunCommandTool => Some((RunCommand, input))
    case WebSearchTool => None
  }

  /** The no-argument tools always forward `{}`, which is falsy; the other remote tools
      forward the assistant's input unchanged; the web search is never relayed. */
  lemma ForwardedArguments(t: CatalogTool, input: Json)
    ensures Forward(t, input).None? <==> t == WebSearchTool
    ensures t == GitStatusTool || t == GitDiffTool ==>
      Forward(t, input).Some? && !Truthy(Forward(t, input).value.1)
    ensures t in {ReadFileTool, WriteFileTool, RunCommandTool} ==>
      Forward(t, input).Some? && Forward(t, input).value.1 == input
  {
  }

  /** The catalog relays each remote tool under its own name: different tools never reach
      the host under the same name. */
  lemma {:induction false} ForwardKeepsToolIdentity(t1: CatalogTool, t2: CatalogTool, a: Json, b: Json)
    requires Forward(t1, a).Some? && Forward(t2, b).Some?
    requires ToolNameText(Forward(t1, a).value.0) == ToolNameText(Forward(t2, b).value.0)
    ensures t1 == t2
  {
    ToolNameTextInjective(Forward(t1, a).value.0, Forward(t2, b).value.0);
  }

  // ---------------------------------------------------------------- remote execution

  const NoHostConnected := "Error: No Host CLI connected."
  const NoHostConnection := "Error: No Host CLI connection found."

  /** How `executeRemoteTool` returns to its caller: at once with a string, with a rejected
      promise because the send to the host threw, or suspended on the call `callId`, which
      the session's pending table then settles. */
  datatype RemoteStart = Immediate(text: string) | SendThrew | Suspended(callId: string)

  /** `executeRemoteTool(name, args)` against the current session `agent` (null when there
      is none); `freshId` is the call id `crypto.randomUUID` returns. */
  method ExecuteRemoteTool(agent: Chat?, reg: Registry, name: ToolName, args: Json, freshId: string)
    returns (r: RemoteStart)
    requires agent != null ==> agent.Valid() && freshId !in agent.issued
    modifies agent
    ensures agent != null ==> agent.Valid()
    ensures agent != null ==>
      && agent.host == old(agent.host)
      && agent.connected == old(agent.connected)
      && agent.hostListeners == old(agent.hostListeners)
      && agent.guestListeners == old(agent.guestListeners)
      && agent.outcomes == old(agent.outcomes)
    ensures agent == null ==> r == Immediate("")
    ensures agent != null && old(agent.host).None? ==>
      r == Immediate(NoHostConnected) && unchanged(agent)
    ensures agent != null && old(agent.host).Some? && old(agent.host).value !in reg.open ==>
      r == Immediate(NoHostConnection) && unchanged(agent)
    ensures agent != null && old(agent.host).Some? && old(agent.host).value in reg.open ==>
      var h := old(agent.host).value;
      && agent.guests == FilterOpen(old(agent.guests), reg)
      && agent.outbox == old(agent.outbox)
           + BroadcastSends(agent.guests, ToolPending(ToolNameText(name)), reg)
           + [Send(h, ToolCallFrame(freshId, name, args), h !in reg.failing)]
      && (if h in reg.failing then
            r == SendThrew && agent.pending == old(agent.pending) && agent.issued == old(agent.issued)
          else
            && r == Suspended(freshId)
            && agent.pending == old(agent.pending)[freshId := PendingEntry(name, args)]
            && agent.issued == old(agent.issued) + {freshId})
  {
    if agent == null {
      return Immediate("");
    }
    if agent.host.None? {
      return Immediate(NoHostConnected);
    }
    var h := agent.host.value;
    if h !in reg.open {
      return Immediate(NoHostConnection);
    }
    agent.AgentBroadcast(reg, ToolPending(ToolNameText(name)));
    var delivered := h !in reg.failing;
    agent.outbox := agent.outbox + [Send(h, ToolCallFrame(freshId, name, args), delivered)];
    if !delivered {
      return SendThrew;
    }
    agent.issued := agent.issued + {freshId};
    agent.timers := agent.timers + {freshId};
    agent.pending := agent.pending[freshId := PendingEntry(name, args)];
    r := Suspended(freshId);
  }

  /** A call whose host never answers is rejected with the timeout, and nothing of it is
      left in the table; a late result for it then changes nothing, and guests can still
      join. */
  method TimeoutScenario(reg: Registry, args: Json, late: Json)
    requires 1 in reg.open && 1 !in reg.failing
  {
    var chat := new Chat();
    chat.OnConnect(reg, 1, Some("host"));
    var r := ExecuteRemoteTool(chat, reg, ReadFile, args, "call-1");
    assert r == Suspended("call-1");
    assert chat.pending["call-1"] == PendingEntry(ReadFile, args);
    chat.OnTimerFire("call-1");
    assert chat.outcomes["call-1"] == Rejected(TimeoutReason);
    assert "call-1" !in chat.pending;
    var before := chat.outcomes;
    chat.OnHostMessage(reg, 1, Some(late));
    assert chat.outcomes == before;
    chat.OnConnect(reg, 2, None);
    assert chat.guests[|chat.guests| - 1] == 2;
  }
}
