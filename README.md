# Tool-call relay of moin-moin, modelled in Dafny

moin-moin connects a chat assistant running as a Cloudflare agent to a command-line
executor on a developer's machine. Each chat session is one `Chat` agent. Its browser
observers connect as *guests*; the executor is meant to connect as the *host*. When the
assistant calls a remote tool, the agent does three things:

- broadcasts `tool_pending` to the guests;
- sends a `tool_call` frame to the host;
- parks the call in a pending table until a `tool_result` frame or a 600000 ms timer
  settles it.

On the executor's side, `handle_message` hands the call to the `ToolDispatcher`, labels
the output `error` or `success`, and sends the reply.

This project models that relay and proves properties of it:

| file | module | models |
|---|---|---|
| `common.dfy` | `Common` | Option, an exception-or-value `Attempt`, a JSON value type, Python truthiness, prefix helpers |
| `types.dfy` | `Types` | the two Zod schemas of `agent/src/types.ts` as datatypes with total parsers |
| `chat.dfy` | `Broker` | the session object `Chat` of `agent/src/chat.ts`, as a class with its connect, close, message and timer handlers |
| `agent_tools.dfy` | `AgentTools` | `createAgentTools` forwarding and `executeRemoteTool` of `agent/src/tools.ts` |
| `server.dfy` | `Server` | the `/api/new-session` handler of `agent/src/server.ts` |
| `dispatcher.dfy` | `Dispatcher` | `TOOL_REGISTRY` and `ToolDispatcher.dispatch` of `cli/synapse/dispatcher.py` |
| `client.dfy` | `Client` | the URL suffix of `get_session` and `handle_message` of `cli/synapse/client.py` |
| `host_tools.dfy` | `HostTools` | `read_file` and `dispatch_tool` of `cli/synapse/tools.py` |
| `end_to_end.dfy` | `Relay` | properties that span the agent, the server and the executor |

Things outside the model are parameters:

- A `Registry` says, at each event, which connections are open and which throw when sent to.
- `freshId` is the value `crypto.randomUUID` returns. The caller must supply an id that differs from every id issued before.
- A `HostRuntime` says what a registered tool function returns or raises, and what text pydantic gives for a failed validation.
- A `HostFs` answers the filesystem questions of `read_file`.
- What `get_git_status` and `get_diff` return, or the exception that escapes them, is an input of `dispatch_tool`.
- `logRaises` says whether the executor's Rich console raises `MarkupError` on the log line that shows a value. That line shows the tool name or the raw arguments (`cli/synapse/client.py:106-107`).

A timer expiry is an event (`Chat.OnTimerFire`), not wall-clock time. JSON numbers are integers.

Where the source disagrees with itself, the model takes these decisions:

- **Host identity.** `agent/src/tools.ts:70-77` reads `agent.state.hostConnectionId` and
  looks the connection up with `getConnection`. `agent/src/chat.ts:38` stores a
  `hostConnection` field instead, and no agent file writes `hostConnectionId`. The
  model keeps one host id, `Chat.host`, which both files read and write.
- **Pending entries.** `agent/src/chat.ts:28` types a pending entry as a bare callback.
  `agent/src/tools.ts:103-111` stores a record `{resolve, tool, args}`. The consequence is
  the first finding below. The session model keeps the record, as `PendingEntry`, and
  performs its `resolve` in `Chat.OnHostMessage`.
- **Tool functions.** `cli/synapse/dispatcher.py:19-35` registers `tools.git_status`,
  `tools.git_diff`, `tools.write_file` and `tools.run_command`, but
  `cli/synapse/tools.py` defines only `get_git_status`, `get_diff` and `read_file`. As
  written, building `TOOL_REGISTRY` therefore raises `AttributeError` when
  `dispatcher.py` is imported, so the executor cannot start. The model takes the
  registry as intended, and the registered functions are abstract, given by
  `HostRuntime.run`.
- **Missing schema module.** `TOOLS` and `toolArgSchemas` are imported by `agent/src/tools.ts:6-12`, but
  `agent/src/types.ts` does not define them. They are not part of this model. The
  catalog's tool names are the literal strings its `execute` functions pass.

## Model

| member | source | states |
|---|---|---|
| Types.ToolNameTextInjective | agent/src/tools.ts:21-53 | the five remote tools are relayed under five different names |
| Types.EncodeEvent | agent/src/types.ts:3-22 | every encoded event is an object whose `type` is the event's own tag |
| Types.ParseAgentEvent | agent/src/types.ts:3-22 | a parsed event's tag equals the payload's `type` string |
| Types.EventRoundTrip | agent/src/types.ts:3-22 | parsing an encoded event gives back that event, for all four variants |
| Types.ParseAgentEventExactly | agent/src/types.ts:3-22 | a payload parses as event `e` iff it is an object that contains `e`'s encoding; extra keys are ignored; a `tool_complete` without output must lack the `output` key; so `status` is only online/offline, and `tool_pending` needs `waiting_for_approval` |
| Types.NoContextUpdate | agent/src/types.ts:3-22 | a payload tagged `context_update` never parses |
| Types.ParseHostMessage | agent/src/types.ts:27-37 | `init` is accepted only with tag `init`, and a result only with tag `tool_result` |
| Types.ParseHostMessageExactly | agent/src/types.ts:27-37 | a host message parses iff it is `init` with role `host`, or `tool_result` with a string call id and a string output |
| Broker.EncodeFrame | agent/src/tools.ts:87-94 | every frame the agent writes is an object with a string `type` |
| Broker.QueryOf | agent/src/chat.ts:33 | a URL without `?` has no query, and a query never includes the fragment |
| Broker.QueryParam | agent/src/chat.ts:34 | a parameter's value stops at the next `&` and consists of characters of the query |
| Broker.RoleParam | agent/src/chat.ts:33-34 | a URL without `?` has no role parameter; a role value contains neither `&` nor `#` |
| Broker.RoleOfUrl | agent/src/chat.ts:33-34 | a URL without a query selects guest; `?role=v` selects `v` (guest when `v` is empty), for a `v` without `%` or `+` escapes |
| Broker.RoleParamOfSuffix | agent/src/chat.ts:33-34 | a URL without query or fragment, extended by `?role=v` for a `v` without `%` or `+` escapes, yields role parameter `v` |
| Broker.FilterOpen | agent/src/chat.ts:93-95 | the pruned list is no longer, and holds exactly the open guests of the old one |
| Broker.FilterOpenAppend | agent/src/chat.ts:93-95 | pruning keeps order: pruning a concatenation concatenates the prunings |
| Broker.FilterOpenIdempotent | agent/src/chat.ts:93-95 | pruning twice at once is pruning once |
| Broker.FilterOpenAllOpen | agent/src/chat.ts:93-95 | a list of open guests is left as it is |
| Broker.FilterOpenNoDuplicates | agent/src/chat.ts:93-95 | pruning never introduces a duplicate guest |
| Broker.Without | agent/src/chat.ts:79-81 | removing a guest keeps exactly the other guests |
| Broker.WithoutAbsent | agent/src/chat.ts:79-81 | removing a guest who is not listed changes nothing |
| Broker.WithoutRemovesOne | agent/src/chat.ts:79-81 | in a list without duplicates, removing the guest at position i gives the list without position i, in order |
| Broker.WithoutNoDuplicates | agent/src/chat.ts:79-81 | removing a guest never introduces a duplicate |
| Broker.BroadcastSendsStep | agent/src/chat.ts:97-103 | broadcasting to one more guest appends exactly that guest's send |
| Broker.BroadcastOncePerGuest | agent/src/chat.ts:97-103 | each guest of a duplicate-free list gets exactly one send attempt, and others get none |
| Broker.BroadcastIsolation | agent/src/chat.ts:97-103 | a guest whose send does not throw receives the event, whatever the other sends do |
| Broker.TakeRestores | agent/src/tools.ts:98 | taking a pending entry removes exactly that entry: the id is gone, and putting the entry back restores the table |
| Broker.TakeArbitrates | agent/src/tools.ts:98 | after one take of an id, a second take of it fails, so result and timeout never both settle a call |
| Broker.RecordResultNeverResolves | agent/src/chat.ts:56-59 | with the records `executeRemoteTool` stores, a result as written resolves nothing and leaves the table unchanged, where `Take` would settle the call |
| Broker.Chat.constructor | agent/src/chat.ts:25-28 | a new session has no host, no guests, no pending calls and has sent nothing |
| Broker.Chat.AgentBroadcast | agent/src/chat.ts:92-104 | the guests become the open guests in order; the outbox grows by exactly one send per kept guest; a send that throws does not stop the later ones |
| Broker.Chat.OnConnect | agent/src/chat.ts:32-90 | a host replaces the host unconditionally and online is broadcast; a guest is appended and told online iff a host is set; any other role changes nothing but the connection record |
| Broker.Chat.OnClose | agent/src/chat.ts:66-81 | closing any connection that connected as host clears the host and broadcasts offline, even after it was replaced; closing a guest removes exactly that guest; nothing else changes |
| Broker.Chat.OnHostMessage | agent/src/chat.ts:42-63 | a valid result for a pending id removes exactly that entry, broadcasts `tool_complete` and fulfils that call once with the output; anything else changes nothing |
| Broker.Chat.OnTimerFire | agent/src/tools.ts:97-101 | the timeout rejects the call only if its entry is still pending, and removes it; otherwise nothing changes |
| AgentTools.Forward | agent/src/tools.ts:17-59 | only web search is not relayed, and the git tools relay `{}` (see also `ForwardedArguments` and `ForwardKeepsToolIdentity`) |
| AgentTools.ForwardedArguments | agent/src/tools.ts:17-59 | the git tools forward `{}`, the other remote tools forward their input unchanged, and web search is not relayed |
| AgentTools.ForwardKeepsToolIdentity | agent/src/tools.ts:17-59 | two catalog tools reach the host under the same name only if they are the same tool |
| AgentTools.ExecuteRemoteTool | agent/src/tools.ts:63-113 | no agent gives `""`; no host, or a host that is not open, gives its error with nothing changed; otherwise one `tool_pending` broadcast, then one `tool_call` with the fresh id to the host, and the entry is registered under that id with all other entries unchanged; on every path the host, the connections, the listeners and the settled calls are unchanged |
| Server.SocketUrl | agent/src/server.ts:28-32 | the URL starts with the scheme and `://`, and ends with `/agents/chat/` and the session id (see `SocketUrlRoundTrip`) |
| Server.NewSession | agent/src/server.ts:14-38 | a refusal is always 401 `Invalid!`; the URL names the session's own id; an id other than the fresh one is a supplied, known text |
| Server.NewSessionRefusesExactlyBadForms | agent/src/server.ts:16-21 | the answer is 401 `Invalid!` iff `session_id` is present and not a single text (a file, or a field submitted more than once); every other form gets a session |
| Server.NewSessionChoosesId | agent/src/server.ts:24-37 | the supplied id is kept iff present, non-empty and known, otherwise the fresh id is used; the URL carries the same id |
| Server.SocketUrlRoundTrip | agent/src/server.ts:32 | the URL names the scheme, the request host and the session id, and they can be read back from it |
| Dispatcher.ValidateOnStrings | cli/synapse/dispatcher.py:61-62 | an object of strings covering the model's fields validates to exactly those fields with their strings; other keys are dropped |
| Dispatcher.ValidateRefusesMissing | cli/synapse/dispatcher.py:61-64 | arguments that are not an object, lack a field, or give it a non-string value fail validation |
| Dispatcher.Dispatch | cli/synapse/dispatcher.py:41-74 | an unregistered name always gives an `Error:` answer; the cases of `TOOL_REGISTRY` are stated by the lemmas below |
| Dispatcher.RegistryContents | cli/synapse/dispatcher.py:17-38 | the registry holds exactly the five tools, and exactly the two git tools have no argument model |
| Dispatcher.DispatchUnknownTool | cli/synapse/dispatcher.py:52-53 | an unknown name yields the not-found message, whatever the environment would do |
| Dispatcher.DispatchInvalidArguments | cli/synapse/dispatcher.py:59-64 | invalid arguments yield `Error: Invalid arguments for tool '<name>'...`, and the tool's behaviour does not matter |
| Dispatcher.DispatchValidArguments | cli/synapse/dispatcher.py:59-62 | valid arguments run the tool with exactly the model's fields |
| Dispatcher.DispatchNoModel | cli/synapse/dispatcher.py:67-74 | a tool without a model refuses truthy arguments without running, and runs with no arguments otherwise |
| Dispatcher.DispatchErrorsArePrefixed | cli/synapse/dispatcher.py:53-70 | the not-found, invalid-arguments and no-arguments messages all start with `Error:` |
| Dispatcher.UnexpectedIsNotPrefixed | cli/synapse/dispatcher.py:65-66 | the text for an exception raised by the tool does not start with `Error:` |
| Client.SessionSocketUrl | cli/synapse/client.py:34-35 | the socket URL is never empty, even when the server sent no URL |
| Client.SocketUrlAlwaysSet | cli/synapse/client.py:34-36 | the socket URL always ends with `?role=cli`, so only the session id decides whether `get_session` succeeds |
| Client.LStripRemovesLeadingSpace | cli/synapse/client.py:113 | `lstrip` removes exactly the leading whitespace: the result is a suffix, every removed character is whitespace, and it does not start with whitespace |
| Client.RStripRemovesTrailingSpace | cli/synapse/client.py:113 | `rstrip` removes exactly the trailing whitespace, likewise |
| Client.RStripKeepsStart | cli/synapse/client.py:113 | trailing whitespace never decides whether the output starts with `Error:` |
| Client.Status | cli/synapse/client.py:113 | the status is one of `error` and `success` (which one: `StatusReadsLeadingText`) |
| Client.StatusReadsLeadingText | cli/synapse/client.py:113 | the status is `error` iff the output starts with `Error:` after leading whitespace, and `success` otherwise |
| Client.NonStringNameNotFound | cli/synapse/client.py:101-110 | a tool call whose name is a non-string scalar raises `MarkupError` if its name or arguments cannot be logged, and is otherwise answered with the not-found message for its printed form |
| Client.ScalarNameUnregistered | cli/synapse/client.py:110 | no printed non-string scalar is a registered tool name |
| Client.ReplyShape | cli/synapse/client.py:105-121 | a `tool_call` with a scalar name gets a reply iff its name and arguments are logged without raising; the reply has exactly the keys type, call_id, status and output, echoes the call id, and its status is that of its output |
| Client.HandleMessage | cli/synapse/client.py:95-122 | only an object frame of type `tool_call` whose name and arguments are logged without raising is replied to (the reply itself: `ReplyShape`, `FalsyArgumentsAreEmpty`) |
| Client.RepliesOnlyToToolCalls | cli/synapse/client.py:97-122 | frames other than `tool_call` get no reply; a frame is replied to iff it is a `tool_call` with a scalar name that is logged without raising |
| Client.LoggingFailureRunsNothing | cli/synapse/client.py:105-110 | a `tool_call` whose name or arguments cannot be logged raises `MarkupError` before dispatch, whatever the tool would do |
| Client.FalsyArgumentsAreEmpty | cli/synapse/client.py:107-110 | missing or falsy arguments are handled exactly as `{}`, when they are logged alike |
| HostTools.ReadFile | cli/synapse/tools.py:44-58 | the answer is the file's text, or a message starting with `Error:` |
| HostTools.ReadFileSecurityViolation | cli/synapse/tools.py:49-52 | the security violation is returned iff the resolved path is not below the working directory and both stats say it is a different file |
| HostTools.ReadFileOnlyInside | cli/synapse/tools.py:51-56 | contents and "not found" are only ever returned for contained paths; "not found" iff the path is not a file; contents are what the read returned |
| HostTools.FailuresArePrefixed | cli/synapse/tools.py:51-58 | every failure of `read_file`, caught exceptions included, starts with `Error:` |
| HostTools.DispatchTool | cli/synapse/tools.py:66-78 | only a mapped function can raise: because its arguments do not fit it, or a git helper with an exception it does not catch |
| HostTools.DispatchToolShapes | cli/synapse/tools.py:66-78 | unknown names are reported; a dict is passed as keywords, a list positionally, anything else as the single argument; a git helper's outcome, exception included, is passed through |
| Relay.CliConnectionIsUnmanaged | cli/synapse/client.py:35 | the executor's socket URL carries role `cli`, which the agent treats as neither host nor guest |
| Relay.HostConnectionIsHost | cli/synapse/client.py:77-84 | a URL carrying `role=host`, the role the handshake announces, makes the agent take the executor as host |
| Relay.ServerUrlHasNoQuery | agent/src/server.ts:32 | the server's URL has no query or fragment, so the executor's suffix alone decides the role |
| Relay.ToolCallRoundTrip | cli/synapse/client.py:95-122 | the agent's `tool_call` raises `MarkupError` if its name or arguments cannot be logged; otherwise it is answered for the same call id with the dispatcher's output, and the agent's schema accepts that reply as exactly that result |
| Relay.ToolCallAnswered | cli/synapse/client.py:99-122 | the executor's handling of an encoded `tool_call` is the logging crash, or a reply carrying its call id and the dispatcher's output for its name and arguments |
| Relay.ResultAccepted | agent/src/types.ts:32-36 | a reply with a string call id parses as that call's result, whatever its status |
| Relay.NonStringCallIdDropped | agent/src/types.ts:32-36 | a reply whose call id is not a string is rejected by the agent's schema |
| Relay.AnswerOf | cli/synapse/client.py:99-122 | the answer is absent exactly when the executor crashes while logging the call; a present answer is the reply it sends, and the agent's schema accepts it as that call's result |
| Relay.HostAnswersCall | agent/src/tools.ts:63-113 | a call relayed to a live host is settled once: fulfilled with the dispatcher's output, or, when the executor cannot log it and sends nothing, rejected by its timer |
| Relay.SettleByAnswer | agent/src/tools.ts:97-111 | a reply settles a pending call with its output; without a reply the timer rejects it; either way its entry is gone |
| Relay.ForwardedCallsReachTheirTool | agent/src/tools.ts:17-31 | every relayed tool name is registered on the executor, and the git tools' `{}` runs the tool rather than being refused |

## Left out

- LLM streaming and scheduled tasks (`onChatMessage`, `executeTask`): calls into the AI SDK.
- `super.onConnect` of the chat base class: platform code that is not part of this model.
- The web search tool's Firecrawl execution: network. The catalog records only that web search has no `execute`.
- A bounded context cache: no file of the core implements one.
- Timers are events, with `Chat.OnTimerFire` as the expiry of the 600000 ms timer of
  `agent/src/tools.ts:101`. No clock is modelled.
- `crypto.randomUUID` is an input: the caller supplies a fresh id.
- Broker.Chat.OnConnect: the direct send to a new guest (`agent/src/chat.ts:85`) has no `try`,
  so a throw there would leave `onConnect` early. The model records that send as undelivered
  and lets the handler finish.
- Broker.Chat.OnHostMessage: clearing the timer and deleting the entry are modelled before the
  `tool_complete` broadcast, not after it. Nothing in between reads them.
- Broker.RoleParam: query values are not percent-decoded and `+` is not read as a space.
- Broker.QueryParam: likewise, so `?role=ho%73t`, which selects the host in the source, reads
  as the role `ho%73t` here. The lemmas about roles are stated only for values without escapes.
- AgentTools.ExecuteRemoteTool: a send that throws rejects the caller (`SendThrew`) before
  any entry or timer exists. The rejection's error value is not modelled.
- Client.HandleMessage: a frame that is not an object, a list or object name, or a name or
  arguments whose log line Rich cannot render end the handler with an exception. The agent's
  call then waits for its timer. The reconnect and listen loops that then run, and the JSON
  decoding of `listen`, are not modelled. Rich's markup parser and Python's `repr` are not
  modelled either: which log lines raise is the input `logRaises`.
- HostTools.HostFs: `is_file` is modelled as total. Python versions up to 3.13 re-raise some
  `OSError`s from it, such as `PermissionError`.
- HostTools: `os.getcwd`, `resolve`, `stat`, `is_file` and `read_text` are inputs. Paths are
  modelled already resolved, as component sequences. Git and subprocess output is an input.
- Dispatcher.Dispatch: a registered function that itself raised pydantic's
  `ValidationError` would be answered with the invalid-arguments text, because
  `cli/synapse/dispatcher.py:60-64` run it inside the validating `try`. No registered function
  does this, and the model reports every exception of the function as unexpected.
- Dispatcher: pydantic is modelled as "an object with a string for every field". Its error
  text is an input. Extra fields are dropped.
- JSON numbers are integers; floating point is not modelled.
- The WebSocket plumbing, the HTTP request of `get_session`, `main.py`, `constants.py`,
  `routeAgentRequest` and the UI components are left out: they are I/O and rendering.

## Findings

| source | as written | input that shows it | evidently intended | confidence | as-written member | corrected member |
|---|---|---|---|---|---|---|
| agent/src/chat.ts:56-59 | the value stored for a call id is called as a function; `agent/src/tools.ts:103-111` stores a record `{resolve, tool, args}` there, so the call throws a TypeError. The `catch` at line 61 swallows it, so the `delete` is skipped | a `tool_result` with the call id of any pending call | call the entry's `resolve` (clear the timer, broadcast `tool_complete`, fulfil the caller) and delete the entry; as written, the call instead times out after 600000 ms | high, not executed | Broker.RecordResultNeverResolves | Broker.Chat.OnHostMessage |
| cli/synapse/client.py:35 | the executor connects with `?role=cli`; `agent/src/chat.ts:36,75` manages only `host` and `guest` | the session URL `ws://example/agents/chat/s1` from the server | connect with `?role=host`, the role the handshake of `client.py:77-84` announces, so that the agent has a host to relay to | high, not executed | Relay.CliConnectionIsUnmanaged | Relay.HostConnectionIsHost |

The corrected definitions are the ones the model uses. `Chat.OnHostMessage` settles a call
through `Take`. `Relay.HostSessionScenario` connects through `Client.HostSocketUrl`, and
`Relay.HostAnswersCall` follows one call from the agent to the executor and back. `Relay.CliSessionScenario`
exhibits the failure as written: every call answers "Error: No Host CLI connected.".
