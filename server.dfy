/** The `/api/new-session` handler of the agent (agent/src/server.ts): pick the session id
    and tell the caller which socket URL to open. */
module Server {
  import opened Common

  /** A value of a submitted form as the form validator hands it over: text, an uploaded
      file, or the list of values of a field submitted more than once. */
  datatype FormValue = Text(text: string) | Upload | Repeated(values: seq<FormValue>)

  /** The parts of the request URL the handler reads: `protocol` (with its colon, as
      `URL.protocol` gives it) and `host`. */
  datatype RequestUrl = RequestUrl(protocol: string, host: string)

  datatype Response =
    | TextResponse(status: nat, body: string)
    | SessionJson(sessionId: string, url: string)

  const Invalid := "Invalid!"
  const ChatPath := "/agents/chat/"

  /** The form's `session_id` under the schema `{session_id?: string}`: None when absent,
      or a failure when it is a file or a repeated field. */
  function SessionIdField(form: map<string, FormValue>): (r: Attempt<Option<string>>)
    ensures r.Raised? <==> "session_id" in form && !form["session_id"].Text?
    ensures r.Done? && r.value.Some? <==> "session_id" in form && form["session_id"].Text?
  {
    if "session_id" !in form then Done(None)
    else match form["session_id"]
      case Text(s) => Done(Some(s))
      case _ => Raised("session_id: expected string")
  }

  /** The socket scheme for a request protocol. */
  function SocketScheme(protocol: string): (scheme: string)
    ensures scheme == "wss" <==> protocol == "https:"
    ensures scheme == "ws" <==> protocol != "https:"
  {
    if protocol == "https:" then "wss" else "ws"
  }

  /** `${protocol}://${host}/agents/chat/${sessionId}`. */
  function SocketUrl(url: RequestUrl, sessionId: string): (r: string)
    ensures StartsWith(r, SocketScheme(url.protocol) + "://")
    ensures EndsWith(r, ChatPath + sessionId)
  {
    SocketScheme(url.protocol) + "://" + url.host + ChatPath + sessionId
  }

  /** The supplied id is kept when it is present, non-empty and `getByName` answers with a
      truthy value (`known`). */
  predicate KeepsSuppliedId(supplied: Option<string>, known: string -> bool) {
    supplied.Some? && supplied.value != "" && known(supplied.value)
  }

  /** The handler. `known` stands for `Chat.getByName`, `freshId` for `newUniqueId()`. */
  function NewSession(form: map<string, FormValue>, url: RequestUrl, known: string -> bool, freshId: string): (r: Response)
    ensures r.TextResponse? ==> r == TextResponse(401, Invalid)
    ensures r.SessionJson? ==> r.url == SocketUrl(url, r.sessionId)
    ensures r.SessionJson? && r.sessionId != freshId ==>
      "session_id" in form && form["session_id"] == Text(r.sessionId) && known(r.sessionId)
  {
    match SessionIdField(form)
    case Raised(_) => TextResponse(401, Invalid)
    case Done(supplied) =>
      var sessionId := if KeepsSuppliedId(supplied, known) then supplied.value else freshId;
      SessionJson(sessionId, SocketUrl(url, sessionId))
  }

  /** A form whose `session_id` is not a single text (a file, or a repeated field) is
      refused with 401 "Invalid!"; every other form gets a session. */
  lemma NewSessionRefusesExactlyBadForms(form: map<string, FormValue>, url: RequestUrl, known: string -> bool, freshId: string)
    ensures NewSession(form, url, known, freshId) == TextResponse(401, Invalid) <==>
      "session_id" in form && !form["session_id"].Text?
    ensures NewSession(form, url, known, freshId).SessionJson? <==>
      ("session_id" in form ==> form["session_id"].Text?)
  {
  }

  /** The session id is the supplied one exactly when it is present, non-empty and known,
      and the fresh one otherwise; the URL carries that same id. */
  lemma NewSessionChoosesId(form: map<string, FormValue>, url: RequestUrl, known: string -> bool, freshId: string)
    requires "session_id" in form ==> form["session_id"].Text?
    ensures var r := NewSession(form, url, known, freshId);
      var supplied := if "session_id" in form then Some(form["session_id"].text) else None;
      && r.SessionJson?
      && r.sessionId == (if KeepsSuppliedId(supplied, known) then supplied.value else freshId)
      && r.url == SocketUrl(url, r.sessionId)
  {
  }

  // ---------------------------------------------------------------- reading a URL back

  /** Split a socket URL written by `SocketUrl` into scheme, host and session id; the host
      ends at the first '/' after "://". */
  function ParseSocketUrl(u: string): (r: Option<(string, string, string)>)
  {
    var colon := IndexOf(u, ':');
    if colon + 3 > |u| || u[colon..colon + 3] != "://" then None
    else
      var afterScheme := u[colon + 3..];
      var slash := IndexOf(afterScheme, '/');
      var path := afterScheme[slash..];
      if !StartsWith(path, ChatPath) then None
      else Some((u[..colon], afterScheme[..slash], path[|ChatPath|..]))
  }

  /** The URL the handler writes names its scheme, the request's host and the session id,
      whenever the host has no '/'. */
  lemma {:induction false} SocketUrlRoundTrip(url: RequestUrl, sessionId: string)
    requires '/' !in url.host
    ensures ParseSocketUrl(SocketUrl(url, sessionId)) ==
      Some((SocketScheme(url.protocol), url.host, sessionId))
  {
    var scheme := SocketScheme(url.protocol);
    var u := SocketUrl(url, sessionId);
    assert ':' !in scheme;
    assert u == scheme + ("://" + (url.host + (ChatPath + sessionId)));
    IndexOfAt(u, ':', |scheme|);
    assert u[..|scheme|] == scheme;
    assert u[|scheme|..|scheme| + 3] == "://";
    var afterScheme := u[|scheme| + 3..];
    assert afterScheme == url.host + (ChatPath + sessionId);
    IndexOfAt(afterScheme, '/', |url.host|);
    assert afterScheme[..|url.host|] == url.host;
    var path := afterScheme[|url.host|..];
    assert path == ChatPath + sessionId;
    StartsWithAppend(ChatPath, sessionId);
    assert path[|ChatPath|..] == sessionId;
  }
}
