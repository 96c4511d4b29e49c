/** The executor's connection client (cli/synapse/client.py): the socket URL it derives
    from the session it obtains, and the handler that answers the agent's `tool_call`
    frames with a `tool_result`. */
module Client {
  import opened Common
  import opened Dispatcher

  // ---------------------------------------------------------------- the socket URL

  /** `f"{url}?role=cli"` on the `url` field of the session response; an absent field is
      Python's None and prints as "None". */
  function SessionSocketUrl(url: Option<string>): (r: string)
    ensures r != ""
  {
    (if url.Some? then url.value else "None") + "?role=cli"
  }

  /** The role the handshake frame announces, as the connection URL would need to carry it
      for the agent to treat the executor as its host. */
  function HostSocketUrl(url: Option<string>): string {
    (if url.Some? then url.value else "None") + "?role=host"
  }

  /** `get_session` succeeds when `not self.session_id or not self.websocket_url` is false. */
  predicate SessionAccepted(sessionId: Json, url: Option<string>) {
    Truthy(sessionId) && SessionSocketUrl(url) != ""
  }

  /** The socket URL always ends with "?role=cli", so it is never empty and the part of the
      check that tests it can never fail: only the session id decides. */
  lemma SocketUrlAlwaysSet(sessionId: Json, url: Option<string>)
    ensures EndsWith(SessionSocketUrl(url), "?role=cli")
    ensures SessionAccepted(sessionId, url) <==> Truthy(sessionId)
  {
    var base := if url.Some? then url.value else "None";
    assert SessionSocketUrl(url)[|base|..] == "?role=cli";
  }

  // ---------------------------------------------------------------- status

  /** Python's `str.isspace` on one character. */
  predicate IsSpace(c: char) {
    || c == ' '
    || '\t' <= c <= '\r'
    || '\U{1C}' <= c <= '\U{1F}'
    || c == '\U{85}' || c == '\U{A0}' || c == '\U{1680}'
    || '\U{2000}' <= c <= '\U{200A}'
    || c == '\U{2028}' || c == '\U{2029}' || c == '\U{202F}' || c == '\U{205F}' || c == '\U{3000}'
  }

  /** `s.lstrip()`: the suffix of `s` after its leading whitespace. */
  function LStrip(s: string): string {
    if s != [] && IsSpace(s[0]) then LStrip(s[1..]) else s
  }

  /** `s.rstrip()`: the prefix of `s` before its trailing whitespace. */
  function RStrip(s: string): string {
    if s != [] && IsSpace(s[|s| - 1]) then RStrip(s[..|s| - 1]) else s
  }

  /** `lstrip` removes exactly the leading whitespace: what it keeps is a suffix that does
      not start with whitespace, and all it drops is whitespace. */
  lemma {:induction false} LStripRemovesLeadingSpace(s: string)
    ensures var r := LStrip(s);
      && |r| <= |s| && r == s[|s| - |r|..]
      && (forall i :: 0 <= i < |s| - |r| ==> IsSpace(s[i]))
      && (r != [] ==> !IsSpace(r[0]))
  {
    if s != [] && IsSpace(s[0]) {
      var t := s[1..];
      LStripRemovesLeadingSpace(t);
      var r := LStrip(t);
      assert LStrip(s) == r;
      assert t[|t| - |r|..] == s[|s| - |r|..];
      forall i | 0 <= i < |s| - |r| ensures IsSpace(s[i]) {
        if i > 0 { assert s[i] == t[i - 1]; }
      }
    }
  }

  /** `rstrip` removes exactly the trailing whitespace: what it keeps is a prefix that does
      not end with whitespace, and all it drops is whitespace. */
  lemma {:induction false} RStripRemovesTrailingSpace(s: string)
    ensures var r := RStrip(s);
      && |r| <= |s| && r == s[..|r|]
      && (forall i :: |r| <= i < |s| ==> IsSpace(s[i]))
      && (r != [] ==> !IsSpace(r[|r| - 1]))
  {
    if s != [] && IsSpace(s[|s| - 1]) {
      var t := s[..|s| - 1];
      RStripRemovesTrailingSpace(t);
      var r := RStrip(t);
      assert RStrip(s) == r;
      assert t[..|r|] == s[..|r|];
      forall i | |r| <= i < |s| ensures IsSpace(s[i]) {
        if i < |s| - 1 { assert s[i] == t[i]; }
      }
    }
  }

  /** `s.strip()`. */
  function Strip(s: string): string {
    RStrip(LStrip(s))
  }

  /** `"error" if output.strip().startswith("Error:") else "success"`. */
  function Status(output: string): (r: string)
    ensures r == "error" || r == "success"
  {
    if StartsWith(Strip(output), "Error:") then "error" else "success"
  }

  /** The status is "error" exactly when the output, after any leading whitespace, begins
      with "Error:"; trailing whitespace never matters. */
  lemma StatusReadsLeadingText(output: string)
    ensures Status(output) == "error" <==> StartsWith(LStrip(output), "Error:")
    ensures Status(output) == "error" || Status(output) == "success"
  {
    assert "Error:"[5] == ':';
    RStripKeepsStart(LStrip(output), "Error:");
  }

  /** Trailing whitespace never decides whether a text starts with a prefix that does not
      end in whitespace. */
  lemma RStripKeepsStart(l: string, p: string)
    requires p != [] && !IsSpace(p[|p| - 1])
    ensures StartsWith(RStrip(l), p) <==> StartsWith(l, p)
  {
    RStripRemovesTrailingSpace(l);
    var r := RStrip(l);
    if StartsWith(l, p) {
      assert l[|p| - 1] == p[|p| - 1];
      assert |p| <= |r|;
      assert r[..|p|] == l[..|p|];
    }
    if StartsWith(r, p) {
      assert l[..|p|] == r[..|p|];
    }
  }

  // ---------------------------------------------------------------- handle_message

  /** How `handle_message` ends: it sends one `tool_result` frame, sends nothing, or raises
      (which ends the listening loop; the client then reconnects). */
  datatype Handled = Replied(frame: Json) | Ignored | Crashed(reason: string)

  /** The decimal text Python prints for an integer. */
  function Decimal(n: int): string
    decreases if n < 0 then 1 - n else n
  {
    if n < 0 then "-" + Decimal(-n)
    else if n < 10 then [DigitChar(n)]
    else Decimal(n / 10) + [DigitChar(n % 10)]
  }

  function DigitChar(d: int): char
    requires 0 <= d < 10
  {
    "0123456789"[d]
  }

  /** `str(v)` for a JSON scalar, as the f-string of the not-found message prints it. */
  function ScalarText(v: Json): string
    requires !v.JArr? && !v.JObj?
  {
    match v
    case JNull => "None"
    case JBool(b) => if b then "True" else "False"
    case JNum(n) => Decimal(n)
    case JStr(s) => s
  }

  /** The first character of a printed integer is a digit or a minus sign. */
  lemma {:induction false} DecimalStart(n: int)
    ensures |Decimal(n)| > 0 && Decimal(n)[0] in "-0123456789"
    decreases if n < 0 then 1 - n else n
  {
    if n >= 10 {
      DecimalStart(n / 10);
    }
  }

  /** A name that is a JSON scalar but not a string is reported as not found, under its
      printed form, unless logging the request raises first. */
  lemma NonStringNameNotFound(m: map<string, Json>, logRaises: Json -> bool, rt: HostRuntime)
    requires Get(m, "type") == JStr("tool_call")
    requires var n := Get(m, "name"); !n.JStr? && !n.JArr? && !n.JObj?
    ensures HandleMessage(JObj(m), logRaises, rt) ==
      if LogsCleanly(m, logRaises) then
        Replied(Reply(Get(m, "call_id"), NotFound(ScalarText(Get(m, "name")))))
      else Crashed(MarkupError)
  {
    var n := Get(m, "name");
    ScalarNameUnregistered(n);
    if LogsCleanly(m, logRaises) {
      DispatchUnknownTool(ScalarText(n), Dispatched(Get(m, "arguments")), rt, rt);
    }
  }

  lemma ScalarNameUnregistered(n: Json)
    requires !n.JStr? && !n.JArr? && !n.JObj?
    ensures ScalarText(n) !in ToolRegistry
  {
    var t := ScalarText(n);
    if n.JNum? {
      DecimalStart(n.n);
    }
    assert t[0] in "-0123456789NTF";
    forall k | k in ToolRegistry ensures t != k {
      assert k[0] in "grw";
    }
  }

  /** A reply frame: the request's call id echoed, a status, and the output. */
  function ResultFrame(callId: Json, status: string, output: string): Json {
    JObj(map[
      "type" := JStr("tool_result"),
      "call_id" := callId,
      "status" := JStr(status),
      "output" := JStr(output)])
  }

  /** The reply frame `handle_message` sends for an output. */
  function Reply(callId: Json, output: string): Json {
    ResultFrame(callId, Status(output), output)
  }

  /** `tool_args or {}`: the arguments a call's `arguments` field is dispatched with. */
  function Dispatched(args: Json): Json {
    if Truthy(args) then args else EmptyObject
  }

  /** What Rich's `console.print` raises for a line whose markup closes a tag that is not
      open. */
  const MarkupError := "MarkupError: closing tag has nothing to close"

  /** The request's tool name and raw arguments are logged through the console without
      raising. `logRaises(v)` says whether a `console.print` line showing `v` raises: Rich
      parses markup in it, and a closing tag with nothing open, such as `[/]` or `[/tmp]`,
      makes it raise. Rich's markup parser and Python's `repr` are not modelled. */
  predicate LogsCleanly(m: map<string, Json>, logRaises: Json -> bool) {
    !logRaises(Get(m, "name")) && !logRaises(Get(m, "arguments"))
  }

  /** `handle_message(data)`. The name and the raw arguments are logged before anything
      runs, and a logging failure ends the handler. A missing or falsy `arguments` is
      dispatched as `{}`. A name that is not a string is never in the registry (its
      printed form is what the not-found message shows), except that a list or object name
      cannot even be looked up and raises. */
  function HandleMessage(data: Json, logRaises: Json -> bool, rt: HostRuntime): (r: Handled)
    ensures r.Replied? ==>
      data.JObj? && Get(data.fields, "type") == JStr("tool_call") && LogsCleanly(data.fields, logRaises)
  {
    if !data.JObj? then Crashed("AttributeError: no get")
    else
      var m := data.fields;
      if Get(m, "type") != JStr("tool_call") then Ignored
      else
        var name := Get(m, "name");
        if !LogsCleanly(m, logRaises) then Crashed(MarkupError)
        else if name.JArr? || name.JObj? then Crashed("TypeError: unhashable type")
        else
          var output := Dispatch(ScalarText(name), Dispatched(Get(m, "arguments")), rt);
          Replied(Reply(Get(m, "call_id"), output))
  }

  /** A `tool_call` with a scalar name is replied to exactly when it is logged without
      raising. The reply echoes its call id, carries the status of the output and nothing
      else: four keys, no tool name. */
  lemma ReplyShape(data: Json, logRaises: Json -> bool, rt: HostRuntime)
    requires data.JObj? && Get(data.fields, "type") == JStr("tool_call")
    requires !Get(data.fields, "name").JArr? && !Get(data.fields, "name").JObj?
    ensures HandleMessage(data, logRaises, rt).Replied? <==> LogsCleanly(data.fields, logRaises)
    ensures HandleMessage(data, logRaises, rt).Replied? ==>
      var f := HandleMessage(data, logRaises, rt).frame;
      && f.JObj? && f.fields.Keys == {"type", "call_id", "status", "output"}
      && f.fields["type"] == JStr("tool_result")
      && f.fields["call_id"] == Get(data.fields, "call_id")
      && f.fields["output"].JStr?
      && f.fields["status"] == JStr(Status(f.fields["output"].s))
  {
  }

  /** Frames other than `tool_call` get no reply. A frame is replied to exactly when it is
      a `tool_call` with a scalar name that is logged without raising. */
  lemma RepliesOnlyToToolCalls(data: Json, logRaises: Json -> bool, rt: HostRuntime)
    requires data.JObj?
    ensures Get(data.fields, "type") != JStr("tool_call") ==> HandleMessage(data, logRaises, rt) == Ignored
    ensures HandleMessage(data, logRaises, rt).Replied? <==>
      && Get(data.fields, "type") == JStr("tool_call")
      && !Get(data.fields, "name").JArr? && !Get(data.fields, "name").JObj?
      && LogsCleanly(data.fields, logRaises)
  {
  }

  /** A `tool_call` whose name or arguments the console cannot print ends the handler
      before the dispatcher is asked: no reply is sent, and what the tool would do does not
      matter. */
  lemma LoggingFailureRunsNothing(data: Json, logRaises: Json -> bool, rt1: HostRuntime, rt2: HostRuntime)
    requires data.JObj? && Get(data.fields, "type") == JStr("tool_call")
    requires !LogsCleanly(data.fields, logRaises)
    ensures HandleMessage(data, logRaises, rt1) == Crashed(MarkupError)
    ensures HandleMessage(data, logRaises, rt1) == HandleMessage(data, logRaises, rt2)
  {
  }

  /** Missing, null or otherwise falsy arguments are dispatched exactly as `{}`. (They
      differ only in how they are logged, and no falsy value prints a closing tag.) */
  lemma FalsyArgumentsAreEmpty(m: map<string, Json>, logRaises: Json -> bool, rt: HostRuntime)
    requires Get(m, "type") == JStr("tool_call")
    requires !Truthy(Get(m, "arguments"))
    requires logRaises(Get(m, "arguments")) == logRaises(EmptyObject)
    ensures HandleMessage(JObj(m), logRaises, rt) ==
      HandleMessage(JObj(m["arguments" := EmptyObject]), logRaises, rt)
  {
    var m' := m["arguments" := EmptyObject];
    assert Get(m', "type") == Get(m, "type");
    assert Get(m', "name") == Get(m, "name");
    assert Get(m', "call_id") == Get(m, "call_id");
  }
}
