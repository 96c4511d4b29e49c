/** The executor's tool dispatcher (cli/synapse/dispatcher.py): look the tool up in the
    registry, validate its arguments against the tool's argument model, call it, and turn
    every failure into a string. The registered tool functions are not modelled; what they
    return or raise is an input (`HostRuntime.run`). */
module Dispatcher {
  import opened Common

  /** `func(**kwargs)`: a call of the tool function registered under `tool`. */
  datatype Invocation = Invocation(tool: string, kwargs: map<string, string>)

  /** What the executor's environment decides: what a tool function returns or raises, and
      the text pydantic renders for a failed validation of a tool's arguments. */
  datatype HostRuntime = HostRuntime(
    run: Invocation -> Attempt<string>,
    explain: (string, Json) -> string)

  /** `TOOL_REGISTRY`: for each tool, the string fields its argument model requires, or
      None for a tool without an argument model. */
  const ToolRegistry: map<string, Option<seq<string>>> := map[
    "git_status" := None,
    "git_diff" := None,
    "read_file" := Some(["path"]),
    "write_file" := Some(["path", "content"]),
    "run_command" := Some(["command"])
  ]

  function NotFound(name: string): string {
    "Error: Tool '" + name + "' not found."
  }

  function InvalidArguments(name: string, detail: string): string {
    "Error: Invalid arguments for tool '" + name + "':\n" + detail
  }

  function NoArgumentsAccepted(name: string): string {
    "Error: Tool '" + name + "' does not accept any arguments."
  }

  /** Written as two literals so that the verifier can read its first characters; the text
      is the one sentence of the source. */
  const UnexpectedPrefix: string := "An unexpected error " + "occurred during tool execution: "

  /** A tool function's result as `dispatch` returns it: its value, or the text for the
      exception it raised. */
  function Outcome(a: Attempt<string>): string {
    match a
    case Done(s) => s
    case Raised(m) => UnexpectedPrefix + m
  }

  /** `model_validate(arguments).model_dump()`: an object giving a string for every field of
      the model, reduced to exactly those fields; None when validation fails. */
  function Validate(fields: seq<string>, arguments: Json): (r: Option<map<string, string>>)
    ensures r.Some? <==>
      arguments.JObj? && forall f :: f in fields ==> f in arguments.fields && arguments.fields[f].JStr?
    ensures r.Some? ==> forall f :: f in fields <==> f in r.value
    ensures r.Some? ==> forall f :: f in r.value ==> JStr(r.value[f]) == arguments.fields[f]
  {
    if arguments.JObj? && forall f :: f in fields ==> f in arguments.fields && arguments.fields[f].JStr?
    then Some(map f | f in fields :: arguments.fields[f].s)
    else None
  }

  /** An object of strings that covers the model's fields validates to exactly those
      fields with their strings; its other keys are dropped. */
  lemma ValidateOnStrings(fields: seq<string>, m: map<string, string>)
    requires forall f :: f in fields ==> f in m
    ensures Validate(fields, JObj(map k | k in m :: JStr(m[k]))) == Some(map f | f in fields :: m[f])
  {
    var r := Validate(fields, JObj(map k | k in m :: JStr(m[k])));
    assert r.Some?;
    assert r.value == map f | f in fields :: m[f];
  }

  /** Arguments that are not an object, or lack one of the model's fields, or give it a
      value that is not a string, fail validation. */
  lemma ValidateRefusesMissing(fields: seq<string>, arguments: Json, f: string)
    requires f in fields
    requires !arguments.JObj? || f !in arguments.fields || !arguments.fields[f].JStr?
    ensures Validate(fields, arguments) == None
  {
  }

  /** `ToolDispatcher.dispatch(tool_name, arguments)`. */
  function Dispatch(name: string, arguments: Json, rt: HostRuntime): (r: string)
    ensures name in ToolRegistry || StartsWith(r, "Error:")
  {
    if name !in ToolRegistry then DispatchErrorsArePrefixed(name, ""); NotFound(name)
    else match ToolRegistry[name]
      case Some(fields) =>
        (match Validate(fields, arguments)
         case None => InvalidArguments(name, rt.explain(name, arguments))
         case Some(kwargs) => Outcome(rt.run(Invocation(name, kwargs))))
      case None =>
        if Truthy(arguments) then NoArgumentsAccepted(name)
        else Outcome(rt.run(Invocation(name, map[])))
  }

  /** The registry holds exactly the five tools, and exactly the two git tools have no
      argument model. */
  lemma RegistryContents(name: string)
    ensures name in ToolRegistry <==>
      name in {"git_status", "git_diff", "read_file", "write_file", "run_command"}
    ensures name in ToolRegistry && ToolRegistry[name].None? <==> name in {"git_status", "git_diff"}
  {
  }

  /** An unknown tool is reported and nothing runs: the answer does not depend on the
      environment at all. */
  lemma DispatchUnknownTool(name: string, arguments: Json, rt1: HostRuntime, rt2: HostRuntime)
    requires name !in ToolRegistry
    ensures Dispatch(name, arguments, rt1) == NotFound(name)
    ensures Dispatch(name, arguments, rt1) == Dispatch(name, arguments, rt2)
  {
  }

  /** Arguments that fail validation are reported, and the tool function is not called:
      the answer does not depend on what the function would do. */
  lemma DispatchInvalidArguments(name: string, arguments: Json, rt1: HostRuntime, rt2: HostRuntime)
    requires name in ToolRegistry && ToolRegistry[name].Some?
    requires Validate(ToolRegistry[name].value, arguments).None?
    requires rt1.explain == rt2.explain
    ensures StartsWith(Dispatch(name, arguments, rt1), "Error: Invalid arguments for tool '" + name + "'")
    ensures Dispatch(name, arguments, rt1) == Dispatch(name, arguments, rt2)
  {
    var prefix := "Error: Invalid arguments for tool '" + name + "'";
    assert InvalidArguments(name, rt1.explain(name, arguments)) == prefix + (":\n" + rt1.explain(name, arguments));
    StartsWithAppend(prefix, ":\n" + rt1.explain(name, arguments));
  }

  /** Valid arguments call the tool with exactly the model's fields. */
  lemma DispatchValidArguments(name: string, arguments: Json, rt: HostRuntime)
    requires name in ToolRegistry && ToolRegistry[name].Some?
    requires Validate(ToolRegistry[name].value, arguments).Some?
    ensures Dispatch(name, arguments, rt) ==
      Outcome(rt.run(Invocation(name, Validate(ToolRegistry[name].value, arguments).value)))
  {
  }

  /** A tool without an argument model refuses truthy arguments without running, and runs
      with no arguments otherwise. */
  lemma DispatchNoModel(name: string, arguments: Json, rt1: HostRuntime, rt2: HostRuntime)
    requires name in ToolRegistry && ToolRegistry[name].None?
    ensures Truthy(arguments) ==>
      Dispatch(name, arguments, rt1) == NoArgumentsAccepted(name) &&
      Dispatch(name, arguments, rt1) == Dispatch(name, arguments, rt2)
    ensures !Truthy(arguments) ==>
      Dispatch(name, arguments, rt1) == Outcome(rt1.run(Invocation(name, map[])))
  {
  }

  /** Every failure `dispatch` reports itself starts with "Error:". */
  lemma DispatchErrorsArePrefixed(name: string, detail: string)
    ensures StartsWith(NotFound(name), "Error:")
    ensures StartsWith(InvalidArguments(name, detail), "Error:")
    ensures StartsWith(NoArgumentsAccepted(name), "Error:")
  {
    PrefixedByError("Error: Tool '", name + "' not found.");
    PrefixedByError("Error: Invalid arguments for tool '", name + "':\n" + detail);
    PrefixedByError("Error: Tool '", name + "' does not accept any arguments.");
  }

  lemma PrefixedByError(head: string, rest: string)
    requires StartsWith(head, "Error:")
    ensures StartsWith(head + rest, "Error:")
  {
    assert (head + rest)[..6] == head[..6];
  }

  /** An exception raised by the tool function is reported without the "Error:" prefix. */
  lemma UnexpectedIsNotPrefixed(message: string)
    ensures !StartsWith(Outcome(Raised(message)), "Error:")
  {
    var s := Outcome(Raised(message));
    assert s == UnexpectedPrefix + message;
    assert s[0] == 'A';
  }
}
