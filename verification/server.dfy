/**
 * The four MCP tools (server.py): each forwards to the executor and turns
 * an escaping exception into an error response.
 */
module Server {
  import opened Wrappers
  import opened Py
  import opened Dicts
  import opened Errors
  import opened Exceptions
  import opened Introspection
  import opened Executor

  const InternalSuggestion := "Check server logs for details"

  /** `handle_error(e)`: an MCPError reports itself; anything else becomes
      an INTERNAL_ERROR without a details entry. */
  function HandleError(e: Exception): (d: Value)
    ensures d.Dict? && Get(d.entries, "error") == Some(Bool(true))
  {
    match e
    case Mcp(err) => ToDict(err)
    case Builtin(_, text) =>
      Dict([
        ("error", Bool(true)),
        ("code", Str("INTERNAL_ERROR")),
        ("message", Str(text)),
        ("service", Str("unknown")),
        ("recoverable", Bool(false)),
        ("suggestion", Str(InternalSuggestion))])
  }

  /** A structured error's response reads back as the same error; any
      other exception's response is that of a non-recoverable
      INTERNAL_ERROR charged to "unknown", minus its details entry, so it
      does not read back as an error record. */
  lemma HandleErrorCases(e: Exception)
    ensures e.Mcp? ==> FromDict(HandleError(e)) == Some(e.err)
    ensures e.Builtin? ==>
      var internal := MCPError(Internal, e.text, "unknown", false, InternalSuggestion, []);
      HandleError(e).entries == ToDict(internal).entries[..6]
      && FromDict(HandleError(e)).None?
  {
    if e.Mcp? {
      ToDictRoundTrip(e.err);
    } else {
      var es := HandleError(e).entries;
      assert !HasKey(es, "details");
      GetFinds(es, "details");
    }
  }

  /** A tool's answer: the result, or the error response. */
  function Respond(r: Outcome<Value>): Value {
    if r.Ok? then r.value else HandleError(r.error)
  }

  /** The server and its executor with the class cache. */
  class McpServer {
    const executor: Executor

    ghost predicate Valid()
      reads this, executor
    {
      executor.Valid()
    }

    constructor(resolve: Resolver)
      ensures Valid() && fresh(executor) && executor.resolve == resolve && executor.cache == map[]
    {
      executor := new Executor(resolve);
    }

    /** `astroquery_list_modules()` */
    method ListModulesTool() returns (r: Value)
      requires Valid()
      modifies executor
      ensures Valid()
      ensures r == ModulesListing(executor.resolve)
      ensures executor.cache == CacheFill(executor.resolve, old(executor.cache), |Modules|)
    {
      r := executor.ListModules();
    }

    /** `astroquery_list_functions(module_name)` */
    method ListFunctionsTool(moduleName: Option<string>) returns (r: Value)
      ensures r == FunctionsListing(Discover(executor.resolve), moduleName)
    {
      r := ListFunctions(executor.resolve, moduleName);
    }

    /** `astroquery_get_function_info(module_name, function_name)` */
    method GetFunctionInfoTool(moduleName: string, functionName: string) returns (r: Value)
      ensures r == FunctionInfoOf(Discover(executor.resolve), moduleName, functionName)
    {
      r := GetFunctionInfo(executor.resolve, moduleName, functionName);
    }

    /** `astroquery_execute(module_name, function_name, params)`: the
        parameters are forwarded as given. */
    method ExecuteTool(env: Astropy, invoke: Invoker, moduleName: string, functionName: string,
                       params: Option<seq<(string, Value)>>) returns (r: Value)
      requires Valid()
      modifies executor
      ensures Valid()
      ensures r == Respond(Execute(executor.resolve, env, invoke, moduleName, functionName, params))
      ensures executor.cache == CacheAfter(executor.resolve, old(executor.cache), moduleName)
    {
      var out := executor.ExecuteFunction(env, invoke, moduleName, functionName, params);
      r := if out.Ok? then out.value else HandleError(out.error);
    }
  }

  /** The execute tool answers either with a success envelope or with the
      seven-key form of a structured error: never the INTERNAL_ERROR
      fallback, since the executor classifies every exception. */
  lemma ExecuteToolAnswers(resolve: Resolver, env: Astropy, invoke: Invoker, moduleName: string, functionName: string,
                           params: Option<seq<(string, Value)>>)
    ensures var out := Execute(resolve, env, invoke, moduleName, functionName, params);
      var r := Respond(out);
      (out.Ok? ==> r.Dict? && Get(r.entries, "success") == Some(Bool(true)))
      && (out.Err? ==> out.error.Mcp? && r == ToDict(out.error.err) && FromDict(r) == Some(out.error.err))
  {
    var out := Execute(resolve, env, invoke, moduleName, functionName, params);
    ExecuteOutcome(resolve, env, invoke, moduleName, functionName, params);
    if out.Ok? {
      assert out.value.entries[0] == ("success", Bool(true));
    } else {
      ToDictRoundTrip(out.error.err);
    }
  }
}
