# astroquery-mcp in Dafny

A model of the core of astroquery-mcp, a server that exposes remote
astronomy services (SIMBAD, NASA ADS, the Virtual Observatory protocols,
MAST, the NASA Exoplanet Archive, HEASARC, IRSA) to an orchestrating
agent through one calling interface, together with proofs about it.

The network calls themselves are not modelled: every remote query (an
astroquery, pyvo or astropy call, already passed through the retry loop)
is a parameter carrying its outcome — a table, `None`, or the exception it
raised. What the model covers is the deterministic code around those calls:

- the generic engine (`executor.py`, `introspection.py`, `retry.py`):
  argument coercion by parameter name, normalisation of results into
  JSON-like values, the execution envelope with its error classification,
  the class cache, the module and function listings, the method filter and
  docstring scanner behind function discovery, the retry loop over a
  scripted sequence of attempt outcomes, and the rate limiters against a
  clock given as a parameter;
- the supporting logic: table conversion and row/column selection
  (`utils/table_utils.py`), the configuration defaults, the recursive merge
  and the lazily loaded global configuration (`config.py`), the structured
  error record (`models/errors.py`), the exception boundary of the four
  server tools (`server.py`), token lookup (`auth.py`) and coordinate
  validation and parsing dispatch (`utils/coord_utils.py`);
- the per-service tools: the static service catalogue
  (`tools/discovery.py`), ADS search, links and full text (`tools/ads.py`)
  and its compact field filter (`ads_tools.py`), the VO tools with service
  alias resolution, asynchronous job polling and row filters
  (`tools/vo.py`), the SIMBAD resolver fallback and region search
  (`tools/simbad.py`), and the request building and record tagging of the
  MAST, Exoplanet Archive, HEASARC and IRSA tools.

Python values are one datatype (`Py.Value`): `None`, booleans, integers,
floats with explicit NaN and infinity tags, strings, bytes, lists,
insertion-ordered dictionaries, and the numpy scalars, masked constants,
sky coordinates, quantities and tables that astroquery returns. An
operation that may raise returns `Outcome<T>`, either its value or the
exception (`Exceptions.Exception`: a built-in class with its text, or an
`MCPError`). Where the source updates state in place — the class cache of
the executor, the global configuration, the rate limiters and their
registry, and the loops that build lists and dictionaries — the model is a
class or a method with loop invariants, proved against a function that
specifies it.

Points where the code's behaviour may surprise, each modelled as the code
does it:

- the retry backoff has no upper cap;
- `serialize_result` maps neither NaN nor infinity to `None`, and it does
  not stringify values it does not recognise; only the table-cell path
  filters NaN;
- an ndarray whose size is not 1 raises in `serialize_result`, through
  `.item()`;
- the compact ADS reply reports `total_found` as the limit followed by "+"
  when it truncates, unlike the example in its own docstring.

## Model

| member | source | states |
|---|---|---|
| Errors.CodeFromValue | models/errors.py:8-37 | reading a code back from a string finds a code whose value is that string, and finds none only when no code has that value |
| Errors.CodeRoundTrip | models/errors.py:8-37 | every error code is read back from its own string value |
| Errors.CodeValueInjective | models/errors.py:8-37 | two codes with the same string value are the same code |
| Errors.AllCodesComplete | models/errors.py:8-37 | the list of codes holds every one of the sixteen codes |
| Errors.Raise | models/errors.py:48-53 | a record built from code, message and service gets recoverable true, an empty suggestion and empty details |
| Errors.ToDict | models/errors.py:58-68 | the JSON form has exactly the seven keys error, code, message, service, recoverable, suggestion, details in that order, with error true and code the code's string value |
| Errors.ToDictRoundTrip | models/errors.py:58-68 | the record is recovered from its JSON form, so the JSON form loses nothing |
| Errors.ToStringCode | models/errors.py:70-71 | the rendered "[CODE] service: message" starts with the code in brackets, and the code is read back from it whatever the service and message hold |
| Errors.CodeValueNoBracket | models/errors.py:8-37 | no code value contains ']', which is what makes the bracketed code readable |
| Errors.UpToBracketPrefix | models/errors.py:70-71 | the text up to the first ']' of a bracket-free word followed by ']' is that word |
| Errors.ValidationError | models/errors.py:74-85 | VALIDATION_ERROR, not recoverable, default service "validation", the fixed suggestion, the given details |
| Errors.NotFoundError | models/errors.py:88-102 | the given code (default NOT_FOUND), not recoverable, the fixed suggestion, the given details |
| Errors.ServiceError | models/errors.py:105-114 | SERVICE_ERROR, recoverable, the fixed suggestion, the given details |
| Server.HandleError | server.py:43-54 | every error response is a dict whose "error" entry is true |
| Server.HandleErrorCases | server.py:43-54 | a structured error's response reads back as that same error; any other exception gives the first six entries of a non-recoverable INTERNAL_ERROR charged to "unknown" with the exception text as message, and no "details" entry |
| Server.McpServer.ListModulesTool | server.py:57-70 | the tool answers with the module listing and fills the executor's class cache for every configured module |
| Server.McpServer.ListFunctionsTool | server.py:73-87 | the tool answers with the function listing of the discovered functions for the given module, or all modules |
| Server.McpServer.GetFunctionInfoTool | server.py:90-104 | the tool answers with the description of the named function, or the not-found response |
| Server.McpServer.ExecuteTool | server.py:107-150 | the tool forwards the parameters as given, answers with the executor's result or the error response, and updates the cache as one class lookup does |
| Server.ExecuteToolAnswers | server.py:147-150 | the execute tool answers with a success envelope or with the seven-key form of a structured error, never the INTERNAL_ERROR fallback |
| Executor.PrepareUntouched | executor.py:71-118 | None is passed through, and a name that no coordinate, radius or width/height rule claims leaves the value unchanged |
| Executor.PrepareCoordString | executor.py:85-93 | for a coordinate-like name a string is resolved as an object name, else parsed as a coordinate string, else kept as it is; it never raises |
| Executor.PrepareCoordDict | executor.py:75-84 | for a coordinate-like name a dict holding "ra" and "dec" becomes the sky coordinate built from them with "frame" defaulting to "icrs"; the coordinate rule is checked before the radius rule |
| Executor.PrepareRadius | executor.py:95-106 | for a radius-like name a bare number becomes that many arcmin, and a dict becomes value × unit with value from "value", else "v", else 1 and unit from "unit", else "u", else arcmin, an unknown unit falling back to arcmin |
| Executor.PrepareBox | executor.py:108-116 | "width" and "height" take a bare number as arcmin and read only "value" and "unit" from a dict |
| Executor.All | executor.py:135 | a comprehension over computed outcomes holds one value per element when it succeeds |
| Executor.AllOk | executor.py:135-155 | a comprehension succeeds exactly when every element does, and then holds their values in order |
| Executor.AllFails | executor.py:135-155 | a failed comprehension raises the first failing element's exception |
| Executor.Parts | executor.py:134-155 | the per-element outcomes of a dict's values or a list's items; a list starting with a table is read element-wise through the table summary |
| Executor.SerializeJson | executor.py:121-165 | serialising values built only from None, bool, int, float, str, list and dict changes nothing, so the normaliser is idempotent on them; it maps no NaN to None and stringifies nothing |
| Executor.SerializeDict | executor.py:150-151 | a serialised dict keeps its keys in order and holds each value serialised; it fails exactly when some value fails |
| Executor.SerializeList | executor.py:154-155 | a serialised list keeps its length and order and holds each item serialised |
| Executor.SerializeTables | executor.py:133-135 | a list whose first element is a table becomes the list of table summaries, None giving the empty summary |
| Executor.SerializeTablesFail | executor.py:133-135 | in such a list an element that is neither a table nor None raises AttributeError once the elements before it were summarised |
| Executor.SerializeScalars | executor.py:137-159 | a sky coordinate becomes exactly {ra_deg, dec_deg, frame}, a value with a unit becomes {value, unit}, and a numpy float becomes the native float |
| Executor.SerializeArrays | executor.py:157-159 | a numpy NaN stays NaN (unlike the table-cell conversion, which gives None), a length-1 array becomes its element and an empty array raises |
| Executor.ClassInstanceConfigured | executor.py:42-63 | a configured module resolves exactly when its class path imports; an ImportError becomes a non-recoverable SERVICE_ERROR and any other failure propagates unchanged |
| Executor.ClassInstanceUnknown | executor.py:33-40 | a name missing from the module table is a non-recoverable VALIDATION_ERROR whose suggestion lists every module |
| Executor.Attr | executor.py:204 | the attribute lookup finds a member of that name when it reports one, and reports missing when the class has none |
| Executor.PrepareParamsCollect | executor.py:215-217 | preparing the parameters one by one is the dict comprehension over their prepared values |
| Executor.PrepareParamsContents | executor.py:215-217 | preparing succeeds exactly when every parameter does; the prepared dict then has exactly the input keys, each holding its prepared value; otherwise it fails with the first failure |
| Executor.CollectContents | executor.py:215-217 | collecting outcomes under distinct keys succeeds exactly when all do, keeps the keys and values, and otherwise gives the first failure |
| Executor.CollectFirstFailure | executor.py:215-217 | the collection fails with the first failing outcome |
| Executor.PrepareParamsFails | executor.py:215-217 | once a parameter fails, the later ones change nothing |
| Executor.PrepareAll | executor.py:215-217 | the preparation loop computes the prepared parameters or the first failure |
| Executor.TruncateAll | executor.py:231 | the loop builds the logged copy of the parameters: for a dict's parameters, exactly their names in order, each mapped to the first 100 characters of str() of its value |
| Executor.TruncatedParams | executor.py:231 | the logged copy of a dict's first k parameters has exactly their names, in order, and under each name the first at most 100 characters of str() of its value |
| Executor.ExecuteParams | executor.py:226-232 | the "params" entry of a success envelope has exactly the caller's parameter names, in order, each mapped to the first 100 characters of str() of the value passed |
| Executor.Classify | executor.py:235-255 | an MCPError is re-raised unchanged; a TypeError becomes a non-recoverable VALIDATION_ERROR from "executor" whose details are exactly {"params": the list of parameter names, in order}; any other exception becomes a recoverable SERVICE_ERROR charged to the module, with the function and error text in its details |
| Executor.ExecuteOutcome | executor.py:183-255 | execute_function either returns a five-entry envelope marked successful or raises an MCPError; no other exception escapes |
| Executor.AttemptSucceeds | executor.py:200-233 | a success means the class resolved, the method exists, every parameter was prepared and the call returned; the envelope is {success, module, function, params, result} around the serialised result |
| Executor.AttemptMethodFails | executor.py:221-222 | an exception raised by the method reaches the classification unchanged |
| Executor.ExecuteNotFound | executor.py:200-236 | an unknown module and a missing method raise their VALIDATION_ERROR unchanged, not re-classified |
| Executor.TryExecute | executor.py:200-233 | the body of the try, from the class lookup on, computes what the specification of the call gives |
| Executor.Executor.constructor | executor.py:17-18 | the class cache starts empty |
| Executor.Executor.GetClassInstance | executor.py:21-63 | the lookup returns the configured class or the error, and caches only successful resolutions |
| Executor.Executor.ExecuteFunction | executor.py:168-255 | the method computes the specified outcome for absent parameters read as {} and updates the cache as one class lookup does |
| Executor.Executor.ListModules | executor.py:258-282 | the listing is computed and the cache filled for every configured module in table order |
| Executor.ModuleEntryAt | executor.py:264-277 | entry j of the listing names module j, its class path, and whether its class resolved |
| Executor.ModulesListed | executor.py:258-282 | the listing has one entry per configured module, in table order, available exactly when its class path imports |
| Executor.ParamEntries | executor.py:313-363 | one parameter entry per parameter, in order |
| Executor.FlattenAppend | executor.py:301-303 | concatenating the per-module lists module by module gives all functions in module order |
| Executor.ListFunctions | executor.py:285-328 | list_functions answers with the listing of the discovered functions |
| Executor.ListDiscovered | executor.py:296-328 | the loops build the listing for the module, or for all modules when no name or an empty name is given |
| Executor.ClassSpecModule | introspection.py:207-213 | introspection stamps the module name on everything it finds, and full names are module + "_" + method |
| Executor.DiscoverOmitsEmpty | introspection.py:245-246 | a module whose introspection found nothing does not appear in discovery |
| Executor.DiscoverStamped | introspection.py:239-247 | every function listed under a module belongs to it |
| Executor.ListFunctionsOfModule | executor.py:296-299 | listing one module shows only functions of that module; an undiscovered module gives the empty list with "Module not found" |
| Executor.GetFunctionInfo | executor.py:331-366 | get_function_info answers with the description of the named function of the discovered ones |
| Executor.DescribeDiscovered | executor.py:343-366 | the loop returns the first function with that method name, or the module or function not-found answer |
| Executor.FunctionInfoListed | executor.py:296-366 | get_function_info finds a function exactly when list_functions for that module shows one with that method name, and it then belongs to that module |
| Introspection.TypeHintStr | introspection.py:92-98 | an empty annotation gives "Any" and an object with a name gives that name |
| Introspection.TypeHintStrOther | introspection.py:98 | any other hint prints as its text with every "typing." removed: text without it is unchanged, and a leading "typing." is dropped |
| Introspection.ReplaceAllAbsent | introspection.py:98 | replacing a pattern that does not occur changes nothing |
| Introspection.Continue | introspection.py:123-127 | the continuation lines add at most one part per line scanned |
| Introspection.DescriptionAt | introspection.py:116-128 | a description is never longer than 200 characters |
| Introspection.ReadDescription | introspection.py:116-128 | the inner loop collects the rest of the matching line after ':' and ' ', then up to 4 following stripped lines until a blank line or a line starting with a letter with ':' in its first 30 characters, joined by spaces and cut to 200 characters |
| Introspection.ExtractParamDescription | introspection.py:101-134 | the line loop with its in_params flag computes the scan's result, at most 200 characters long |
| Introspection.NoHeaderNoDescription | introspection.py:103-134 | without a parameters header ("parameters", "parameters:", "args:", "arguments:", any case) the result is "" |
| Introspection.ScanReaches | introspection.py:114-128 | inside the section, the first line whose stripped text starts with the name gives the description, provided no colon-less end header comes before it |
| Introspection.ScanPasses | introspection.py:129-131 | inside the section, a line that neither names the parameter nor ends the section is passed over |
| Introspection.ScanStep | introspection.py:109-133 | one step of the scan: a header opens the section, outside it lines are skipped, inside it the name line describes, an end header gives "" and every other line continues |
| Introspection.KindNameLine | introspection.py:115 | a line classified as the parameter's own starts with its name |
| Introspection.ScanHeader | introspection.py:111-113 | a parameters header opens the section whatever the state before it |
| Introspection.PrefixMatches | introspection.py:115 | matching is by prefix: a line documenting "radius" is taken as the description of "ra" |
| Introspection.ColonHeadersDoNotStop | introspection.py:129-133 | a non-blank line with ':' in its first 30 characters is skipped before the Returns/Raises/Examples test, so "Returns:" never ends the search |
| Introspection.ScanContinues | introspection.py:129-133 | inside the section an end header gives "", and headers, entries and plain lines let the scan continue |
| Introspection.ParamDescriptionBounded | introspection.py:128 | a parameter description is at most 200 characters |
| Introspection.ScanBounded | introspection.py:101-134 | the scan's result is at most 200 characters from any starting line |
| Introspection.ModuleNamesDistinct | introspection.py:12-30 | the configured module names are distinct |
| Introspection.RStripUnderscore | introspection.py:172 | stripping trailing underscores gives a prefix of the name that does not end with '_' |
| Introspection.ClassName | introspection.py:151-159 | the class name is the last dotted segment of the class path and holds no '.' |
| Introspection.BuildParameters | introspection.py:192-204 | the loop over the signature builds the parameter list |
| Introspection.Kept | introspection.py:193-195 | the kept parameters are exactly those not named "self" or "cls" |
| Introspection.ParamInfosKept | introspection.py:192-204 | one ParameterInfo per kept parameter, in signature order |
| Introspection.ParamInfoFields | introspection.py:197-203 | each ParameterInfo keeps the name, has_default is true exactly when a default exists, default is None otherwise, and the description is the docstring's, at most 200 characters |
| Introspection.AbortPersists | introspection.py:223-228 | once an exception has escaped the member loop, nothing more is collected |
| Introspection.IntrospectClass | introspection.py:137-228 | the loop over dir(cls), with its filters and the outer handler that keeps the functions found so far, computes the introspection of the class, nothing when the class cannot be imported |
| Introspection.FirstAbort | introspection.py:162-226 | the first member whose inspection raises out of the loop, or none |
| Introspection.IntrospectPrefix | introspection.py:162-228 | the collected functions are exactly what the members before the first raising one emit, and the flag records whether one raised |
| Introspection.IntrospectClassEmits | introspection.py:137-228 | introspect_class never raises; it returns what the members before the first raising one emit, in dir() order |
| Introspection.EmittedSelected | introspection.py:162-217 | every emitted function carries the module and class name, the full name module + "_" + method, a public method name, and comes from one member |
| Introspection.EmitWanted | introspection.py:164-213 | a member is emitted only when public, callable, matching a prefix, always included or a class/static method, and with a signature; its parameters are the kept ones, and without a docstring the description is "Class.method" |
| Introspection.PrefixStems | introspection.py:172-173 | the prefix test also accepts a prefix minus its trailing "_" ("query", "cone_search") as well as names extending a prefix |
| Introspection.EmittedDistinct | introspection.py:162-207 | members with distinct names give distinct full names |
| Introspection.AppendDistinct | introspection.py:217 | appending a function with a new full name keeps the full names distinct |
| Introspection.FullNameInjective | introspection.py:207 | within one module the full name determines the method name |
| Introspection.FullNameCollision | introspection.py:206-207 | across modules full names can collide: "mast" with "catalogs_query_region" and "mast_catalogs" with "query_region" give the same name |
| Introspection.IntrospectClassDistinct | introspection.py:162-207 | one module's introspected full names are distinct |
| Introspection.DiscoverAllFunctions | introspection.py:231-245 | the loop over the module table computes the discovery |
| Introspection.NonEmptyExactly | introspection.py:241-242 | the kept modules are exactly those whose function list is not empty |
| Introspection.DiscoverEntries | introspection.py:231-245 | every discovered module is a configured one with its introspected, non-empty function list, and no configured module with functions is missing |
| Introspection.FirstWith | introspection.py:251-255 | the first function whose field (the full name here, the method name for `get_function_info` at executor.py:346-347) equals the name is found when one exists, and none is found exactly when none exists |
| Introspection.GetFunctionByName | introspection.py:248-255 | get_function_by_name returns the first function with that full name, modules in table order, or None |
| Introspection.FindByName | introspection.py:251-255 | the nested loop finds the first match in the flattened discovery |
| Introspection.FlattenContains | introspection.py:251-252 | a function is among the flattened ones exactly when some module's list holds it |
| Retry.RunSyncWithRetry | retry.py:121-152 | with None arguments replaced by the configured max_retries and backoff_factor, run_sync_with_retry returns the specified result after the specified number of calls and sleeps |
| Retry.RetryAttempts | retry.py:154-179 | the attempt loop returns or raises the specified outcome after the specified number of calls and completed sleeps, including the ValueError time.sleep raises at the first negative wait |
| Retry.SleepFails | retry.py:160-168 | when the second sleep raises, the outcome is ValueError("sleep length must be non-negative") after exactly two calls and the one completed sleep of 1 s |
| Retry.PowSign | retry.py:161 | backoff_factor ** attempt is non-negative for a non-negative factor; for a negative factor it is negative exactly at odd attempts, so the first negative wait is the second one, backoff_factor ** 1 |
| Retry.RetryStopsAt | retry.py:155-158 | the first attempt that does not fail transiently ends the loop: its outcome is returned after that many calls, with one backoff sleep per earlier failure; a negative backoff_factor with two earlier failures instead raises time.sleep's ValueError |
| Retry.RetryRunsOut | retry.py:155-179 | when every attempt fails transiently the result is the exhausted SERVICE_ERROR built from the last failure, after max_retries + 1 calls and max_retries sleeps; with a negative backoff_factor and max_retries ≥ 2 the second sleep raises ValueError instead |
| Retry.RetryBounded | retry.py:155-157 | the call is made at most max_retries + 1 times, and a returned value is the outcome of the last call made |
| Retry.StopAfterTransients | retry.py:155-158 | transient failures before an attempt are skipped over |
| Retry.RetrySucceeds | retry.py:154-157 | with k ≤ max_retries transient failures followed by a success, the success is returned after k + 1 calls, unless a negative backoff_factor makes the second sleep raise ValueError after 2 calls |
| Retry.RetryFatal | retry.py:156-158 | only TimeoutError and the connection errors are retried: any other exception propagates unchanged at its first occurrence (unless a negative backoff_factor made the second sleep raise ValueError first) |
| Retry.RetryExhausts | retry.py:172-179 | with every one of the max_retries + 1 attempts failing transiently, the call raises a recoverable SERVICE_ERROR whose details hold the last error's text and attempts = max_retries + 1, after exactly max_retries + 1 calls; a negative backoff_factor with max_retries ≥ 2 raises time.sleep's ValueError after 2 calls instead |
| Retry.RetryWaitsShape | retry.py:160-168 | the i-th sleep lasts backoff_factor ** i, so the first is 1 s with no upper cap, every sleep actually taken is non-negative, and no sleep follows the last call |
| Retry.RateLimiter.constructor | retry.py:185-192 | a new limiter has min_interval = 1 / requests_per_second and its last stamp at 0 |
| Retry.RateLimiter.Acquire | retry.py:195-204 | acquire waits min_interval − elapsed when elapsed < min_interval and nothing otherwise, then stamps the clock; the stamp advances by at least min_interval, so grants are at least min_interval apart and the stamp never decreases |
| Retry.RateLimiterRegistry.constructor | retry.py:207-208 | the per-service limiter table starts empty |
| Retry.RateLimiterRegistry.GetRateLimiter | retry.py:211-225 | a service's limiter is created on first use with rps from the rate limits or 10.0, and the same instance is returned afterwards; a configured rate of 0 raises a division error |
| TableUtils.MakeSerializableCases | utils/table_utils.py:10-47 | None and a masked value give None; a numpy int or bool becomes its native value; a numpy or native float that is NaN or ±Inf gives None and a finite numpy float becomes the native float; bytes are UTF-8 decoded with replacement; only a quantity (whose tolist raises) fails |
| TableUtils.MakeSerializablePlain | utils/table_utils.py:47 | plain JSON values (finite floats only) are returned unchanged |
| TableUtils.MakeSerializableIdempotent | utils/table_utils.py:10-47 | converting a converted value again changes nothing |
| TableUtils.RowCells | utils/table_utils.py:67-69 | one converted cell per column |
| TableUtils.TableToRecords | utils/table_utils.py:50-72 | the row loop with its inner column loop computes the records, [] for None or an empty table |
| TableUtils.RecordsFailFrom | utils/table_utils.py:65-70 | a row whose conversion raises makes the whole conversion raise that error |
| TableUtils.Names | utils/table_utils.py:63 | the column names, one per column, in order |
| TableUtils.RowRecord | utils/table_utils.py:66-69 | a row's record is keyed by exactly the column names and holds each cell converted |
| TableUtils.RecordsShape | utils/table_utils.py:50-72 | table_to_records yields one record per row, in row order, each keyed by exactly the table's column names |
| TableUtils.RecordsPrefixShape | utils/table_utils.py:65-70 | after n rows there are n records, each the record of its row |
| TableUtils.ColumnInfo | utils/table_utils.py:90-97 | a column description starts with name and dtype, and has a unit or description key exactly when that is set |
| TableUtils.ColumnInfos | utils/table_utils.py:88-98 | one column description per column, in order |
| TableUtils.MetaValues | utils/table_utils.py:106-107 | one converted value per meta entry |
| TableUtils.TableToDict | utils/table_utils.py:75-114 | the loops build the column list, the data and the meta mapping of the summary; None gives {columns: [], data: [], meta: {}, row_count: 0} |
| TableUtils.SerializeMeta | utils/table_utils.py:104-107 | the meta loop converts each entry in order, keeping its key |
| TableUtils.SummaryShape | utils/table_utils.py:109-114 | the summary has exactly the keys columns, data, meta, row_count; row_count = len(table) = len(data), and there is one column description per column |
| TableUtils.Filter | utils/table_utils.py:136-139 | a comprehension filter keeps exactly the elements that pass, in order |
| TableUtils.SelectColumns | utils/table_utils.py:141-142 | an empty selection returns the original table |
| TableUtils.SelectColumnsContents | utils/table_utils.py:117-144 | otherwise the result has exactly the requested (or all) names minus excluded ones that exist, in requested order, and the same meta |
| TableUtils.LimitTable | utils/table_utils.py:157-158 | no limit or a limit ≤ 0 returns the table unchanged |
| TableUtils.LimitTableRows | utils/table_utils.py:160 | a positive limit keeps the first min(limit, n) rows of every column, and the columns and meta are unchanged |
| Config.DeepMerge | config.py:146-153 | the merge, override entry by override entry, recursing where both old and new values are dicts, yields the specified merged dict; an empty override leaves the base unchanged |
| Config.MergeKeys | config.py:148-152 | after merging, a key is present exactly when it was in the base or in the override |
| Config.MergeKeeps | config.py:148-152 | a key the override does not mention keeps its old value |
| Config.MergeOverrides | config.py:149-152 | a key the override mentions holds the recursive merge when old and new values are both dicts, and the override value otherwise (dict and scalar replace each other) |
| Config.AsInt | config.py:35-36 | an `int` field accepts an integer as it is, and rejects everything but integers, booleans and floats |
| Config.AsReal | config.py:37 | a `float` field widens integers and keeps finite floats, and rejects everything else |
| Config.AsStr | config.py:63 | a `str` field is accepted exactly when it is a string, unchanged |
| Config.StrItems | config.py:50 | a `list[str]` field is accepted exactly when every item is a string, keeping the items in order |
| Config.StrEntries | config.py:20-22 | a `dict[str, str]` field is accepted exactly when every value is a string, keeping keys and values in order |
| Config.ParseAuth | config.py:11-14 | a validated auth entry is a dict whose `token_env` is that string |
| Config.AuthEntries | config.py:64 | the validated auth dict has the same keys in the same order, each entry validated as an auth entry |
| Config.ParseRateLimit | config.py:41-44 | a validated rate limit comes from a dict, and one without `requests_per_second` gets 10.0 |
| Config.RateEntries | config.py:67 | the validated rate-limit dict has the same keys in the same order, each entry validated as a rate limit |
| Config.DefaultConfigValues | config.py:71-113 | the default configuration validates with version 1.0, tokens ADS_TOKEN and MAST_TOKEN, a 60 s timeout, 3 retries, backoff factor 2.0, pages of 100 and at most 10000 rows, 5 and 10 requests per second for SIMBAD and ADS, a row limit of 100 and the resolver order simbad, ned, vizier |
| Config.DefaultAuthValue | config.py:75-78 | the default auth section validates to the ADS and MAST token variables |
| Config.DefaultEndpointsValue | config.py:79-93 | the default endpoints validate with TAP services gaia, vizier, heasarc, irsa, mast, SIA services heasarc, irsa, mast and no SSA services |
| Config.DefaultTapKeys | config.py:80-86 | the default TAP endpoints are all strings, under gaia, vizier, heasarc, irsa and mast |
| Config.DefaultSiaKeys | config.py:87-91 | the default SIA endpoints are all strings, under heasarc, irsa and mast |
| Config.StrEntriesKeys | config.py:20-22 | a dict whose values are all strings validates, keeping its keys in order |
| Config.DefaultDefaultsValue | config.py:94-102 | the default query parameters validate to timeout 60, 3 retries, backoff 2.0, 100 rows per ADS page and at most 10000 rows |
| Config.DefaultRateLimitsValue | config.py:103-106 | the default rate limits validate to 5 requests per second for simbad and 10 for ads |
| Config.DefaultSimbadValue | config.py:107-112 | the default SIMBAD section validates to a row limit of 100 and the fallback order simbad, ned, vizier |
| Config.LoadConfigKeepsSections | config.py:126-143 | a top-level section the configuration file does not mention is exactly the default one after loading |
| Config.ConfigHolder.constructor | config.py:157 | the global configuration starts unloaded |
| Config.ConfigHolder.GetConfig | config.py:160-165 | the first call stores and returns the loaded configuration; later calls return the stored instance unchanged |
| Config.ConfigHolder.ReloadConfig | config.py:168-172 | the freshly loaded configuration replaces the stored one and is returned |
| Auth.GetToken | auth.py:19-25 | a service without an auth entry has no token; otherwise the token is the value of the environment variable its entry names, if set |
| Auth.RequireToken | auth.py:40-60 | succeeds exactly when the token is set and not empty, returning it; otherwise a non-recoverable AUTHENTICATION_ERROR for the service whose `env_var` detail is the configured variable, or SERVICE_TOKEN in upper case without an entry |
| Auth.CheckAuthStatus | auth.py:102-113 | the status is built entry by entry over the configured auth services, as specified |
| Auth.StatusEntries | auth.py:105-111 | the status has one entry per configured service, in order, saying whether its variable is set (an empty value counts), naming the variable, and marking only ads as required |
| Auth.EmptyTokenDisagreement | auth.py:42-108 | an empty-string token is reported as configured yet refused when required |
| CoordUtils.ValidateCoordinates | utils/coord_utils.py:147-167 | accepts exactly RA in [0, 360) and Dec in [-90, 90], returning true; a bad RA gives the RA error even when Dec is also bad, and a bad Dec with a good RA gives the Dec error |
| CoordUtils.ValidateCoordinatesErrors | utils/coord_utils.py:148-165 | both range errors are non-recoverable INVALID_COORDINATES from the coordinates service, with one detail naming the offending component |
| CoordUtils.ValidateCoordinatesEdges | utils/coord_utils.py:147-157 | RA 0 with Dec -90 and RA 359.5 with Dec 90 are accepted; RA 360 and a NaN RA are refused |
| CoordUtils.ParseCoordinates | utils/coord_utils.py:29-45 | two numbers (int, bool, float or numpy float64) are read as degrees, anything else as hour angle and degrees; any failure becomes a non-recoverable INVALID_COORDINATES |
| CoordUtils.FlexibleByName | utils/coord_utils.py:68-79 | a non-empty target wins: the call succeeds exactly when name resolution does, with its position, and otherwise fails with a non-recoverable OBJECT_NOT_FOUND |
| CoordUtils.FlexibleByCoordinates | utils/coord_utils.py:81-82 | without a target and with both coordinates given, the result is that of parsing the coordinates |
| CoordUtils.FlexibleMissing | utils/coord_utils.py:84-91 | without a target and with a coordinate missing, the result is the non-recoverable MISSING_PARAMETER error |
| Discovery.ServiceNames | tools/discovery.py:8-108 | there are eight services, each filed under its own non-empty name, with distinct initials and hence distinct names |
| Discovery.ServiceAt | tools/discovery.py:8-108 | looking up a listed service's name finds that service |
| Discovery.OnlyAdsRequiresAuth | tools/discovery.py:13 | a service requires authentication exactly when it is ads |
| Discovery.GroupsConsistent | tools/discovery.py:111-1013 | signature groups that each fit their own service flatten into a table where every listed tool carries its service's prefix and has a signature named after it and naming its service |
| Discovery.AdsFits | tools/discovery.py:113-222 | the ADS signatures are exactly its four tools, in order, each naming ads and named with the prefix "ads_" |
| Discovery.SimbadFits | tools/discovery.py:223-308 | the SIMBAD signatures are exactly its three tools, in order, each naming simbad and named with the prefix "simbad_" |
| Discovery.VoFits | tools/discovery.py:309-482 | the VO signatures are exactly its six tools, in order, each naming vo and named with the prefix "vo_" |
| Discovery.HeasarcFits | tools/discovery.py:483-590 | the HEASARC signatures are exactly its five tools, in order, each naming heasarc and named with the prefix "heasarc_" |
| Discovery.IrsaFits | tools/discovery.py:591-680 | the IRSA signatures are exactly its three tools, in order, each naming irsa and named with the prefix "irsa_" |
| Discovery.MastFits | tools/discovery.py:681-815 | the MAST signatures are exactly its five tools, in order, each naming mast and named with the prefix "mast_" |
| Discovery.NeaFits | tools/discovery.py:816-916 | the Exoplanet Archive signatures are exactly its four tools, in order, each naming nea and named with the prefix "nea_" |
| Discovery.GcnFits | tools/discovery.py:917-1012 | the GCN signatures are exactly its five tools, in order, each naming gcn and named with the prefix "gcn_" |
| Discovery.CatalogueConsistent | tools/discovery.py:8-1013 | every tool a service lists is named with the service's prefix ("ads_", "simbad_", …) and has a signature in the signature table, named after the tool and naming that service |
| Discovery.AllServices | tools/discovery.py:1025 | the service list holds every service of the table, in table order |
| Discovery.ListOf | tools/discovery.py:1027-1030 | a listing never has more entries than there are services |
| Discovery.InCategoryAtMost | tools/discovery.py:1028 | filtering by category never adds services |
| Discovery.InCategoryAppend | tools/discovery.py:1028 | filtering keeps the kept services in their original order |
| Discovery.InCategoryMembers | tools/discovery.py:1028 | a service is kept exactly when it is listed and has the category |
| Discovery.ListServicesAll | tools/discovery.py:1025-1030 | without a category, or with an empty one, all eight services are dumped, in table order |
| Discovery.ListOfCategory | tools/discovery.py:1027-1030 | with a category, the listing holds the dumps of exactly the services of that category |
| Discovery.ListServicesCategory | tools/discovery.py:1016-1030 | `list_services(category)` holds the dumps of exactly the catalogue's services of that category |
| Discovery.GetFunctionSignatures | tools/discovery.py:1042-1053 | the loop over the service's tools returns the specified signatures: none for an unknown service, else the dump of each tool that has a signature, in tool order |
| Discovery.SignaturesAtMost | tools/discovery.py:1048-1051 | there is at most one signature per tool |
| Discovery.SignaturesAll | tools/discovery.py:1048-1051 | when every tool has a signature, there is exactly one dump per tool, in tool order |
| Discovery.SignaturesUnknown | tools/discovery.py:1042-1043 | an unknown service has no signatures |
| Discovery.CompleteFor | tools/discovery.py:1048-1051 | in a consistent catalogue no tool of a service is skipped, and each signature names its tool and service |
| Discovery.SignaturesComplete | tools/discovery.py:1033-1053 | a known service gets one signature per listed tool, in listing order, each naming the tool and the service |
| Discovery.MissingTokenAssignments | tools/discovery.py:1082-1086 | the four assignments to the report of a service missing its token give the base report marked unavailable, followed by auth_configured, auth_env_var and the error |
| Discovery.ConfiguredAssignment | tools/discovery.py:1082 | recording auth_configured appends it after the base report |
| Discovery.ReportAvailable | tools/discovery.py:1073-1078 | the report's `available` entry is the one the base report sets |
| Discovery.ReportEnvVar | tools/discovery.py:1084 | the report of a service missing its token names the token variable |
| Discovery.AuthRecordFields | auth.py:107-111 | the auth record of a service gives `configured` as whether its variable is set and `env_var` as the variable |
| Discovery.GetServiceStatus | tools/discovery.py:1056-1088 | the report equals the specified status computed from the auth status of the configuration and environment |
| Discovery.StatusForAvailable | tools/discovery.py:1073-1088 | a known service is available except when it requires auth and its configured token variable is unset; then the report also names that variable |
| Discovery.StatusAvailable | tools/discovery.py:1067-1088 | for a service of the catalogue, the report says available unless it requires auth and its token variable is unset, in which case it names that variable |
| Discovery.StatusUnknown | tools/discovery.py:1067-1068 | an unknown service gets the not-available report naming it |
| Ads.SearchRequestBounds | tools/ads.py:58-66 | the page size is capped at 1000 and otherwise kept, the page is at least 1 and otherwise kept, the start is (page - 1) times the page size and not negative for a non-negative size, and the default fields stand in for missing ones |
| Ads.NegativePageSize | tools/ads.py:58-62 | no lower bound applies to the page size: a size of -1 on page 2 gives start -1 |
| Ads.PaperKeysDistinct | tools/ads.py:95-105 | the nine paper keys are distinct |
| Ads.SearchPaperShape | tools/ads.py:95-105 | a converted paper has the nine paper keys in order, each holding its converted cell |
| Ads.MissingColumn | tools/ads.py:97-104 | a missing column reads as an empty title, an empty list, None for text and 0 for a count |
| Ads.FirstOfCell | tools/ads.py:97-102 | where a list is expected, an empty text cell reads as missing, a text cell as its first character and a list cell as its first element |
| Ads.ArrayCell | tools/ads.py:97-104 | a cell holding a numpy array of two or more elements makes every reader raise numpy's ValueError ("truth value ... ambiguous"); a one-element array is read, as a list, exactly when its element is truthy |
| Ads.AmbiguousAuthors | tools/ads.py:96-99 | a row whose title reads but whose author cell is an array of two or more names raises numpy's ValueError instead of giving a paper |
| Ads.AmbiguousAuthorsFail | tools/ads.py:93-128 | such an author cell in the first row fails the whole search as a recoverable SERVICE_ERROR whose message is "ADS search failed: " followed by numpy's message |
| Ads.SearchNeedsToken | tools/ads.py:26-54 | without a usable token the search fails with the non-recoverable AUTHENTICATION_ERROR, whatever the response |
| Ads.SearchEmpty | tools/ads.py:82-90 | a missing or empty result is a success with zero counts and no data |
| Ads.PageReplyFields | tools/ads.py:108-116 | the page reply carries the total, the number of papers, the papers and whether the page came back full |
| Ads.SearchCounts | tools/ads.py:93-116 | when every row converts, there is one paper per row in row order, both counts are the row count and the reply is truncated exactly when the page came back full |
| Ads.SearchRowFails | tools/ads.py:93-128 | the first row that fails to convert fails the whole search, re-wrapped as any other failure |
| Ads.SearchFailures | tools/ads.py:118-128 | an MCPError from the query passes unchanged; any other failure becomes a recoverable SERVICE_ERROR whose message carries its text |
| Ads.RecordNotFound | tools/ads.py:155-181 | an empty answer is a non-recoverable BIBCODE_NOT_FOUND naming the bibcode, not re-wrapped |
| Ads.RecordShape | tools/ads.py:167-178 | a found record has the nine paper keys followed by identifiers |
| Ads.OnlyType | tools/ads.py:238 | filtering by link type keeps only links of that type that are not None |
| Ads.Present | tools/ads.py:242 | dropping the None links never adds a link |
| Ads.UnfilteredLinks | tools/ads.py:226-242 | without a link type the links are abstract, citations, references and ads_pdf, plus arxiv exactly when the bibcode mentions arXiv, with the ADS abstract and PDF addresses |
| Ads.OnlyTypeAtMostOne | tools/ads.py:238 | on links with distinct names, filtering by a type leaves at most one link, exactly when it is present and not None, holding its address |
| Ads.FilteredLinks | tools/ads.py:237-242 | a link-type filter leaves at most that link, and leaves it exactly when the paper has it |
| Ads.FulltextChoice | tools/ads.py:272-294 | the reply has a URL or an error but never both; the error comes exactly when the preferred format's links are missing, and a PDF taken from arXiv uses the /pdf/ address with .pdf appended |
| Ads.FulltextAlwaysFound | tools/ads.py:269-296 | after a successful link lookup the full text is always found: the ADS PDF gateway for pdf, the abstract page otherwise |
| AdsCompact.PresetsNest | ads_tools.py:16-52 | the presets are minimal, standard, extended and full, with 5, 10 and 13 fields, each within the next; full selects no field list |
| AdsCompact.AbstractTruncated | ads_tools.py:109-113 | a string abstract longer than the limit keeps its first characters up to the limit and ends with "..." |
| AdsCompact.AbstractShort | ads_tools.py:109-113 | a string abstract within the limit is kept as it is |
| AdsCompact.AbstractList | ads_tools.py:110-113 | a list-valued abstract is replaced by its first element, shortened when that is a long string |
| AdsCompact.AuthorsCapped | ads_tools.py:116-118 | more authors than the cap keep the first ones and end with a note counting the others |
| AdsCompact.AuthorsKept | ads_tools.py:116-118 | an author list within the cap is left alone |
| AdsCompact.CellValue | ads_tools.py:104-135 | a cell raises exactly when the abstract rule (under a positive limit) or the author rule (under a cap) asks for the truth of an array of two or more elements, and then with numpy's ValueError; a cell those rules do not take is converted by the remaining rules |
| AdsCompact.ArrayCells | ads_tools.py:109-118 | under the abstract or author rule, an array of two or more elements raises numpy's ValueError, and a one-element array with a falsy element goes to the remaining rules |
| AdsCompact.OtherCells | ads_tools.py:121-135 | other cells turn numpy scalars into Python values and masked cells into None, and keep plain values |
| AdsCompact.FilterDistinct | ads_tools.py:94 | keeping some names of a list without repeats leaves no repeats |
| AdsCompact.KeptFieldsSpec | ads_tools.py:92-99 | when some requested field exists, exactly the requested fields that exist are kept; otherwise every column is kept; distinct requests over distinct columns stay distinct |
| AdsCompact.PaperFields | ads_tools.py:104-137 | a row's paper is built exactly when none of its cells raises; it then has exactly the kept fields as keys, in order, each holding its converted cell |
| AdsCompact.Paper | ads_tools.py:104-137 | a row that cannot be converted raises numpy's ValueError |
| AdsCompact.PaperOk | ads_tools.py:104-137 | a row's paper is built exactly when no abstract or author cell under a limit or cap holds an array of two or more elements |
| AdsCompact.Records | ads_tools.py:102-139 | a finished list holds one record per row |
| AdsCompact.RecordsOk | ads_tools.py:102-139 | the records are built exactly when every row's paper is, and are then those papers in row order |
| AdsCompact.RecordsError | ads_tools.py:102-139 | a failed list fails with the error of one of its rows |
| AdsCompact.RecordsFailFrom | ads_tools.py:102-139 | the first row that raises decides the error of the whole list |
| AdsCompact.RecordsSame | ads_tools.py:102-139 | the records depend only on the papers of their rows |
| AdsCompact.Papers | ads_tools.py:102-139 | a finished list holds one paper per row; a failed one fails with numpy's ValueError |
| AdsCompact.PapersOk | ads_tools.py:102-139 | the papers of the first rows are built exactly when each row's paper is, and are then those papers in row order |
| AdsCompact.Shown | ads_tools.py:82-84 | the rows kept after `max_results` are never more than the rows found |
| AdsCompact.Filtered | ads_tools.py:74-147 | the filtered result is a non-empty dict, or numpy's ValueError raised by a cell |
| AdsCompact.SummaryFields | ads_tools.py:141-147 | the returned dict has count, total_found, truncated, results and fields, in order; the count is the number of records, the total is the row count followed by "+" when truncated, and the kept fields are echoed |
| AdsCompact.PapersOf | ads_tools.py:102-139 | the row loop builds the specified papers, one per row in row order, or stops at the first row that raises, with its error |
| AdsCompact.PaperOfRow | ads_tools.py:104-137 | the field loop builds the specified paper of the row, or stops at the first cell that raises, with its error |
| AdsCompact.FilterAdsResult | ads_tools.py:55-147 | `filter_ads_result` returns, or raises, the specified filtered result |
| AdsCompact.FindColumnNames | ads_tools.py:106 | looking up a column depends only on the column names |
| AdsCompact.SliceRowValue | ads_tools.py:83 | cutting the table to its first rows keeps the columns and the cells of those rows |
| AdsCompact.FilteredPapers | ads_tools.py:74-147 | a non-empty result is the summary of the papers of the rows kept after `max_results`, or the failure of the first of them that raises |
| AdsCompact.FilteredRecords | ads_tools.py:102-147 | a non-empty result succeeds exactly when every kept row's paper is built; it then has count, total_found, truncated, results and fields, in order; there is one record per kept row, the count is the number of records, each record is its row's converted kept fields, and the kept fields are echoed |
| AdsCompact.FilteredFails | ads_tools.py:102-139 | a non-empty result fails exactly when some kept row has an abstract under a limit or an author list under a cap holding an array of two or more elements |
| AdsCompact.SlicedPapers | ads_tools.py:83-139 | the papers of the cut table are those of the first rows of the table |
| AdsCompact.FilteredTruncation | ads_tools.py:82-143 | a result that is built is truncated exactly when a non-zero limit is below the row count; then a positive limit keeps that many papers and total_found reads as the limit followed by "+", a negative one slices as Python does, and otherwise every row is kept with the row count as total |
| AdsCompact.QueryAdsCompact | ads_tools.py:196-260 | every failure is a SERVICE_ERROR of the ads_compact service |
| AdsCompact.UnknownPresetRewrapped | ads_tools.py:200-260 | an unknown preset's VALIDATION_ERROR is caught by the generic handler and comes back as a recoverable SERVICE_ERROR whose message carries its text |
| AdsCompact.ImportFailureFirst | ads_tools.py:244-251 | a missing ADS module is a non-recoverable failure naming the import error, whatever the preset |
| AdsCompact.CompactSuccess | ads_tools.py:196-242 | the query succeeds exactly when the module loads, a named preset exists, the search succeeds and filtering it with 200-character abstracts and at most 10 authors raises nothing; the reply is success, the query and the preset label, followed by that filtered result |
| AdsCompact.CompactAmbiguous | ads_tools.py:228-260 | an abstract or author array of two or more elements in a row the query keeps makes it fail as a recoverable SERVICE_ERROR, "ADS query failed: " followed by numpy's message |
| AdsCompact.GetPaperDetails | ads_tools.py:303-311 | every failure is a recoverable SERVICE_ERROR |
| AdsCompact.PaperNotFound | ads_tools.py:282-286 | a bibcode with no match gives success false with a message, not an error |
| AdsCompact.PaperDetailsFirstRow | ads_tools.py:288-301 | a found paper never raises, since no limit or cap asks for the truth of a cell; the details are success, the bibcode and the filtered result holding only the first row's paper, truncated exactly when more than one row came back |
| AdsCompact.DetailsKeepText | ads_tools.py:109-123 | with no abstract limit and no author cap, text and lists of plain values pass through unchanged |
| Vo.ResolveOrder | tools/vo.py:24-47 | a name that is not a URL resolves to its configured endpoint for the service type when there is one, else to its lower-cased alias, else stays as it is |
| Vo.AliasesAreUrls | tools/vo.py:33-43 | every built-in alias is a URL |
| Vo.AliasesIgnoreType | tools/vo.py:33-47 | a name configured for neither of two service types resolves the same way for both, through the one alias table |
| Vo.ResolveIdempotent | tools/vo.py:12-47 | when the configured endpoints of the type are URLs, a resolved address resolves to itself |
| Vo.PollJob | tools/vo.py:86-100 | the polling loop, two seconds per unsettled read, ends as specified |
| Vo.PollOutcome | tools/vo.py:86-100 | polling stops at the first settled phase among the first 151 reads; when none of those is settled it times out after 302 seconds, and only then |
| Vo.PollFromOutcome | tools/vo.py:88-91 | from any read on, polling stops at the first settled phase or times out at 302 seconds with every later read unsettled |
| Vo.TapCounts | tools/vo.py:122-144 | a result table gives one record per row: both counts are the row count, the data are the records and the reply is truncated exactly when the rows reach max_rows |
| Vo.TapNoResult | tools/vo.py:122-132 | no result gives zero counts, no data and no truncation flag |
| Vo.TapFailures | tools/vo.py:146-157 | an MCPError passes unchanged; any other failure becomes a recoverable SERVICE_ERROR whose message carries its text |
| Vo.AsyncTimesOut | tools/vo.py:86-100 | a job unsettled for 151 reads fails with a recoverable TIMEOUT_ERROR giving the address and 302 seconds elapsed |
| Vo.AsyncSettles | tools/vo.py:102-112 | a settled job in phase ERROR fails with a non-recoverable SERVICE_ERROR; any other settled job yields what it fetches |
| Vo.ListTableEntries | tools/vo.py:176-183 | the nested loop lists the specified entries |
| Vo.TableEntriesListed | tools/vo.py:176-183 | every table of every schema is listed once, in order, after the tables of the schemas before it |
| Vo.TapListTablesReply | tools/vo.py:184-200 | the count is the number of tables listed; any failure, an MCPError included, becomes a recoverable SERVICE_ERROR |
| Vo.LocateTable | tools/vo.py:221-228 | the search loops, each left at its first match, find the specified table |
| Vo.FindTableFirst | tools/vo.py:222-228 | the table found matches the name, exactly or as a suffix after a dot, and no table before it in schema order matches; none is found only when no table matches |
| Vo.FindInFirst | tools/vo.py:223-226 | within one schema, the table found is the first that matches |
| Vo.ColumnEntries | tools/vo.py:241-249 | the column loop gives one entry per column, in order |
| Vo.TapTableSchemaReply | tools/vo.py:230-258 | a name no table matches is a non-recoverable NOT_FOUND; otherwise the schema belongs to the first matching table and counts its columns |
| Vo.CollectEntries | tools/vo.py:321-334 | the record loop collects the specified entries |
| Vo.EntriesFailFrom | tools/vo.py:321-334 | a record that fails to convert fails the whole loop with its exception |
| Vo.EntriesKept | tools/vo.py:321-334 | the kept entries are exactly those of the records not filtered out; with no record filtered out there is one entry per record, in order |
| Vo.NoFilterKeepsAll | tools/vo.py:331 | without a format filter no record is dropped |
| Vo.SsaKwargsShape | tools/vo.py:387-389 | the SSA search passes the position, a diameter of twice the radius, and the band only when it is given |
| Vo.SiaSsaValidateFirst | tools/vo.py:294-379 | bad coordinates are reported before any search, for SIA and SSA alike |
| Vo.CollectServices | tools/vo.py:468-482 | the registry loop collects the specified services |
| Vo.ServicesListed | tools/vo.py:468-482 | exactly the resources that convert and have an access URL are listed, in order |
| Vo.ServiceEntryShape | tools/vo.py:471-478 | every service entry has its access URL, a description of at most 500 characters and the requested service type |
| Vo.DiscoverCounts | tools/vo.py:484-491 | both counts are the number of services found while the data hold only the first 100 of them |
| Simbad.InsertByKey | tools/simbad.py:283 | inserting one element lengthens the sequence by one |
| Simbad.InsertPermutes | tools/simbad.py:283 | inserting adds exactly that element |
| Simbad.SortByKey | tools/simbad.py:283 | sorting keeps the number of records |
| Simbad.SortPermutes | tools/simbad.py:283 | sorting is a permutation |
| Simbad.WithKeyAppend | tools/simbad.py:283 | picking the elements of one key distributes over concatenation |
| Simbad.WithKeyCons | tools/simbad.py:283 | picking the elements of one key from a sequence with a first element |
| Simbad.SortedTail | tools/simbad.py:283 | the tail of a sorted sequence is sorted |
| Simbad.WithKeyAbove | tools/simbad.py:283 | a sorted sequence starting above a key holds nothing with that key |
| Simbad.InsertNoneBelow | tools/simbad.py:283 | inserting an element not below a bound keeps every element not below it |
| Simbad.InsertSorted | tools/simbad.py:283 | inserting into a sorted sequence keeps it sorted |
| Simbad.InsertWithKey | tools/simbad.py:283 | inserting into a sorted sequence puts the new element after every element with the same key |
| Simbad.InsertPastHead | tools/simbad.py:283 | an element not below the head is inserted after it, behind the elements of its key |
| Simbad.SortByKeyStable | tools/simbad.py:283 | the sort result is sorted and keeps the order of the elements of each key |
| Simbad.SortByKeySpec | tools/simbad.py:283 | the sort is a sorted permutation that keeps the order within each key: it is stable, as `list.sort` is |
| Simbad.RegionQuery | tools/simbad.py:239-251 | the row limit is the smaller of the caller's limit and the configured one, and the query is centred on the position with the radius in the chosen unit |
| Simbad.EnhancedEntries | tools/simbad.py:267-280 | enhancing a record adds only ra_deg, dec_deg and separation_arcmin; the separation becomes its sort key; a record without RA and DEC, or one that does not parse, is left alone |
| Simbad.RegionValidation | tools/simbad.py:225-237 | coordinates are checked first and then the unit, a bad unit being a non-recoverable VALIDATION_ERROR naming it; neither failure depends on the query |
| Simbad.RegionSorted | tools/simbad.py:253-292 | a non-empty result gives every enhanced record, counted, sorted by separation with records without one last, records of equal separation kept in table order |
| Simbad.ResolveWithFallback | tools/simbad.py:129-153 | the resolver loop returns the specified outcome |
| Simbad.FallbackFirst | tools/simbad.py:133-141 | the first resolver that succeeds gives the answer |
| Simbad.FallbackExhausted | tools/simbad.py:142-153 | when no resolver succeeds the error is a non-recoverable OBJECT_NOT_FOUND listing every failure in order |
| Simbad.DefaultFallback | tools/simbad.py:129-153 | with the default order, SIMBAD is skipped, NED answers when it can, Sesame otherwise, and when both fail both failures are listed |
| Simbad.NedResolve | tools/simbad.py:156-181 | an empty NED answer is a non-recoverable OBJECT_NOT_FOUND of ned naming the object; an answer has name, main_id, coordinates, object_type and resolver ned |
| Simbad.VizierResolve | tools/simbad.py:184-203 | Sesame fails exactly when name resolution does, as a non-recoverable OBJECT_NOT_FOUND of vizier; otherwise the answer names the object, its coordinates and resolver sesame |
| Simbad.FirstLower | tools/simbad.py:69-73 | the column chosen is the first whose lower-cased name matches; none is chosen when no name matches |
| Simbad.PickFirst | tools/simbad.py:84-102 | the loops over candidate columns pick the specified first usable column |
| Simbad.FirstPickSpec | tools/simbad.py:84-102 | the first candidate column the row has and whose value is usable decides |
| Simbad.FirstPickNone | tools/simbad.py:84-102 | with no usable candidate column nothing is added |
| Simbad.Identifiers | tools/simbad.py:111-112 | there is one identifier per row; the lookup fails exactly when there are rows and neither an id nor an ID column |
| Simbad.SetNew | tools/simbad.py:89-112 | setting a key the dict lacks appends it |
| Simbad.DescribedKeys | tools/simbad.py:69-102 | the answer has name, main_id, coordinates and object_type, then distance_pc and morphological_type when a candidate column gives them; main_id follows the case-insensitive column rule |
| Simbad.WithIdsKeys | tools/simbad.py:105-112 | asking for identifiers appends them exactly when the identifier query gives a table, and changes nothing before them |
| Simbad.ResolveEmptyDefers | tools/simbad.py:45-47 | an empty SIMBAD answer defers to the fallback resolvers, whose result or error comes back unchanged |
| Simbad.FallbackErrors | tools/simbad.py:146-153 | the fallback loop only raises an MCPError |
| Simbad.SimbadAnswerKeys | tools/simbad.py:49-114 | a SIMBAD answer has the base keys, the optional distance and morphology, then the identifiers when asked for and found |
| Simbad.ObjectInfoDegrades | tools/simbad.py:320-358 | a failed detail query that is not an MCPError leaves the basic info with a warning; an MCPError propagates; the measurement query never decides failure; keys other than details, measurement_count and warning are those of the basic info |
| Mast.ProprietaryFields | tools/mast.py:55-144 | a record with dataRights is flagged proprietary exactly when they are not PUBLIC; one without is flagged not proprietary by the region search and left alone by the criteria search; no other field changes |
| Mast.MastTagFields | tools/mast.py:52-144 | a tagged record names MAST as its archive, carries the proprietary flag as its search sets it, and keeps every other field |
| Mast.BuildCriteria | tools/mast.py:102-110 | the four conditional insertions build exactly the truthy criteria, in parameter order |
| Mast.CriteriaRequired | tools/mast.py:112-120 | without any criterion the call is a non-recoverable VALIDATION_ERROR that sends no search; with one, the reply depends only on the search for the criteria given |
| Mast.ProductCounts | tools/mast.py:197-230 | no observations give an empty product list without asking for products; otherwise product_count is the number of product rows |
| Mast.UrlInfoFields | tools/mast.py:282-292 | a URL entry has the file name, type and size, the size being None exactly when the row's size is falsy, plus the download URL built from dataURI exactly when it is truthy |
| Mast.DownloadUrlsCount | tools/mast.py:258-301 | url_count is the number of URL entries, one per product row after the optional filtering, each that row's entry |
| Mast.MastValidatesFirst | tools/mast.py:27-333 | bad coordinates are reported before the region and catalog searches, whatever the search would give |
| Mast.RegionTagged | tools/mast.py:39-67 | a region result with rows counts its rows and returns every record tagged |
| Mast.RegionFailure | tools/mast.py:68-78 | a search failure that is not an MCPError becomes a recoverable SERVICE_ERROR "MAST query failed: " plus the error text, with ra, dec and the error in its details; an MCPError is re-raised unchanged |
| Nea.ListTablesSpec | tools/nea.py:12-37 | the listing names all eight tables once, in order, each with its description, and table_count is 8 |
| Nea.QueryKwargsSpec | tools/nea.py:70-79 | the table is always sent; select only when it is truthy and not "*"; where and order only when truthy; each under its own name |
| Nea.KeyAfterTable | tools/nea.py:70-79 | an optional argument appended after the table keeps the table and is present exactly when it is given |
| Nea.BuildQueryKwargs | tools/nea.py:70-79 | the dict and its three conditional insertions build the specified keyword arguments |
| Nea.UnknownTableFirst | tools/nea.py:59-68 | an unknown table is a non-recoverable VALIDATION_ERROR listing the available tables, sent before any search; for a known table the reply depends only on the search for its keyword arguments |
| Nea.CriteriaCounts | tools/nea.py:87-106 | an empty result gives zero counts; otherwise both counts are the row count and the records come back untagged |
| Nea.ObjectNotFoundPropagates | tools/nea.py:141-170 | an empty lookup is a non-recoverable OBJECT_NOT_FOUND that the generic handler leaves alone; a result gives one record per row and result_count is their number; an MCPError from the lookup passes unchanged |
| Nea.RegionFailures | tools/nea.py:196-240 | bad coordinates are reported before the search; a search failure that is not an MCPError becomes a recoverable SERVICE_ERROR |
| Heasarc.ListCatalogsReply | tools/heasarc.py:24-58 | no catalog table gives an empty list; a table gives one record per row, counted; every failure is wrapped |
| Heasarc.ColumnsReply | tools/heasarc.py:79-109 | no column table is a non-recoverable CATALOG_NOT_FOUND that the generic handler leaves alone; a table gives one record per column row, counted; an MCPError from the query passes unchanged |
| Heasarc.RegionKwargsSpec | tools/heasarc.py:137-145 | the search is sent the mission, the position and the radius in arcminutes, and the comma-joined field list exactly when columns are given and not empty |
| Heasarc.RegionReply | tools/heasarc.py:133-177 | bad coordinates are reported before any search; a result with rows counts them and returns every record tagged with HEASARC and the catalog |
| Heasarc.QueryTapSync | tools/heasarc.py:192-203 | the TAP query of the heasarc service is synchronous with the default row limit: no job is ever submitted |
| Heasarc.HeasarcTapUrl | tools/vo.py:24-47 | the heasarc TAP service is its configured endpoint, or the HEASARC Xamin service when none is configured |
| Heasarc.FirstPrefix | tools/heasarc.py:227-234 | the if/elif chain picks the first mission prefix the name starts with, and none when no prefix matches |
| Heasarc.GetDataLinks | tools/heasarc.py:216-242 | the links dict and its if/elif chain give the specified reply |
| Heasarc.DataLinksFixed | tools/heasarc.py:220-224 | the links always hold the obsid, the catalog and the browse page |
| Heasarc.DataUrlSpec | tools/heasarc.py:226-234 | a data_url is present exactly when the lower-cased catalog starts with xmm, chandra, swift or fermi, and it is the download area of the first such mission |
| Irsa.SelectCatalogs | tools/irsa.py:40-47 | the loop that skips unselected catalogs builds the specified selection |
| Irsa.KeptSpec | tools/irsa.py:40-47 | keeping every item keeps every entry in order; otherwise the result holds exactly the entries of the kept items |
| Irsa.SelectionSpec | tools/irsa.py:41-47 | without a filter every catalog is listed in order; with one, exactly the catalogs whose name or description contains it, ignoring case |
| Irsa.ListCatalogsReply | tools/irsa.py:23-65 | any failure is a recoverable SERVICE_ERROR recording the filter; a catalog list gives at most one entry per catalog, and one per catalog without a filter |
| Irsa.RegionKwargsSpec | tools/irsa.py:94-101 | the search is sent the catalog, the position and the radius in arcminutes, and the column list exactly when it is given and not empty |
| Irsa.RegionReply | tools/irsa.py:89-133 | bad coordinates are reported before any search; a result with rows counts them and returns every record tagged with IRSA and the catalog |
| Irsa.CollectImages | tools/irsa.py:184-212 | the two band loops and the fallback build the specified images |
| Irsa.ImagesSpec | tools/irsa.py:186-212 | a WISE mission gives the four WISE bands, a 2MASS mission then the three 2MASS bands, and any other mission only its finder chart |
| Irsa.ImagesReply | tools/irsa.py:165-231 | the tool fails exactly when the coordinates are bad, with their error, or else when the IRSA module cannot be imported, with a recoverable SERVICE_ERROR "IRSA image query failed: " and the import message; otherwise both counts are the number of images, never zero |
| Archive.Tagged | tools/irsa.py:122-124 | tagging keeps the number of records |
| Archive.TagRecords | tools/heasarc.py:166-168 | the tagging loop replaces each record by its tagged form, in order |
| Archive.ArchiveTagFields | tools/heasarc.py:166-168 | a tagged record names its archive and catalog, and keeps every other field and every key |
| Archive.TaggedSame | tools/nea.py:97-106 | the tools that do not tag return the records as they are |
| Archive.GivenArgsSpec | tools/mast.py:102-110 | the optional arguments built are exactly the given ones, each under its own name, and none exactly when none is given |
| Archive.GivenArgsSnoc | tools/mast.py:102-110 | one more optional argument appends it exactly when it is given |
| Archive.InsertGiven | tools/nea.py:75-79 | a conditional insertion appends the argument exactly when it is given |
| Archive.ListingCounts | tools/heasarc.py:153-177 | both counts are the row count; no rows give no data, otherwise one tagged record per row, in row order, each holding that row's cells |
| ToolCommon.ConvertRows | tools/mast.py:280-282 | the loop over the rows of a result stops at the first row whose conversion raises and gives back that error; otherwise it gives the specified conversion |
| ToolCommon.MapRowsOk | tools/ads.py:93-94 | a conversion succeeds exactly when every row converts, and then holds one value per row, each the conversion of that row, in order |
| ToolCommon.MapRowsFailFrom | tools/ads.py:93-94 | the first row that raises decides the error of the whole conversion |
| ToolCommon.Truth | tools/ads.py:97-104 | `bool(v)` raises numpy's ValueError exactly for an array of two or more elements (or one element that is such an array) and otherwise agrees with Python's truth of the value |
| Utf8.DecodeEncode | utils/table_utils.py:37 | decoding the UTF-8 encoding of any text gives that text back |
| Utf8.DecodeAscii | utils/table_utils.py:37 | bytes below 0x80 decode to the characters with the same code points, one per byte |
| Utf8.DecodeWellFormed | utils/table_utils.py:37 | a complete well-formed multi-byte sequence decodes as one character, its scalar value |

## Left out

- Network I/O and the libraries behind it: astroquery, pyvo, astropy and numpy internals (SkyCoord construction, name resolution, unit conversion, table internals) are parameters carrying their outcomes; the IVOA protocol behaviour of TAP, SIA and SSA is not modelled.
- Floating-point arithmetic: floats are real numbers with NaN and infinity tags; exponent notation in `str()` of a float, rounding, and the spherical trigonometry of `angular_separation`, `sort_by_separation` and `format_coordinates` are not modelled (the separation a record carries is an input).
- Simbad.RecordKey: a separation that is not a finite float (NaN, an infinity, or a non-float) sorts last, like a missing one; in Python a NaN leaves the order unspecified, minus infinity would sort first and a non-float would raise, none of which the computed angular separation produces.
- String case and character classes are ASCII only: `lower()`, `upper()`, `isspace()`, `isalpha()` and `isdigit()` on non-ASCII characters are not modelled.
- Logging in every module, and the authentication debug lines of `execute_function` (executor.py:187-198).
- `configure_astroquery_auth` (auth.py:63-93): it changes the state of foreign libraries and logs in to MAST.
- YAML file reading and the environment lookup of `load_config`: the parsed file and the environment are parameters.
- Config.AsInt: models pydantic's coercion of an `int` field only for integers, booleans and integral finite floats; lax-mode inputs such as numeric strings ("42") and Decimals, which pydantic also accepts, are modelled as rejected.
- Config.AsReal: models pydantic's coercion of a `float` field only for integers, booleans and finite floats; numeric strings, and NaN or infinite floats (which pydantic accepts by default), are modelled as rejected, because configuration reals here are finite real numbers.
- Config.DeepMerge: merges values, not in place; it does not model that `_deep_merge` returns the same object it mutates, nor aliasing between the merged dictionaries.
- Concurrency: the asyncio lock inside `RateLimiter`, `with_retry` (a tenacity decorator), `run_with_timeout`, `utils/async_utils.py` and the async wrappers are not modelled; the retry loop reports its waits instead of sleeping.
- Retry.RateLimiter.constructor: requires a non-zero rate; the ZeroDivisionError that `1.0 / rps` raises for a rate of zero is modelled in the registry instead.
- `http_client.py` and `tools/gcn.py` are not part of this model (HTTP fetches, regular expressions and sexagesimal parsing); the GCN entries of the service catalogue are modelled.
- The free-text descriptions, return descriptions and examples of the tool signatures in `tools/discovery.py` are not transcribed; names, services and parameter names, types and requiredness are.
- The `mission_map` dictionary in `get_images` (tools/irsa.py:170-177) is built and never read; the model leaves it out.
- CoordUtils.BadRa and CoordUtils.BadDec: RA and Dec are floats (`Double`), as every tool that validates them declares `ra: float` and `dec: float`; an `int` passed to `validate_coordinates` directly would print in the error message without the ".0" the model shows, and be stored as an int in the details.
- Config.Invalid: pydantic's `ValidationError` (a subclass of ValueError whose text lists every failing field over several lines) is modelled as a ValueError with the fixed text "validation error for ServiceConfig"; the exception's own class and its per-field report are not modelled, so Config.LoadConfig and Config.ConfigHolder.GetConfig pass on that shorter text.
- Py.Truthy: a numpy array of two or more elements is false there, where numpy raises ValueError. The ADS readers (Ads.FirstText, Ads.Items, Ads.Text, Ads.Count) and the compact filter (AdsCompact.CellValue) use ToolCommon.Truth, which raises; the other members that test a value with Truthy directly (Irsa.CatalogEntry, Mast.UrlSize, Mast.UrlInfo, Simbad.ObjectType, Vo.ShowOrNone, Vo.TextOf, Vo.SsaKwargs, Config.LoadConfig, Discovery.StatusFor, Discovery.GetServiceStatus) read values that are scalars, text or parsed configuration, and do not model that ValueError.
- ToolCommon.Truth: an empty numpy array is false, as in numpy before 2.2 (which only warns); numpy 2.2 and later raise ValueError for it.
- AdsCompact.PlainCell: numpy's `size` is taken as the outer length of an array, so a nested array with one row, such as `[[x, y]]`, counts as size 1 and is unwrapped to its single row instead of becoming a nested list; Executor.Item takes such an array for a size-1 one the same way, where `item()` raises.
- Vo.PollJob: the `job.abort()` sent to the service on timeout is not modelled; only the TIMEOUT_ERROR it raises is.
- FastMCP tool registration and `main()` in `server.py`, the pydantic result records of `models/results.py`, the test scripts and the re-export modules.
