/**
 * The Virtual Observatory tools of `tools/vo.py`: service alias
 * resolution, TAP queries (synchronous, or an asynchronous job polled until
 * it settles), the table list and schema of a TAP service, SIA image and
 * SSA spectrum searches, and the registry search.
 *
 * pyvo is not modelled: each remote call is a parameter carrying what the
 * service answered (or the exception it raised), and the configuration is
 * a parameter in place of the cached `get_config()`.
 */
module Vo {
  import opened Wrappers
  import opened Strings
  import opened Py
  import opened Dicts
  import opened Errors
  import opened Exceptions
  import opened Config
  import opened ToolCommon
  import opened TableUtils
  import opened CoordUtils

  // ---------------------------------------------------------------- aliases

  /** The built-in aliases; every one names a TAP endpoint. */
  const Aliases: seq<(string, string)> := [
    ("gaia", "https://gea.esac.esa.int/tap-server/tap"),
    ("vizier", "http://tapvizier.u-strasbg.fr/TAPVizieR/tap"),
    ("heasarc", "https://heasarc.gsfc.nasa.gov/xamin/vo/tap"),
    ("irsa", "https://irsa.ipac.caltech.edu/TAP"),
    ("mast", "https://mast.stsci.edu/vo-tap/api/v0.1"),
    ("ned", "https://ned.ipac.caltech.edu/tap"),
    ("simbad", "http://simbad.u-strasbg.fr/simbad/sim-tap")]

  /** `getattr(config.endpoints, service_type, {})` */
  function Endpoints(cfg: ServiceConfig, serviceType: string): seq<(string, string)> {
    if serviceType == "tap" then cfg.endpoints.tap
    else if serviceType == "sia" then cfg.endpoints.sia
    else if serviceType == "ssa" then cfg.endpoints.ssa
    else []
  }

  /** `_resolve_service_url(service_url, service_type)` */
  function ResolveServiceUrl(cfg: ServiceConfig, serviceUrl: string, serviceType: string): string {
    if StartsWith(serviceUrl, "http") then serviceUrl
    else match Get(Endpoints(cfg, serviceType), serviceUrl)
      case Some(url) => url
      case None => Get(Aliases, Lower(serviceUrl)).GetOr(serviceUrl)
  }

  /** The order of the lookups: a URL is kept, a configured name of that
      service type wins, then the aliases by lower-cased name, and anything
      else is kept. */
  lemma ResolveOrder(cfg: ServiceConfig, serviceUrl: string, serviceType: string)
    ensures var r := ResolveServiceUrl(cfg, serviceUrl, serviceType);
      var configured := HasKey(Endpoints(cfg, serviceType), serviceUrl);
      var aliased := HasKey(Aliases, Lower(serviceUrl));
      (StartsWith(serviceUrl, "http") ==> r == serviceUrl)
      && (!StartsWith(serviceUrl, "http") && configured ==>
            exists i | 0 <= i < |Endpoints(cfg, serviceType)| :: Endpoints(cfg, serviceType)[i] == (serviceUrl, r))
      && (!StartsWith(serviceUrl, "http") && !configured && aliased ==>
            exists i | 0 <= i < |Aliases| :: Aliases[i] == (Lower(serviceUrl), r))
      && (!StartsWith(serviceUrl, "http") && !configured && !aliased ==> r == serviceUrl)
  {
    GetFinds(Endpoints(cfg, serviceType), serviceUrl);
    GetFinds(Aliases, Lower(serviceUrl));
  }

  /** Every alias is a URL. */
  lemma AliasesAreUrls()
    ensures forall i :: 0 <= i < |Aliases| ==> StartsWith(Aliases[i].1, "http")
  {
    forall i | 0 <= i < |Aliases| ensures StartsWith(Aliases[i].1, "http") {
      var url := Aliases[i].1;
      assert url[0] == 'h' && url[1] == 't' && url[2] == 't' && url[3] == 'p';
      assert url[..4] == "http";
    }
  }

  /** Whatever the service type, a name that is not configured for it
      resolves through the same (TAP) aliases. */
  lemma AliasesIgnoreType(cfg: ServiceConfig, serviceUrl: string, type1: string, type2: string)
    requires !HasKey(Endpoints(cfg, type1), serviceUrl) && !HasKey(Endpoints(cfg, type2), serviceUrl)
    ensures ResolveServiceUrl(cfg, serviceUrl, type1) == ResolveServiceUrl(cfg, serviceUrl, type2)
  {
    GetFinds(Endpoints(cfg, type1), serviceUrl);
    GetFinds(Endpoints(cfg, type2), serviceUrl);
  }

  /** When every configured endpoint of the type is a URL, resolving is
      idempotent: a resolved URL resolves to itself. */
  lemma ResolveIdempotent(cfg: ServiceConfig, serviceUrl: string, serviceType: string)
    requires forall i :: 0 <= i < |Endpoints(cfg, serviceType)| ==> StartsWith(Endpoints(cfg, serviceType)[i].1, "http")
    ensures var r := ResolveServiceUrl(cfg, serviceUrl, serviceType);
      ResolveServiceUrl(cfg, r, serviceType) == r
  {
    ResolveOrder(cfg, serviceUrl, serviceType);
    AliasesAreUrls();
  }

  // ---------------------------------------------------------------- async polling

  /** The longest wait for an asynchronous job, in seconds. */
  const MaxWait: nat := 300

  /** The phases that end the polling loop. */
  predicate Settled(phase: string) {
    phase == "COMPLETED" || phase == "ERROR" || phase == "ABORTED"
  }

  /** How polling ends: the job settled at the `checks`-th read of its phase
      (counting from 0), or the wait ran out after `elapsed` seconds. */
  datatype Poll = Done(checks: nat) | TimedOut(elapsed: nat)

  /** The polling loop from its `checks`-th check on. Each read of
      `job.phase` asks the service again: `phaseAt(i)` is the answer to the
      i-th read. */
  function PollFrom(phaseAt: nat -> string, checks: nat): Poll
    requires 2 * checks <= MaxWait
    decreases MaxWait - 2 * checks
  {
    if Settled(phaseAt(checks)) then Done(checks)
    else if 2 * (checks + 1) > MaxWait then TimedOut(2 * (checks + 1))
    else PollFrom(phaseAt, checks + 1)
  }

  /** The loop `while job.phase not in (...)`: sleep 2 seconds, count them,
      give up once more than 300 have passed. */
  method PollJob(phaseAt: nat -> string) returns (p: Poll)
    ensures p == PollFrom(phaseAt, 0)
  {
    var elapsed := 0;
    var checks := 0;
    while !Settled(phaseAt(checks))
      invariant elapsed == 2 * checks <= MaxWait
      invariant PollFrom(phaseAt, checks) == PollFrom(phaseAt, 0)
      decreases MaxWait - elapsed
    {
      elapsed := elapsed + 2;
      if elapsed > MaxWait {
        return TimedOut(elapsed);
      }
      checks := checks + 1;
    }
    return Done(checks);
  }

  /** Polling stops at the first settled phase among the first 151 checks,
      after 2 seconds per earlier read; when none of them is settled it
      times out at 302 seconds. */
  lemma PollOutcome(phaseAt: nat -> string)
    ensures var p := PollFrom(phaseAt, 0);
      (p.Done? ==> 2 * p.checks <= MaxWait && Settled(phaseAt(p.checks))
                   && forall j :: 0 <= j < p.checks ==> !Settled(phaseAt(j)))
      && (p.TimedOut? ==> p.elapsed == MaxWait + 2 && forall j :: 0 <= j <= MaxWait / 2 ==> !Settled(phaseAt(j)))
      && (p.TimedOut? <==> forall j :: 0 <= j <= MaxWait / 2 ==> !Settled(phaseAt(j)))
  {
    PollFromOutcome(phaseAt, 0);
  }

  lemma {:induction false} PollFromOutcome(phaseAt: nat -> string, checks: nat)
    requires 2 * checks <= MaxWait
    ensures var p := PollFrom(phaseAt, checks);
      (p.Done? ==> checks <= p.checks && 2 * p.checks <= MaxWait && Settled(phaseAt(p.checks))
                   && forall j :: checks <= j < p.checks ==> !Settled(phaseAt(j)))
      && (p.TimedOut? ==> p.elapsed == MaxWait + 2 && forall j :: checks <= j <= MaxWait / 2 ==> !Settled(phaseAt(j)))
    decreases MaxWait - 2 * checks
  {
    if !Settled(phaseAt(checks)) && 2 * (checks + 1) <= MaxWait {
      PollFromOutcome(phaseAt, checks + 1);
    }
  }

  // ---------------------------------------------------------------- tap_query

  /** What an asynchronous job does once submitted: whether `job.run()`
      raised, the answer to each read of its phase, and what
      `job.fetch_result()` gives (a result table or None). */
  datatype AsyncJob = AsyncJob(run: Option<Exception>, phaseAt: nat -> string, fetched: Outcome<Option<Table>>)

  function JobTimeout(url: string, elapsed: nat): MCPError {
    MCPError(Timeout, "Async TAP job timed out", "vo_tap", true, "Try a smaller query or increase timeout",
      [("url", Str(url)), ("elapsed", Int(elapsed))])
  }

  function JobFailed(url: string, phase: string, detailPhase: string): MCPError {
    MCPError(ServiceFailure, "TAP job failed: " + phase, "vo_tap", false, "Check the ADQL query syntax",
      [("url", Str(url)), ("phase", Str(detailPhase))])
  }

  /** The result of an asynchronous query: run the job, poll it, and fetch
      its result unless it timed out or its phase read after the loop is
      ERROR. The message and the details of that error read the phase
      twice more. */
  function AsyncResult(url: string, job: AsyncJob): Outcome<Option<Table>> {
    if job.run.Some? then Err(job.run.value)
    else match PollFrom(job.phaseAt, 0)
      case TimedOut(elapsed) => Err(Mcp(JobTimeout(url, elapsed)))
      case Done(k) =>
        if job.phaseAt(k + 1) == "ERROR" then Err(Mcp(JobFailed(url, job.phaseAt(k + 2), job.phaseAt(k + 3))))
        else job.fetched
  }

  /** The reply of `tap_query` for the outcome of the query. */
  function TapReply(url: string, query: string, asyncMode: bool, maxRows: int, result: Outcome<Option<Table>>): Outcome<Value> {
    var fail := (e: Exception) => Rewrap(e, "TAP query failed: ", "vo_tap", "Check ADQL syntax and service availability",
                                         [("url", Str(url)), ("query", Str(query))]);
    match result
    case Err(e) => Err(fail(e))
    case Ok(None) => Ok(Found("vo_tap", Dict([("url", Str(url)), ("adql", Str(query))]), []))
    case Ok(Some(t)) =>
      match Records(Some(t))
      case Err(e) => Err(fail(e))
      case Ok(records) => Ok(TapPage(url, query, asyncMode, maxRows, records))
  }

  function TapPage(url: string, query: string, asyncMode: bool, maxRows: int, records: seq<Value>): Value {
    Dict([("success", Bool(true)), ("service", Str("vo_tap")),
          ("query", Dict([("url", Str(url)), ("adql", Str(query)), ("async", Bool(asyncMode))])),
          ("total_count", Int(|records|)), ("returned_count", Int(|records|)),
          ("data", List(records)), ("truncated", Bool(|records| >= maxRows))])
  }

  /** `tap_query(service_url, query, async_mode, max_rows)`. `sync` is the
      outcome of the synchronous search, `job` that of submitting the
      asynchronous job; only the one the mode selects is used. */
  function TapQuery(cfg: ServiceConfig, serviceUrl: string, query: string, asyncMode: bool, maxRows: int,
                    sync: Outcome<Option<Table>>, job: Outcome<AsyncJob>): Outcome<Value> {
    var url := ResolveServiceUrl(cfg, serviceUrl, "tap");
    var result :=
      if !asyncMode then sync
      else match job
        case Err(e) => Err(e)
        case Ok(j) => AsyncResult(url, j);
    TapReply(url, query, asyncMode, maxRows, result)
  }

  /** A result table gives one record per row: the counts are the number of
      rows, and the page counts as truncated when it reaches `max_rows`. */
  lemma TapCounts(url: string, query: string, asyncMode: bool, maxRows: int, t: Table)
    requires DistinctNames(t.columns)
    requires Records(Some(t)).Ok?
    ensures var r := TapReply(url, query, asyncMode, maxRows, Ok(Some(t)));
      r.Ok? && r.value.Dict? &&
      var es := r.value.entries;
      Get(es, "total_count") == Some(Int(NRows(t)))
      && Get(es, "returned_count") == Some(Int(NRows(t)))
      && Get(es, "truncated") == Some(Bool(NRows(t) >= maxRows))
      && Get(es, "data") == Some(List(Records(Some(t)).value))
  {
    var records := Records(Some(t)).value;
    RecordsShape(t, records);
    var es := TapPage(url, query, asyncMode, maxRows, records).entries;
    GetAt(es, 3);
    GetAt(es, 4);
    GetAt(es, 5);
    GetAt(es, 6);
  }

  /** No result at all gives zero counts and no truncation flag. */
  lemma TapNoResult(url: string, query: string, asyncMode: bool, maxRows: int)
    ensures var r := TapReply(url, query, asyncMode, maxRows, Ok(None));
      r.Ok? && r.value.Dict? && !HasKey(r.value.entries, "truncated")
      && Get(r.value.entries, "total_count") == Some(Int(0))
      && Get(r.value.entries, "data") == Some(List([]))
  {
    var r := TapReply(url, query, asyncMode, maxRows, Ok(None));
    HasKeyKeys(r.value.entries, "truncated");
  }

  /** An MCPError (the job's timeout or failure) passes unchanged; anything
      else becomes a recoverable SERVICE_ERROR of "vo_tap". */
  lemma TapFailures(url: string, query: string, asyncMode: bool, maxRows: int, e: Exception)
    ensures var r := TapReply(url, query, asyncMode, maxRows, Err(e));
      r.Err? && (e.Mcp? ==> r.error == e)
      && (e.Builtin? ==> r.error.Mcp? && r.error.err.code == ServiceFailure && r.error.err.recoverable
                         && r.error.err.message == "TAP query failed: " + e.text)
  {
  }

  /** A job still running after 151 reads of its phase fails with a
      recoverable TIMEOUT_ERROR after 302 seconds. */
  lemma AsyncTimesOut(cfg: ServiceConfig, serviceUrl: string, query: string, maxRows: int,
                      sync: Outcome<Option<Table>>, job: AsyncJob)
    requires job.run.None?
    requires forall j :: 0 <= j <= MaxWait / 2 ==> !Settled(job.phaseAt(j))
    ensures var r := TapQuery(cfg, serviceUrl, query, true, maxRows, sync, Ok(job));
      r.Err? && r.error.Mcp? && r.error.err.code == Timeout && r.error.err.recoverable
      && r.error.err.details == [("url", Str(ResolveServiceUrl(cfg, serviceUrl, "tap"))), ("elapsed", Int(MaxWait + 2))]
  {
    PollOutcome(job.phaseAt);
  }

  /** A job whose phase is ERROR when read after the loop fails with a
      SERVICE_ERROR that is not recoverable; a job that settles otherwise
      yields what it fetches. */
  lemma AsyncSettles(url: string, job: AsyncJob, k: nat)
    requires job.run.None?
    requires 2 * k <= MaxWait && Settled(job.phaseAt(k)) && forall j :: 0 <= j < k ==> !Settled(job.phaseAt(j))
    ensures var r := AsyncResult(url, job);
      (job.phaseAt(k + 1) == "ERROR" ==> r.Err? && r.error.Mcp? && r.error.err.code == ServiceFailure && !r.error.err.recoverable)
      && (job.phaseAt(k + 1) != "ERROR" ==> r == job.fetched)
  {
    PollOutcome(job.phaseAt);
  }

  // ---------------------------------------------------------------- tap_list_tables

  /** A column of a TAP table as the service describes it; an unset
      attribute is "". */
  datatype TapColumn = TapColumn(name: string, dataType: string, description: string, unit: string, ucd: string)

  /** A TAP table; an unset description is "". */
  datatype TapTable = TapTable(name: string, description: string, columns: seq<TapColumn>)

  /** `service.tables`: each schema with its tables, in order. */
  type Schemas = seq<(string, seq<TapTable>)>

  function TableEntry(schema: string, t: TapTable): Value {
    Dict([("schema", Str(schema)), ("name", Str(t.name)), ("description", Str(t.description))])
  }

  /** The entries of the first `n` schemas, schema by schema. */
  function TableEntries(schemas: Schemas, n: nat): seq<Value>
    requires n <= |schemas|
  {
    if n == 0 then []
    else
      var (schema, ts) := schemas[n - 1];
      TableEntries(schemas, n - 1) + seq(|ts|, j requires 0 <= j < |ts| => TableEntry(schema, ts[j]))
  }

  /** The nested loop of `tap_list_tables`. */
  method ListTableEntries(schemas: Schemas) returns (tables: seq<Value>)
    ensures tables == TableEntries(schemas, |schemas|)
  {
    tables := [];
    for i := 0 to |schemas|
      invariant tables == TableEntries(schemas, i)
    {
      var (schema, ts) := schemas[i];
      ghost var before := tables;
      for j := 0 to |ts|
        invariant tables == before + seq(j, k requires 0 <= k < j => TableEntry(schema, ts[k]))
      {
        tables := tables + [TableEntry(schema, ts[j])];
      }
    }
  }

  /** Every table of every schema is listed once, in order: the entries of
      schema `i` follow those of the schemas before it. */
  lemma {:induction false} TableEntriesListed(schemas: Schemas, n: nat, i: nat, j: nat)
    requires i < n <= |schemas| && j < |schemas[i].1|
    ensures var es := TableEntries(schemas, n);
      |TableEntries(schemas, i)| + j < |es| && es[|TableEntries(schemas, i)| + j] == TableEntry(schemas[i].0, schemas[i].1[j])
  {
    if i < n - 1 {
      TableEntriesListed(schemas, n - 1, i, j);
    }
  }

  /** `tap_list_tables(service_url)`. `schemas` is what reading
      `service.tables` gives. Its handler has no `except MCPError` clause,
      so every failure, an MCPError included, becomes a SERVICE_ERROR. */
  function TapListTables(cfg: ServiceConfig, serviceUrl: string, schemas: Outcome<Schemas>): Outcome<Value> {
    var url := ResolveServiceUrl(cfg, serviceUrl, "tap");
    match schemas
    case Err(e) => Err(Mcp(Wrapped(e, "Failed to list tables: ", "vo_tap", "Check service URL", [("url", Str(url))])))
    case Ok(s) =>
      var tables := TableEntries(s, |s|);
      Ok(Dict([("success", Bool(true)), ("service", Str("vo_tap")), ("url", Str(url)),
               ("table_count", Int(|tables|)), ("tables", List(tables))]))
  }

  /** The count is the number of entries, and even an MCPError is
      re-wrapped. */
  lemma TapListTablesReply(cfg: ServiceConfig, serviceUrl: string, schemas: Outcome<Schemas>)
    ensures var r := TapListTables(cfg, serviceUrl, schemas);
      (schemas.Ok? ==>
         r.Ok? && r.value.Dict?
         && Get(r.value.entries, "table_count") == Some(Int(|TableEntries(schemas.value, |schemas.value|)|))
         && Get(r.value.entries, "tables") == Some(List(TableEntries(schemas.value, |schemas.value|))))
      && (schemas.Err? ==> r.Err? && r.error.Mcp? && r.error.err.code == ServiceFailure && r.error.err.recoverable
                           && r.error.err.message == "Failed to list tables: " + ExceptionText(schemas.error))
  {
    if schemas.Ok? {
      var es := TapListTables(cfg, serviceUrl, schemas).value.entries;
      GetAt(es, 3);
      GetAt(es, 4);
    }
  }

  // ---------------------------------------------------------------- tap_table_schema

  /** `t.name == table_name or t.name.endswith(f".{table_name}")` */
  predicate Matches(t: TapTable, name: string) {
    t.name == name || EndsWith(t.name, "." + name)
  }

  /** The first matching table of `ts[j..]`. */
  function FindIn(ts: seq<TapTable>, name: string, j: nat): Option<TapTable>
    requires j <= |ts|
    decreases |ts| - j
  {
    if j == |ts| then None
    else if Matches(ts[j], name) then Some(ts[j])
    else FindIn(ts, name, j + 1)
  }

  /** The first matching table of the schemas from `i` on, schema by
      schema. */
  function FindTable(schemas: Schemas, name: string, i: nat): Option<TapTable>
    requires i <= |schemas|
    decreases |schemas| - i
  {
    if i == |schemas| then None
    else match FindIn(schemas[i].1, name, 0)
      case Some(t) => Some(t)
      case None => FindTable(schemas, name, i + 1)
  }

  /** The search loops of `tap_table_schema`, each left at the first
      match. */
  method LocateTable(schemas: Schemas, name: string) returns (table: Option<TapTable>)
    ensures table == FindTable(schemas, name, 0)
  {
    table := None;
    var i := 0;
    while i < |schemas|
      invariant i <= |schemas|
      invariant FindTable(schemas, name, i) == FindTable(schemas, name, 0)
      invariant table.None?
    {
      var ts := schemas[i].1;
      var j := 0;
      while j < |ts|
        invariant j <= |ts|
        invariant FindIn(ts, name, j) == FindIn(ts, name, 0)
        invariant table.None?
      {
        if Matches(ts[j], name) {
          table := Some(ts[j]);
          break;
        }
        j := j + 1;
      }
      if table.Some? {
        return;
      }
      i := i + 1;
    }
  }

  /** No table of `ts[from..to]` matches. */
  predicate NoMatchIn(ts: seq<TapTable>, name: string, from: nat, to: nat)
    requires to <= |ts|
  {
    forall b :: from <= b < to ==> !Matches(ts[b], name)
  }

  /** No table of the schemas `schemas[i..a]` matches. */
  predicate NoMatchFrom(schemas: Schemas, name: string, i: nat, a: nat)
    requires a <= |schemas|
  {
    forall a' :: i <= a' < a ==> NoMatchIn(schemas[a'].1, name, 0, |schemas[a'].1|)
  }

  /** The table found matches the name and no table before it (in schema
      order, then table order) does; nothing is found exactly when no
      table matches. */
  lemma {:induction false} FindTableFirst(schemas: Schemas, name: string, i: nat)
    requires i <= |schemas|
    ensures var r := FindTable(schemas, name, i);
      (r.None? <==> NoMatchFrom(schemas, name, i, |schemas|))
      && (r.Some? ==>
            Matches(r.value, name)
            && exists a, b ::
                 i <= a < |schemas| && 0 <= b < |schemas[a].1| && schemas[a].1[b] == r.value
                 && NoMatchFrom(schemas, name, i, a) && NoMatchIn(schemas[a].1, name, 0, b))
    decreases |schemas| - i
  {
    if i < |schemas| {
      var ts := schemas[i].1;
      FindInFirst(ts, name, 0);
      FindTableFirst(schemas, name, i + 1);
      var r := FindTable(schemas, name, i);
      if FindIn(ts, name, 0).Some? {
        var b :| 0 <= b < |ts| && ts[b] == r.value && Matches(ts[b], name)
                 && forall b' :: 0 <= b' < b ==> b' < 0 || !Matches(ts[b'], name);
        assert NoMatchFrom(schemas, name, i, i) && NoMatchIn(ts, name, 0, b);
      } else {
        assert NoMatchIn(ts, name, 0, |ts|);
        assert NoMatchFrom(schemas, name, i, |schemas|) <==> NoMatchFrom(schemas, name, i + 1, |schemas|);
        if r.Some? {
          var a, b :| i + 1 <= a < |schemas| && 0 <= b < |schemas[a].1| && schemas[a].1[b] == r.value
               && NoMatchFrom(schemas, name, i + 1, a) && NoMatchIn(schemas[a].1, name, 0, b);
          assert NoMatchFrom(schemas, name, i, a);
        }
      }
    }
  }

  lemma {:induction false} FindInFirst(ts: seq<TapTable>, name: string, j: nat)
    requires j <= |ts|
    ensures var r := FindIn(ts, name, j);
      (r.None? <==> forall b :: j <= b < |ts| ==> !Matches(ts[b], name))
      && (r.Some? ==> exists b :: j <= b < |ts| && ts[b] == r.value && Matches(ts[b], name)
                       && forall b' :: 0 <= b' < b ==> b' < j || !Matches(ts[b'], name))
    decreases |ts| - j
  {
    if j < |ts| && !Matches(ts[j], name) {
      FindInFirst(ts, name, j + 1);
    }
  }

  /** `str(x) if x else None` for an attribute given as a string. */
  function TextOrNone(s: string): Value {
    if s != "" then Str(s) else NoneValue
  }

  function ColumnEntry(c: TapColumn): Value {
    Dict([("name", Str(c.name)), ("datatype", TextOrNone(c.dataType)), ("description", Str(c.description)),
          ("unit", TextOrNone(c.unit)), ("ucd", Str(c.ucd))])
  }

  /** The column loop of `tap_table_schema`. */
  method ColumnEntries(columns: seq<TapColumn>) returns (entries: seq<Value>)
    ensures |entries| == |columns| && forall k :: 0 <= k < |columns| ==> entries[k] == ColumnEntry(columns[k])
  {
    entries := [];
    for k := 0 to |columns|
      invariant |entries| == k && forall m :: 0 <= m < k ==> entries[m] == ColumnEntry(columns[m])
    {
      entries := entries + [ColumnEntry(columns[k])];
    }
  }

  function TableNotFound(url: string, tableName: string): MCPError {
    MCPError(NotFound, "Table not found: " + tableName, "vo_tap", false, "Use tap_list_tables to see available tables",
      [("url", Str(url)), ("table", Str(tableName))])
  }

  /** `tap_table_schema(service_url, table_name)` */
  function TapTableSchema(cfg: ServiceConfig, serviceUrl: string, tableName: string, schemas: Outcome<Schemas>): Outcome<Value> {
    var url := ResolveServiceUrl(cfg, serviceUrl, "tap");
    match schemas
    case Err(e) => Err(Rewrap(e, "Failed to get table schema: ", "vo_tap", "Check table name",
                              [("url", Str(url)), ("table", Str(tableName))]))
    case Ok(s) =>
      match FindTable(s, tableName, 0)
      case None => Err(Mcp(TableNotFound(url, tableName)))
      case Some(t) =>
        var columns := seq(|t.columns|, k requires 0 <= k < |t.columns| => ColumnEntry(t.columns[k]));
        Ok(Dict([("success", Bool(true)), ("service", Str("vo_tap")), ("url", Str(url)), ("table", Str(tableName)),
                 ("description", Str(t.description)), ("column_count", Int(|columns|)), ("columns", List(columns))]))
  }

  /** A name no table matches is a NOT_FOUND error that is not recoverable;
      otherwise the schema lists the columns of the first matching table. */
  lemma TapTableSchemaReply(cfg: ServiceConfig, serviceUrl: string, tableName: string, s: Schemas)
    ensures var r := TapTableSchema(cfg, serviceUrl, tableName, Ok(s));
      ((forall a, b :: 0 <= a < |s| && 0 <= b < |s[a].1| ==> !Matches(s[a].1[b], tableName)) <==> r.Err?)
      && (r.Err? ==> r.error.Mcp? && r.error.err.code == NotFound && !r.error.err.recoverable)
      && (r.Ok? ==>
            r.value.Dict? && Matches(FindTable(s, tableName, 0).value, tableName)
            && Get(r.value.entries, "column_count") == Some(Int(|FindTable(s, tableName, 0).value.columns|)))
  {
    FindTableFirst(s, tableName, 0);
    var r := TapTableSchema(cfg, serviceUrl, tableName, Ok(s));
    if r.Ok? {
      GetAt(r.value.entries, 5);
    }
  }

  // ---------------------------------------------------------------- sia_search, ssa_search

  /** A record of an SIA or SSA result: its fields and what
      `getdataurl()` gives. */
  datatype VoRecord = VoRecord(fields: seq<(string, Value)>, dataUrl: Value)

  /** `str(x) if x else None` */
  function ShowOrNone(v: Value): Value {
    if Truthy(v) then Str(Show(v)) else NoneValue
  }

  /** The `format` of a record's entry, when it has a non-empty one. */
  function RecordFormat(rec: VoRecord): Option<string> {
    var f := ShowOrNone(GetOr(rec.fields, "format", NoneValue));
    if f.Str? && f.s != "" then Some(f.s) else None
  }

  /** The entry for one record; `float()` of its position may raise. The
      search position stands in for a missing one. */
  function Access(rec: VoRecord, ra: Double, dec: Double): Outcome<Value> {
    match AsFloat(GetOr(rec.fields, "ra", Float(ra)))
    case Err(e) => Err(e)
    case Ok(r) =>
      match AsFloat(GetOr(rec.fields, "dec", Float(dec)))
      case Err(e) => Err(e)
      case Ok(d) =>
        Ok(Dict([("access_url", ShowOrNone(rec.dataUrl)),
                 ("format", ShowOrNone(GetOr(rec.fields, "format", NoneValue))),
                 ("title", ShowOrNone(GetOr(rec.fields, "title", NoneValue))),
                 ("ra", Float(r)), ("dec", Float(d))]))
  }

  /** The format filter drops a record only when a filter is given, the
      record has a format, and the lower-cased filter does not occur in the
      lower-cased format. */
  predicate Dropped(format: Option<string>, rec: VoRecord) {
    format.Some? && format.value != "" && RecordFormat(rec).Some?
    && !Contains(Lower(RecordFormat(rec).value), Lower(format.value))
  }

  /** The entries of the first `n` records: `entry` builds the entry of a
      record (and may raise), `drop` is the filter applied after it. */
  function Entries(recs: seq<VoRecord>, entry: VoRecord -> Outcome<Value>, drop: VoRecord -> bool, n: nat): Outcome<seq<Value>>
    requires n <= |recs|
  {
    if n == 0 then Ok([])
    else match Entries(recs, entry, drop, n - 1)
      case Err(e) => Err(e)
      case Ok(done) =>
        match entry(recs[n - 1])
        case Err(e) => Err(e)
        case Ok(v) => if drop(recs[n - 1]) then Ok(done) else Ok(done + [v])
  }

  /** The record loop of `sia_search` (`entry` builds a record's entry,
      `drop` is its format filter) and of `ssa_search` (which drops
      nothing). */
  method CollectEntries(recs: seq<VoRecord>, entry: VoRecord -> Outcome<Value>, drop: VoRecord -> bool) returns (r: Outcome<seq<Value>>)
    ensures r == Entries(recs, entry, drop, |recs|)
  {
    var entries: seq<Value> := [];
    for i := 0 to |recs|
      invariant Entries(recs, entry, drop, i) == Ok(entries)
    {
      var v := entry(recs[i]);
      if v.Err? {
        EntriesFailFrom(recs, entry, drop, i, |recs|);
        return Err(v.error);
      }
      if drop(recs[i]) {
        continue;
      }
      entries := entries + [v.value];
    }
    return Ok(entries);
  }

  lemma {:induction false} EntriesFailFrom(recs: seq<VoRecord>, entry: VoRecord -> Outcome<Value>, drop: VoRecord -> bool, i: nat, n: nat)
    requires i < n <= |recs|
    requires Entries(recs, entry, drop, i).Ok? && entry(recs[i]).Err?
    ensures Entries(recs, entry, drop, n) == Err(entry(recs[i]).error)
    decreases n
  {
    if n > i + 1 {
      EntriesFailFrom(recs, entry, drop, i, n - 1);
    }
  }

  /** The entries are those of the records the filter keeps, in record
      order: each kept record's entry is there, and every entry is the
      entry of a kept record. When nothing is dropped every record has its
      entry at its own position. */
  lemma {:induction false} EntriesKept(recs: seq<VoRecord>, entry: VoRecord -> Outcome<Value>, drop: VoRecord -> bool, n: nat)
    requires n <= |recs|
    ensures var r := Entries(recs, entry, drop, n);
      (r.Ok? <==> forall i :: 0 <= i < n ==> entry(recs[i]).Ok?)
      && (r.Ok? ==>
            |r.value| <= n
            && (forall i :: 0 <= i < n && !drop(recs[i]) ==> entry(recs[i]).value in r.value)
            && (forall v :: v in r.value ==> exists i :: 0 <= i < n && !drop(recs[i]) && entry(recs[i]) == Ok(v))
            && ((forall i :: 0 <= i < n ==> !drop(recs[i])) ==>
                  |r.value| == n && forall i :: 0 <= i < n ==> entry(recs[i]) == Ok(r.value[i])))
  {
    if n > 0 {
      EntriesKept(recs, entry, drop, n - 1);
      var prev := Entries(recs, entry, drop, n - 1);
      if prev.Ok? && entry(recs[n - 1]).Ok? {
        var r := Entries(recs, entry, drop, n).value;
        var v := entry(recs[n - 1]).value;
        assert r == if drop(recs[n - 1]) then prev.value else prev.value + [v];
        forall w | w in r
          ensures exists i :: 0 <= i < n && !drop(recs[i]) && entry(recs[i]) == Ok(w)
        {
          if w !in prev.value {
            assert w == v;
          }
        }
      }
    }
  }

  /** Without a format filter nothing is dropped. */
  lemma NoFilterKeepsAll(rec: VoRecord, format: Option<string>)
    requires format.None? || format.value == ""
    ensures !Dropped(format, rec)
  {
  }

  /** The query echo of a search around (ra, dec). */
  function Position(url: string, ra: Double, dec: Double, radius: Double): seq<(string, Value)> {
    [("url", Str(url)), ("ra", Float(ra)), ("dec", Float(dec)), ("radius", Float(radius))]
  }

  /** An empty or missing result. */
  predicate Empty(result: Option<seq<VoRecord>>) {
    result.None? || |result.value| == 0
  }

  /** The reply of an SIA or SSA search for the outcome of the query:
      `service` is "vo_sia" or "vo_ssa", `prefix` and `suggestion` those of
      its handler, `extra` the last key of the query echo. */
  function SearchReply(service: string, prefix: string, url: string, ra: Double, dec: Double, radius: Double,
                       format: Option<string>, extra: (string, Value), result: Outcome<Option<seq<VoRecord>>>): Outcome<Value> {
    var fail := (e: Exception) => Rewrap(e, prefix, service, "Check coordinates and service URL",
                                         [("url", Str(url)), ("ra", Float(ra)), ("dec", Float(dec))]);
    match result
    case Err(e) => Err(fail(e))
    case Ok(recs) =>
      if Empty(recs) then Ok(Found(service, Dict(Position(url, ra, dec, radius)), []))
      else match Entries(recs.value, rec => Access(rec, ra, dec), rec => Dropped(format, rec), |recs.value|)
        case Err(e) => Err(fail(e))
        case Ok(entries) => Ok(Found(service, Dict(Position(url, ra, dec, radius) + [extra]), entries))
  }

  /** `sia_search(service_url, ra, dec, radius, format)`: the coordinates are
      checked before anything else. `result` is the outcome of the search
      at `pos=(ra, dec), size=radius`. */
  function SiaSearch(cfg: ServiceConfig, serviceUrl: string, ra: Double, dec: Double, radius: Double,
                     format: Option<string>, result: Outcome<Option<seq<VoRecord>>>): Outcome<Value> {
    match ValidateCoordinates(ra, dec)
    case Err(e) => Err(e)
    case Ok(_) =>
      SearchReply("vo_sia", "SIA search failed: ", ResolveServiceUrl(cfg, serviceUrl, "sia"), ra, dec, radius,
                  format, ("format", OptStr(format)), result)
  }

  /** The keyword arguments of the SSA search: the diameter is twice the
      radius, and the band is passed only when given. */
  function SsaKwargs(ra: Double, dec: Double, radius: Double, band: Value): seq<(string, Value)> {
    [("pos", List([Float(ra), Float(dec)])), ("diameter", Float(Scale(radius, 2.0)))]
    + (if Truthy(band) then [("band", band)] else [])
  }

  lemma SsaKwargsShape(ra: Double, dec: Double, radius: Double, band: Value)
    ensures var kw := SsaKwargs(ra, dec, radius, band);
      Keys(kw) == (if Truthy(band) then ["pos", "diameter", "band"] else ["pos", "diameter"])
      && Get(kw, "diameter") == Some(Float(Scale(radius, 2.0)))
      && (radius.Finite? ==> Get(kw, "diameter") == Some(Float(Finite(2.0 * radius.r))))
      && Get(kw, "band") == (if Truthy(band) then Some(band) else None)
  {
    var kw := SsaKwargs(ra, dec, radius, band);
    GetAt(kw, 1);
    if Truthy(band) {
      GetAt(kw, 2);
    } else {
      GetFinds(kw, "band");
      assert kw[0].0 != "band" && kw[1].0 != "band";
    }
  }

  /** `ssa_search(service_url, ra, dec, radius, band)`: `result` is the
      outcome of the search with `SsaKwargs`. */
  function SsaSearch(cfg: ServiceConfig, serviceUrl: string, ra: Double, dec: Double, radius: Double,
                     band: Value, result: Outcome<Option<seq<VoRecord>>>): Outcome<Value> {
    match ValidateCoordinates(ra, dec)
    case Err(e) => Err(e)
    case Ok(_) =>
      SearchReply("vo_ssa", "SSA search failed: ", ResolveServiceUrl(cfg, serviceUrl, "ssa"), ra, dec, radius,
                  None, ("band", band), result)
  }

  /** Bad coordinates are reported before any search, whatever it would
      have given. */
  lemma SiaSsaValidateFirst(cfg: ServiceConfig, serviceUrl: string, ra: Double, dec: Double, radius: Double,
                            format: Option<string>, band: Value, result: Outcome<Option<seq<VoRecord>>>)
    requires !(RaInRange(ra) && DecInRange(dec))
    ensures SiaSearch(cfg, serviceUrl, ra, dec, radius, format, result) == Err(ValidateCoordinates(ra, dec).error)
    ensures SsaSearch(cfg, serviceUrl, ra, dec, radius, band, result) == Err(ValidateCoordinates(ra, dec).error)
  {
  }

  // ---------------------------------------------------------------- discover_services

  /** A registry resource: its identifier, short name, title, description
      and access URL as pyvo gives them. */
  datatype Resource = Resource(ivoid: Value, shortName: Value, title: Value, description: Value, accessUrl: Value)

  /** `str(x) if x else ""` */
  function TextOf(v: Value): string {
    if Truthy(v) then Show(v) else ""
  }

  /** The registry search asked for: by keywords when they are given,
      otherwise by service type. */
  function RegistryRequest(resourceType: string, keywords: Option<string>): (string, string) {
    if keywords.Some? && keywords.value != "" then ("keywords", keywords.value) else ("servicetype", resourceType)
  }

  /** The entry for one resource; the description is cut to 500 characters. */
  function ServiceEntry(res: Resource, resourceType: string): Value {
    Dict([("ivoid", Str(TextOf(res.ivoid))), ("short_name", Str(TextOf(res.shortName))),
          ("title", Str(TextOf(res.title))), ("description", Str(Take(TextOf(res.description), 500))),
          ("access_url", Str(TextOf(res.accessUrl))), ("service_type", Str(resourceType))])
  }

  /** The resource is listed: reading it did not raise and it has an access
      URL. */
  predicate Listed(res: Outcome<Resource>) {
    res.Ok? && TextOf(res.value.accessUrl) != ""
  }

  /** The entries of the first `n` resources: one raising while it is read
      is skipped, and so is one without an access URL. */
  function Services(results: seq<Outcome<Resource>>, resourceType: string, n: nat): seq<Value>
    requires n <= |results|
  {
    if n == 0 then []
    else if Listed(results[n - 1]) then Services(results, resourceType, n - 1) + [ServiceEntry(results[n - 1].value, resourceType)]
    else Services(results, resourceType, n - 1)
  }

  /** The loop of `discover_services`. */
  method CollectServices(results: seq<Outcome<Resource>>, resourceType: string) returns (services: seq<Value>)
    ensures services == Services(results, resourceType, |results|)
  {
    services := [];
    for i := 0 to |results|
      invariant services == Services(results, resourceType, i)
    {
      if results[i].Err? {
        continue;
      }
      var service := ServiceEntry(results[i].value, resourceType);
      if TextOf(results[i].value.accessUrl) != "" {
        services := services + [service];
      }
    }
  }

  /** Exactly the listed resources have an entry, in order. */
  lemma {:induction false} ServicesListed(results: seq<Outcome<Resource>>, resourceType: string, n: nat)
    requires n <= |results|
    ensures var s := Services(results, resourceType, n);
      |s| <= n
      && (forall i :: 0 <= i < n && Listed(results[i]) ==> ServiceEntry(results[i].value, resourceType) in s)
      && (forall v :: v in s ==> exists i :: 0 <= i < n && Listed(results[i]) && v == ServiceEntry(results[i].value, resourceType))
  {
    if n > 0 {
      ServicesListed(results, resourceType, n - 1);
      var prev := Services(results, resourceType, n - 1);
      var s := Services(results, resourceType, n);
      if Listed(results[n - 1]) {
        var v := ServiceEntry(results[n - 1].value, resourceType);
        assert s == prev + [v];
        assert forall w :: w in s <==> w in prev || w == v;
        forall w | w in s
          ensures exists i :: 0 <= i < n && Listed(results[i]) && w == ServiceEntry(results[i].value, resourceType)
        {
          if w == v {
            assert Listed(results[n - 1]);
          }
        }
      } else {
        assert s == prev;
      }
    }
  }

  /** Every entry has an access URL and a description of at most 500
      characters. */
  lemma ServiceEntryShape(res: Resource, resourceType: string)
    requires TextOf(res.accessUrl) != ""
    ensures var es := ServiceEntry(res, resourceType).entries;
      Get(es, "access_url") == Some(Str(TextOf(res.accessUrl)))
      && Get(es, "description").Some? && Get(es, "description").value.Str?
      && |Get(es, "description").value.s| <= 500
      && Get(es, "service_type") == Some(Str(resourceType))
  {
    var es := ServiceEntry(res, resourceType).entries;
    GetAt(es, 3);
    GetAt(es, 4);
    GetAt(es, 5);
  }

  /** `discover_services(resource_type, keywords)`: `results` is the outcome
      of the registry search `RegistryRequest` describes. Its handler has no
      `except MCPError` clause. */
  function DiscoverServices(resourceType: string, keywords: Option<string>, results: Outcome<seq<Outcome<Resource>>>): Outcome<Value> {
    match results
    case Err(e) => Err(Mcp(Wrapped(e, "VO registry search failed: ", "vo_registry", "Try different keywords",
                                   [("resource_type", Str(resourceType)), ("keywords", OptStr(keywords))])))
    case Ok(rs) =>
      var services := Services(rs, resourceType, |rs|);
      Ok(Dict([("success", Bool(true)), ("service", Str("vo_registry")),
               ("query", Dict([("resource_type", Str(resourceType)), ("keywords", OptStr(keywords))])),
               ("total_count", Int(|services|)), ("returned_count", Int(|services|)),
               ("data", List(Prefix(services, 100)))]))
  }

  /** At most the first 100 entries are returned, while both counts are
      the number of all the entries: above 100, `returned_count` is larger
      than the data it describes. */
  lemma DiscoverCounts(resourceType: string, keywords: Option<string>, rs: seq<Outcome<Resource>>)
    ensures var r := DiscoverServices(resourceType, keywords, Ok(rs));
      var services := Services(rs, resourceType, |rs|);
      r.Ok? && r.value.Dict?
      && Get(r.value.entries, "total_count") == Some(Int(|services|))
      && Get(r.value.entries, "returned_count") == Some(Int(|services|))
      && Get(r.value.entries, "data").Some? && Get(r.value.entries, "data").value.List?
      && var data := Get(r.value.entries, "data").value.items;
         |data| == (if |services| < 100 then |services| else 100) && data == services[..|data|]
  {
    var es := DiscoverServices(resourceType, keywords, Ok(rs)).value.entries;
    GetAt(es, 3);
    GetAt(es, 4);
    GetAt(es, 5);
  }
}
