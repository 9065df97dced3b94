/**
 * The NASA Exoplanet Archive tools of `tools/nea.py`: the fixed table list,
 * the criteria search with its table check and keyword building, the
 * object lookup and the positional search. Each remote query is a
 * parameter carrying its outcome.
 */
module Nea {
  import opened Wrappers
  import opened Strings
  import opened Py
  import opened Dicts
  import opened Errors
  import opened Exceptions
  import opened ToolCommon
  import opened TableUtils
  import opened CoordUtils
  import opened Archive

  /** The tables the tools accept, each with its description, in order. */
  const NeaTables: seq<(string, string)> := [
    ("ps", "Planetary Systems - default planet parameters"),
    ("pscomppars", "Planetary Systems Composite Parameters"),
    ("keplernames", "Kepler Objects of Interest names"),
    ("k2names", "K2 Objects of Interest names"),
    ("toinames", "TESS Objects of Interest names"),
    ("stellarhosts", "Stellar hosts of confirmed planets"),
    ("transitspec", "Transit Spectroscopy measurements"),
    ("emissionspec", "Emission Spectroscopy measurements")
  ]

  const TableNames: seq<string> := Keys(NeaTables)

  /** `list_tables()` */
  function ListTables(): Value {
    var tables := seq(|NeaTables|, i requires 0 <= i < |NeaTables| =>
      Dict([("name", Str(NeaTables[i].0)), ("description", Str(NeaTables[i].1))]));
    Dict([("success", Bool(true)), ("service", Str("nea")), ("table_count", Int(|tables|)), ("tables", List(tables))])
  }

  /** Every one of the eight tables is listed once, in order, with its
      description, and table_count is 8. */
  lemma ListTablesSpec()
    ensures var es := ListTables().entries;
      Keys(es) == ["success", "service", "table_count", "tables"]
      && es[2] == ("table_count", Int(8))
      && es[3].1.List? && |es[3].1.items| == 8
      && (forall i :: 0 <= i < 8 ==>
            es[3].1.items[i] == Dict([("name", Str(NeaTables[i].0)), ("description", Str(NeaTables[i].1))]))
      && TableNames == ["ps", "pscomppars", "keplernames", "k2names", "toinames", "stellarhosts", "transitspec",
                        "emissionspec"]
      && UniqueKeys(NeaTables)
  {
  }

  // ---------------------------------------------------------------- query_criteria

  /** The optional keyword arguments of the criteria search: select is
      left out when it is "*". */
  function SearchArgs(select: string, where: Option<string>, order: Option<string>): seq<(string, Option<string>)> {
    [("select", if select == "*" then None else Some(select)), ("where", where), ("order", order)]
  }

  /** The keyword arguments of the criteria search: the table, then the
      truthy optional ones. */
  function QueryKwargs(table: string, select: string, where: Option<string>, order: Option<string>): Kwargs {
    [("table", Str(table))] + GivenArgs(SearchArgs(select, where, order))
  }

  /** The table is always sent; select only when it is truthy and not "*";
      where and order only when truthy; each under its own name. */
  lemma QueryKwargsSpec(table: string, select: string, where: Option<string>, order: Option<string>)
    ensures var kw := QueryKwargs(table, select, where, order);
      Get(kw, "table") == Some(Str(table))
      && (HasKey(kw, "select") <==> select != "" && select != "*")
      && (HasKey(kw, "select") ==> Get(kw, "select") == Some(Str(select)))
      && (HasKey(kw, "where") <==> Given(where))
      && (Given(where) ==> Get(kw, "where") == Some(Str(where.value)))
      && (HasKey(kw, "order") <==> Given(order))
      && (Given(order) ==> Get(kw, "order") == Some(Str(order.value)))
  {
    var args := SearchArgs(select, where, order);
    var head: Kwargs := [("table", Str(table))];
    KeyAfterTable(head, args, "select", 0);
    KeyAfterTable(head, args, "where", 1);
    KeyAfterTable(head, args, "order", 2);
  }

  /** An optional argument, not "table", seen past the table. */
  lemma KeyAfterTable(head: Kwargs, args: seq<(string, Option<string>)>, k: string, i: nat)
    requires |head| == 1 && head[0].0 == "table" && k != "table"
    requires i < |args| && args[i].0 == k && forall j :: 0 <= j < |args| && j != i ==> args[j].0 != k
    ensures Get(head + GivenArgs(args), "table") == Some(head[0].1)
    ensures HasKey(head + GivenArgs(args), k) <==> Given(args[i].1)
    ensures Given(args[i].1) ==> Get(head + GivenArgs(args), k) == Some(Str(args[i].1.value))
  {
    GivenArgsSpec(args, k);
    GetAppend(head, GivenArgs(args), k);
    GetAppend(head, GivenArgs(args), "table");
    GetFinds(head, k);
    GetFinds(GivenArgs(args), k);
    GetFinds(head + GivenArgs(args), k);
  }

  /** `kwargs = {"table": table}` and the three conditional insertions. */
  method BuildQueryKwargs(table: string, select: string, where: Option<string>, order: Option<string>)
    returns (kwargs: Kwargs)
    ensures kwargs == QueryKwargs(table, select, where, order)
  {
    var head: Kwargs := [("table", Str(table))];
    kwargs := head;
    kwargs := InsertGiven(kwargs, "select", if select == "*" then None else Some(select), head, []);
    assert [] + [("select", if select == "*" then None else Some(select))]
      == [("select", if select == "*" then None else Some(select))];
    kwargs := InsertGiven(kwargs, "where", where, head, [("select", if select == "*" then None else Some(select))]);
    assert [("select", if select == "*" then None else Some(select))] + [("where", where)]
      == [("select", if select == "*" then None else Some(select)), ("where", where)];
    kwargs := InsertGiven(kwargs, "order", order, head,
      [("select", if select == "*" then None else Some(select)), ("where", where)]);
    assert [("select", if select == "*" then None else Some(select)), ("where", where)] + [("order", order)]
      == SearchArgs(select, where, order);
  }

  function UnknownTable(table: string): MCPError {
    MCPError(Validation, "Unknown table: " + table, "nea", false, "Use one of: " + Join(", ", TableNames),
      [("table", Str(table)), ("available", StrList(TableNames))])
  }

  /** `query_criteria(table, select, where, order)`: `run` gives the outcome
      of the search for the keyword arguments it is sent. */
  function QueryCriteria(table: string, select: string, where: Option<string>, order: Option<string>,
                         run: Kwargs -> Outcome<Option<Table>>): Outcome<Value> {
    if table !in TableNames then Err(Mcp(UnknownTable(table)))
    else
      var query := Dict([("table", Str(table)), ("select", Str(select)), ("where", OptStr(where)),
                         ("order", OptStr(order))]);
      Guard(Search("nea", query, run(QueryKwargs(table, select, where, order)), Same),
        "NEA query failed: ", "nea", "Check query syntax", [("table", Str(table)), ("where", OptStr(where))])
  }

  /** An unknown table is a VALIDATION_ERROR, not recoverable, listing the
      available tables, raised before any search; a known table sends the
      search its keyword arguments and nothing else. */
  lemma UnknownTableFirst(table: string, select: string, where: Option<string>, order: Option<string>,
                          run: Kwargs -> Outcome<Option<Table>>, run': Kwargs -> Outcome<Option<Table>>)
    ensures var r := QueryCriteria(table, select, where, order, run);
      (table !in TableNames ==>
         r == QueryCriteria(table, select, where, order, run')
         && r.Err? && r.error.Mcp? && r.error.err.code == Validation && !r.error.err.recoverable
         && Get(r.error.err.details, "available") == Some(StrList(TableNames)))
      && (table in TableNames && run(QueryKwargs(table, select, where, order))
            == run'(QueryKwargs(table, select, where, order)) ==>
            r == QueryCriteria(table, select, where, order, run'))
  {
    if table !in TableNames {
      GetAt(UnknownTable(table).details, 1);
    }
  }

  /** An empty result gives zero counts; otherwise both counts are the
      number of rows and the records come back untagged. */
  lemma CriteriaCounts(table: string, select: string, where: Option<string>, order: Option<string>,
                       run: Kwargs -> Outcome<Option<Table>>)
    requires var res := run(QueryKwargs(table, select, where, order));
      res.Ok? && (res.value.Some? ==> DistinctNames(res.value.value.columns))
    requires QueryCriteria(table, select, where, order, run).Ok?
    ensures var res := run(QueryKwargs(table, select, where, order)).value;
      var es := QueryCriteria(table, select, where, order, run).value.entries;
      var n := if res.Some? then NRows(res.value) else 0;
      Get(es, "total_count") == Some(Int(n)) && Get(es, "returned_count") == Some(Int(n))
      && (n > 0 ==> Get(es, "data") == Some(List(Records(res).value)))
  {
    var res := run(QueryKwargs(table, select, where, order)).value;
    var query := Dict([("table", Str(table)), ("select", Str(select)), ("where", OptStr(where)),
                       ("order", OptStr(order))]);
    ListingCounts("nea", query, res, Same);
    if !NoRows(res) {
      TaggedSame(Records(res).value);
    }
  }

  // ---------------------------------------------------------------- query_object

  function NotFound(objectName: string, table: string): MCPError {
    MCPError(ObjectNotFound, "Object not found: " + objectName, "nea", false,
      "Check the object name or search with different criteria",
      [("object_name", Str(objectName)), ("table", Str(table))])
  }

  function ObjectReply(objectName: string, table: string, result: Outcome<Option<Table>>): Outcome<Value> {
    match result
    case Err(e) => Err(e)
    case Ok(t) =>
      if NoRows(t) then Err(Mcp(NotFound(objectName, table)))
      else match Records(t)
        case Err(e) => Err(e)
        case Ok(records) =>
          Ok(Dict([("success", Bool(true)), ("service", Str("nea")), ("object_name", Str(objectName)),
                   ("table", Str(table)), ("result_count", Int(|records|)), ("data", List(records))]))
  }

  /** `query_object(object_name, table)`: `result` is the outcome of the
      lookup. */
  function QueryObject(objectName: string, table: string, result: Outcome<Option<Table>>): Outcome<Value> {
    Guard(ObjectReply(objectName, table, result), "NEA query failed: ", "nea", "Check object name",
      [("object_name", Str(objectName))])
  }

  /** An empty lookup raises OBJECT_NOT_FOUND, not recoverable, and it
      leaves the tool unchanged; a lookup with rows gives one record per
      row and result_count is their number. */
  lemma ObjectNotFoundPropagates(objectName: string, table: string, result: Outcome<Option<Table>>)
    ensures var r := QueryObject(objectName, table, result);
      (result.Ok? && NoRows(result.value) ==>
         r == Err(Mcp(NotFound(objectName, table))) && r.error.err.code == ObjectNotFound && !r.error.err.recoverable)
      && (result.Ok? && !NoRows(result.value) && DistinctNames(result.value.value.columns) && r.Ok? ==>
            r.value.entries[4] == ("result_count", Int(NRows(result.value.value)))
            && r.value.entries[5].1.List? && |r.value.entries[5].1.items| == NRows(result.value.value))
      && (result.Err? ==> r.Err? && (result.error.Mcp? ==> r == Err(result.error)))
  {
    if result.Ok? && !NoRows(result.value) && Records(result.value).Ok? && DistinctNames(result.value.value.columns) {
      RecordsShape(result.value.value, Records(result.value).value);
    }
  }

  // ---------------------------------------------------------------- query_region

  /** `query_region(ra, dec, radius, table)`: `result` is the outcome of the
      cone search. */
  function QueryRegion(ra: Double, dec: Double, radius: Double, table: string,
                       result: Outcome<Option<Table>>): Outcome<Value> {
    match ValidateCoordinates(ra, dec)
    case Err(e) => Err(e)
    case Ok(_) =>
      Guard(Search("nea", Dict([("table", Str(table)), ("ra", Float(ra)), ("dec", Float(dec)), ("radius", Float(radius))]),
          result, Same),
        "NEA region query failed: ", "nea", "Check coordinates and radius",
        [("ra", Float(ra)), ("dec", Float(dec)), ("radius", Float(radius))])
  }

  /** Coordinates are checked before the search, whatever it would give;
      a search failure that is not an MCPError becomes a recoverable
      SERVICE_ERROR. */
  lemma RegionFailures(ra: Double, dec: Double, radius: Double, table: string, result: Outcome<Option<Table>>)
    ensures ValidateCoordinates(ra, dec).Err? ==>
      QueryRegion(ra, dec, radius, table, result) == Err(ValidateCoordinates(ra, dec).error)
    ensures ValidateCoordinates(ra, dec).Ok? && result.Err? && result.error.Builtin? ==>
      var r := QueryRegion(ra, dec, radius, table, result);
      r.Err? && r.error.Mcp? && r.error.err.code == ServiceFailure && r.error.err.recoverable
  {
  }
}
