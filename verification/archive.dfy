/**
 * What the archive tools of MAST, the NASA Exoplanet Archive, HEASARC and
 * IRSA share: the loop that tags every record of a result, and the search
 * reply built from a result table.
 */
module Archive {
  import opened Wrappers
  import opened Strings
  import opened Py
  import opened Dicts
  import opened Exceptions
  import opened ToolCommon
  import opened TableUtils

  /** Keyword arguments of a remote query, in insertion order. */
  type Kwargs = seq<(string, Value)>

  /** The records after the tagging loop. */
  function Tagged(records: seq<Value>, tag: Value -> Value): (r: seq<Value>)
    ensures |r| == |records|
  {
    seq(|records|, i requires 0 <= i < |records| => tag(records[i]))
  }

  /** `for record in records: record[...] = ...`: each record in turn is
      replaced by its tagged form. */
  method TagRecords(records: seq<Value>, tag: Value -> Value) returns (out: seq<Value>)
    ensures out == Tagged(records, tag)
  {
    out := records;
    for i := 0 to |records|
      invariant |out| == |records|
      invariant forall j :: 0 <= j < i ==> out[j] == tag(records[j])
      invariant forall j :: i <= j < |records| ==> out[j] == records[j]
    {
      out := out[i := tag(out[i])];
    }
  }

  /** `record[k] = v` */
  function SetField(rec: Value, k: string, v: Value): Value {
    if rec.Dict? then Dict(Set(rec.entries, k, v)) else rec
  }

  /** The HEASARC and IRSA tagging: the archive name and the catalog. */
  function ArchiveTag(archive: string, catalog: string): Value -> Value {
    rec => SetField(SetField(rec, "archive", Str(archive)), "catalog", Str(catalog))
  }

  /** A tagged record names its archive and catalog, and keeps every other
      field and every key it had. */
  lemma ArchiveTagFields(archive: string, catalog: string, rec: Value, k: string)
    requires rec.Dict?
    ensures var t := ArchiveTag(archive, catalog)(rec);
      t.Dict? && Get(t.entries, "archive") == Some(Str(archive)) && Get(t.entries, "catalog") == Some(Str(catalog))
      && (k != "archive" && k != "catalog" ==> Get(t.entries, k) == Get(rec.entries, k))
      && (HasKey(rec.entries, k) ==> HasKey(t.entries, k))
  {
    var e1 := Set(rec.entries, "archive", Str(archive));
    GetSet(rec.entries, "archive", Str(archive), k);
    GetSet(e1, "catalog", Str(catalog), k);
    GetSet(rec.entries, "archive", Str(archive), "archive");
    GetSet(e1, "catalog", Str(catalog), "archive");
    GetSet(e1, "catalog", Str(catalog), "catalog");
    GetFinds(rec.entries, k);
    GetFinds(Set(e1, "catalog", Str(catalog)), k);
  }

  /** The query a catalog search echoes. */
  function CatalogEcho(catalog: string, ra: Double, dec: Double, radius: Double): Value {
    Dict([("catalog", Str(catalog)), ("ra", Float(ra)), ("dec", Float(dec)), ("radius", Float(radius))])
  }

  /** The search reply for a result table: none, or no rows, gives zero
      counts; otherwise every record, tagged. An exception from converting
      the table comes back as it is. */
  function Listing(service: string, query: Value, result: Option<Table>, tag: Value -> Value): Outcome<Value> {
    if NoRows(result) then Ok(Found(service, query, []))
    else match Records(result)
      case Err(e) => Err(e)
      case Ok(records) => Ok(Found(service, query, Tagged(records, tag)))
  }

  /** A record left as it is: the tools that do not tag. */
  function Same(rec: Value): Value {
    rec
  }

  lemma TaggedSame(records: seq<Value>)
    ensures Tagged(records, Same) == records
  {
    forall i | 0 <= i < |records| ensures Tagged(records, Same)[i] == records[i] {
      assert Tagged(records, Same)[i] == Same(records[i]);
    }
  }

  /** The reply for the outcome of a query: its exception, or the listing
      of its table. */
  function Search(service: string, query: Value, result: Outcome<Option<Table>>, tag: Value -> Value): Outcome<Value> {
    match result
    case Err(e) => Err(e)
    case Ok(table) => Listing(service, query, table, tag)
  }

  /** The body of a tool's `try`, with what it raises re-wrapped as
      `Rewrap` does. */
  function Guard(r: Outcome<Value>, prefix: string, service: string, suggestion: string,
                 details: seq<(string, Value)>): Outcome<Value> {
    match r
    case Ok(v) => Ok(v)
    case Err(e) => Err(Rewrap(e, prefix, service, suggestion, details))
  }

  // ---------------------------------------------------------------- optional arguments

  /** A truthy optional string: given and not empty. */
  predicate Given(a: Option<string>) {
    a.Some? && a.value != ""
  }

  /** The keyword arguments built by inserting each truthy optional
      argument in turn: the given ones, in parameter order. */
  function GivenArgs(args: seq<(string, Option<string>)>): Kwargs {
    if |args| == 0 then []
    else (if Given(args[0].1) then [(args[0].0, Str(args[0].1.value))] else []) + GivenArgs(args[1..])
  }

  /** They hold exactly the given arguments, each under its own
      name; they are empty exactly when no argument is given. */
  lemma {:induction false} GivenArgsSpec(args: seq<(string, Option<string>)>, k: string)
    ensures |GivenArgs(args)| == 0 <==> forall i :: 0 <= i < |args| ==> !Given(args[i].1)
    ensures HasKey(GivenArgs(args), k) <==> exists i :: 0 <= i < |args| && args[i].0 == k && Given(args[i].1)
    ensures forall i :: 0 <= i < |args| && args[i].0 == k && Given(args[i].1)
              && (forall j :: 0 <= j < i ==> args[j].0 != k)
              ==> Get(GivenArgs(args), k) == Some(Str(args[i].1.value))
  {
    if |args| > 0 {
      var head: Kwargs := if Given(args[0].1) then [(args[0].0, Str(args[0].1.value))] else [];
      GivenArgsSpec(args[1..], k);
      GetAppend(head, GivenArgs(args[1..]), k);
      GetFinds(head + GivenArgs(args[1..]), k);
      GetFinds(GivenArgs(args[1..]), k);
      GetFinds(head, k);
      forall i | 0 <= i < |args| && args[i].0 == k && Given(args[i].1)
                 && (forall j :: 0 <= j < i ==> args[j].0 != k)
        ensures Get(GivenArgs(args), k) == Some(Str(args[i].1.value))
      {
        if i > 0 {
          assert args[1..][i - 1] == args[i];
          assert forall j :: 0 <= j < i - 1 ==> args[1..][j].0 != k by {
            forall j | 0 <= j < i - 1 ensures args[1..][j].0 != k {
              assert args[1..][j] == args[j + 1];
            }
          }
        }
      }
      if HasKey(GivenArgs(args), k) {
        if !HasKey(head, k) {
          var i :| 0 <= i < |args[1..]| && args[1..][i].0 == k && Given(args[1..][i].1);
          assert args[i + 1] == args[1..][i];
        }
      }
      if exists i :: 0 <= i < |args| && args[i].0 == k && Given(args[i].1) {
        var i :| 0 <= i < |args| && args[i].0 == k && Given(args[i].1);
        if i > 0 {
          assert args[1..][i - 1] == args[i];
        }
      }
      forall i | 0 <= i < |args| && Given(args[i].1) ensures |GivenArgs(args)| > 0 {
        if i > 0 {
          assert args[1..][i - 1] == args[i];
        }
      }
    }
  }

  lemma {:induction false} GivenArgsSnoc(args: seq<(string, Option<string>)>, a: (string, Option<string>))
    ensures GivenArgs(args + [a]) == GivenArgs(args) + (if Given(a.1) then [(a.0, Str(a.1.value))] else [])
  {
    if |args| == 0 {
      assert args + [a] == [a];
    } else {
      assert (args + [a])[1..] == args[1..] + [a];
      GivenArgsSnoc(args[1..], a);
    }
  }

  /** `if value: kwargs[name] = value`, on keyword arguments that hold
      `pre` and then the given ones of `done`: afterwards they hold those
      of `done` and the new argument. */
  method InsertGiven(kwargs: Kwargs, name: string, value: Option<string>,
                     ghost pre: Kwargs, ghost done: seq<(string, Option<string>)>) returns (out: Kwargs)
    requires kwargs == pre + GivenArgs(done)
    requires !HasKey(pre, name) && forall i :: 0 <= i < |done| ==> done[i].0 != name
    ensures out == pre + GivenArgs(done + [(name, value)])
  {
    out := kwargs;
    GivenArgsSnoc(done, (name, value));
    assert pre + GivenArgs(done + [(name, value)])
      == kwargs + (if Given(value) then [(name, Str(value.value))] else []);
    if Given(value) {
      GivenArgsSpec(done, name);
      GetAppend(pre, GivenArgs(done), name);
      GetFinds(pre, name);
      GetFinds(kwargs, name);
      GetFinds(GivenArgs(done), name);
      SetAbsent(kwargs, name, Str(value.value));
      out := Set(out, name, Str(value.value));
    }
  }

  // ---------------------------------------------------------------- listings

  /** The counts are the number of rows, and the data is one tagged record
      per row, in row order, each holding that row's cells. */
  lemma ListingCounts(service: string, query: Value, result: Option<Table>, tag: Value -> Value)
    requires result.Some? ==> DistinctNames(result.value.columns)
    requires Listing(service, query, result, tag).Ok?
    ensures var es := Listing(service, query, result, tag).value.entries;
      var n := if result.Some? then NRows(result.value) else 0;
      Get(es, "total_count") == Some(Int(n)) && Get(es, "returned_count") == Some(Int(n))
      && (n == 0 ==> Get(es, "data") == Some(List([])))
      && (n > 0 ==>
            Get(es, "data") == Some(List(Tagged(Records(result).value, tag)))
            && |Records(result).value| == n
            && forall i :: 0 <= i < n ==> RecordOfRow(result.value, i, Records(result).value[i]))
  {
    if !NoRows(result) {
      RecordsShape(result.value, Records(result).value);
    }
  }
}
