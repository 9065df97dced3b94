/**
 * Conversion of astropy tables into JSON-ready records and summaries, and
 * the column/row selection helpers (utils/table_utils.py).
 */
module TableUtils {
  import opened Wrappers
  import opened Strings
  import opened Py
  import opened Dicts
  import opened Exceptions
  import Utf8

  /** What `Quantity.tolist()` raises: a quantity is an ndarray subclass but
      refuses to become a list. */
  const QuantityToList: Exception :=
    Builtin(NotImplementedError, "cannot make a list of Quantities. Instead, use .value.tolist() or .to_value().tolist()")

  /** `ndarray.tolist()` on one element: numpy scalars become Python ones,
      nested arrays nested lists, masked elements None. */
  function ToPython(v: Value): Value {
    match v
    case NpInt(i) => Int(i)
    case NpFloat(d) => Float(d)
    case NpBool(b) => Bool(b)
    case NdArray(elems) => List(seq(|elems|, i requires 0 <= i < |elems| => ToPython(elems[i])))
    case Masked => NoneValue
    case _ => v
  }

  predicate NonFinite(d: Double) { !d.Finite? }

  /** `_make_serializable(value)` */
  function MakeSerializable(v: Value): Outcome<Value> {
    match v
    case NoneValue => Ok(NoneValue)
    case NpInt(i) => Ok(Int(i))
    case NpFloat(d) => if NonFinite(d) then Ok(NoneValue) else Ok(Float(d))
    case NdArray(_) => Ok(ToPython(v))
    case Masked => Ok(NoneValue)
    case Quantity(_, _) => Err(QuantityToList)
    case NpBool(b) => Ok(Bool(b))
    case Bytes(bs) => Ok(Str(Utf8.Decode(bs)))
    case Float(d) => if NonFinite(d) then Ok(NoneValue) else Ok(v)
    case _ => Ok(v)
  }

  /** Only a quantity fails; numpy scalars become native values, non-finite
      floats (numpy or native) become None, bytes are decoded with
      replacement and the masked constant becomes None. */
  lemma MakeSerializableCases(v: Value)
    ensures MakeSerializable(v).Err? <==> v.Quantity?
    ensures (v.NpFloat? || v.Float?) && NonFinite(v.d) ==> MakeSerializable(v) == Ok(NoneValue)
    ensures v.NpFloat? && v.d.Finite? ==> MakeSerializable(v) == Ok(Float(v.d))
    ensures v.NpInt? ==> MakeSerializable(v) == Ok(Int(v.i))
    ensures v.NpBool? ==> MakeSerializable(v) == Ok(Bool(v.b))
    ensures v.Bytes? ==> MakeSerializable(v) == Ok(Str(Utf8.Decode(v.bytes)))
    ensures v.Masked? || v.NoneValue? ==> MakeSerializable(v) == Ok(NoneValue)
  {
  }

  /** Values a JSON encoder accepts as they are. */
  predicate Plain(v: Value) {
    match v
    case NoneValue => true
    case Bool(_) => true
    case Int(_) => true
    case Float(d) => d.Finite?
    case Str(_) => true
    case List(items) => forall i | 0 <= i < |items| :: Plain(items[i])
    case Dict(es) => forall i | 0 <= i < |es| :: Plain(es[i].1)
    case _ => false
  }

  /** Plain values pass through unchanged. */
  lemma MakeSerializablePlain(v: Value)
    requires Plain(v)
    ensures MakeSerializable(v) == Ok(v)
  {
  }

  /** Serialising twice is the same as serialising once. */
  lemma MakeSerializableIdempotent(v: Value)
    requires MakeSerializable(v).Ok?
    ensures MakeSerializable(MakeSerializable(v).value) == MakeSerializable(v)
  {
  }

  // ----------------------------------------------------------- records

  /** The serialised cells of one row, column by column. */
  function RowCells(cols: seq<Column>, row: nat): (r: seq<Outcome<Value>>)
    ensures |r| == |cols|
  {
    seq(|cols|, k requires 0 <= k < |cols| => MakeSerializable(Cell(cols[k], row)))
  }

  /** The record of one row: each column name assigned its serialised cell. */
  function Row(cols: seq<Column>, row: nat): Outcome<seq<(string, Value)>> {
    Collect(Names(cols), RowCells(cols, row), |cols|)
  }

  /** The records of the first `n` rows. */
  function RecordsPrefix(t: Table, n: nat): Outcome<seq<Value>> {
    if n == 0 then Ok([])
    else
      var prev := RecordsPrefix(t, n - 1);
      var rec := Row(t.columns, n - 1);
      if prev.Err? then prev
      else if rec.Err? then Err(rec.error)
      else Ok(prev.value + [Dict(rec.value)])
  }

  /** `table_to_records(table)` */
  function Records(table: Option<Table>): Outcome<seq<Value>> {
    if table.None? || NRows(table.value) == 0 then Ok([])
    else RecordsPrefix(table.value, NRows(table.value))
  }

  /** `table_to_records`, row by row and column by column. */
  method TableToRecords(table: Option<Table>) returns (r: Outcome<seq<Value>>)
    ensures r == Records(table)
  {
    if table.None? || NRows(table.value) == 0 {
      return Ok([]);
    }
    var t := table.value;
    var records: seq<Value> := [];
    var row := 0;
    while row < NRows(t)
      invariant row <= NRows(t)
      invariant RecordsPrefix(t, row) == Ok(records)
    {
      var record: seq<(string, Value)> := [];
      var k := 0;
      while k < |t.columns|
        invariant k <= |t.columns|
        invariant Collect(Names(t.columns), RowCells(t.columns, row), k) == Ok(record)
      {
        var v := MakeSerializable(Cell(t.columns[k], row));
        if v.Err? {
          CollectFails(Names(t.columns), RowCells(t.columns, row), k + 1, |t.columns|);
          RecordsFailFrom(t, row, NRows(t));
          return Err(v.error);
        }
        record := Set(record, t.columns[k].name, v.value);
        k := k + 1;
      }
      records := records + [Dict(record)];
      row := row + 1;
    }
    return Ok(records);
  }

  /** A failing row makes every longer prefix of rows fail with its error. */
  lemma {:induction false} RecordsFailFrom(t: Table, row: nat, n: nat)
    requires row < n
    requires RecordsPrefix(t, row).Ok? && Row(t.columns, row).Err?
    ensures RecordsPrefix(t, n) == Err(Row(t.columns, row).error)
    decreases n
  {
    if n > row + 1 {
      RecordsFailFrom(t, row, n - 1);
    }
  }

  function Names(cols: seq<Column>): (ns: seq<string>)
    ensures |ns| == |cols| && forall i :: 0 <= i < |cols| ==> ns[i] == cols[i].name
  {
    seq(|cols|, i requires 0 <= i < |cols| => cols[i].name)
  }

  predicate DistinctNames(cols: seq<Column>) {
    forall i, j :: 0 <= i < j < |cols| ==> cols[i].name != cols[j].name
  }

  /** `rec` is the record of row `row`: a dict keyed by exactly the column
      names, holding each cell of the row serialised. */
  predicate RecordOfRow(t: Table, row: nat, rec: Value) {
    rec.Dict? && Keys(rec.entries) == ColNames(t)
    && forall j :: 0 <= j < |t.columns| ==>
         Get(rec.entries, t.columns[j].name) == MakeSerializable(Cell(t.columns[j], row)).ToOption()
  }

  lemma RowRecord(t: Table, row: nat)
    requires DistinctNames(t.columns)
    requires Row(t.columns, row).Ok?
    ensures RecordOfRow(t, row, Dict(Row(t.columns, row).value))
  {
    var names, cells := Names(t.columns), RowCells(t.columns, row);
    var rec := Row(t.columns, row).value;
    CollectKeys(names, cells, |t.columns|);
    assert names[..|t.columns|] == ColNames(t);
    forall j | 0 <= j < |t.columns|
      ensures Get(rec, t.columns[j].name) == MakeSerializable(Cell(t.columns[j], row)).ToOption()
    {
      CollectValues(names, cells, |t.columns|, j);
    }
  }

  /** `table_to_records` yields one record per row, in row order, each keyed
      by exactly the column names and holding that row's serialised cells. */
  lemma RecordsShape(t: Table, rs: seq<Value>)
    requires DistinctNames(t.columns)
    requires Records(Some(t)) == Ok(rs)
    ensures |rs| == NRows(t)
    ensures forall r :: 0 <= r < |rs| ==> RecordOfRow(t, r, rs[r])
  {
    if NRows(t) > 0 {
      RecordsPrefixShape(t, NRows(t), rs);
    }
  }

  lemma {:induction false} RecordsPrefixShape(t: Table, n: nat, rs: seq<Value>)
    requires DistinctNames(t.columns)
    requires RecordsPrefix(t, n) == Ok(rs)
    ensures |rs| == n
    ensures forall r :: 0 <= r < |rs| ==> RecordOfRow(t, r, rs[r])
  {
    if n > 0 {
      var prev := RecordsPrefix(t, n - 1).value;
      RecordsPrefixShape(t, n - 1, prev);
      var rec := Row(t.columns, n - 1).value;
      assert RecordsPrefix(t, n) == Ok(prev + [Dict(rec)]);
      RowRecord(t, n - 1);
      forall r | 0 <= r < |rs| ensures RecordOfRow(t, r, rs[r]) {
        if r < n - 1 {
          assert rs[r] == prev[r];
        } else {
          assert rs[r] == Dict(rec);
        }
      }
    }
  }

  // ----------------------------------------------------------- summaries

  /** The description of one column: name and dtype, plus unit and
      description when they are set. */
  function ColumnInfo(c: Column): (r: Value)
    ensures r.Dict? && |r.entries| >= 2 && r.entries[0].0 == "name" && r.entries[1].0 == "dtype"
    ensures HasKey(r.entries, "unit") <==> c.unit != ""
    ensures HasKey(r.entries, "description") <==> c.description != ""
  {
    var u: seq<(string, Value)> := if c.unit != "" then [("unit", Str(c.unit))] else [];
    var d: seq<(string, Value)> := if c.description != "" then [("description", Str(c.description))] else [];
    var es := [("name", Str(c.name)), ("dtype", Str(c.dtype))] + u + d;
    assert HasKey(es, "unit") <==> c.unit != "" by {
      if c.unit != "" { assert es[2].0 == "unit"; }
      else { assert forall i | 0 <= i < |es| :: es[i].0 in {"name", "dtype", "description"}; }
    }
    assert HasKey(es, "description") <==> c.description != "" by {
      if c.description != "" { assert es[|es| - 1].0 == "description"; }
      else { assert forall i | 0 <= i < |es| :: es[i].0 in {"name", "dtype", "unit"}; }
    }
    Dict(es)
  }

  /** The column descriptions of the first `k` columns. */
  function ColumnInfos(cols: seq<Column>, k: nat): (r: seq<Value>)
    requires k <= |cols|
    ensures |r| == k && forall i :: 0 <= i < k ==> r[i] == ColumnInfo(cols[i])
  {
    if k == 0 then [] else ColumnInfos(cols, k - 1) + [ColumnInfo(cols[k - 1])]
  }

  /** The meta values, serialised. */
  function MetaValues(meta: seq<(string, Value)>): (r: seq<Outcome<Value>>)
    ensures |r| == |meta|
  {
    seq(|meta|, i requires 0 <= i < |meta| => MakeSerializable(meta[i].1))
  }

  const EmptySummary: Value :=
    Dict([("columns", List([])), ("data", List([])), ("meta", Dict([])), ("row_count", Int(0))])

  /** `table_to_dict(table)` */
  function Summary(table: Option<Table>): Outcome<Value> {
    if table.None? then Ok(EmptySummary)
    else
      var t := table.value;
      var columns := ColumnInfos(t.columns, |t.columns|);
      var data := Records(table);
      var meta := Meta(t);
      if data.Err? then Err(data.error)
      else if meta.Err? then Err(meta.error)
      else Ok(SummaryOf(columns, data.value, meta.value, NRows(t)))
  }

  function SummaryOf(columns: seq<Value>, data: seq<Value>, meta: seq<(string, Value)>, rows: nat): Value {
    Dict([("columns", List(columns)), ("data", List(data)), ("meta", Dict(meta)), ("row_count", Int(rows))])
  }

  /** The meta mapping of `table_to_dict`: empty when the table has none. */
  function Meta(t: Table): Outcome<seq<(string, Value)>> {
    if |t.meta| > 0 then Collect(Keys(t.meta), MetaValues(t.meta), |t.meta|) else Ok([])
  }

  /** `table_to_dict`, filling the column list, the data and the meta
      mapping step by step. */
  method TableToDict(table: Option<Table>) returns (r: Outcome<Value>)
    ensures r == Summary(table)
  {
    if table.None? {
      return Ok(EmptySummary);
    }
    var t := table.value;
    var columns: seq<Value> := [];
    for i := 0 to |t.columns|
      invariant columns == ColumnInfos(t.columns, i)
    {
      columns := columns + [ColumnInfo(t.columns[i])];
    }
    var data := TableToRecords(table);
    if data.Err? {
      return Err(data.error);
    }
    var meta: Outcome<seq<(string, Value)>> := Ok([]);
    if |t.meta| > 0 {
      meta := SerializeMeta(t.meta);
    }
    if meta.Err? {
      return Err(meta.error);
    }
    return Ok(SummaryOf(columns, data.value, meta.value, NRows(t)));
  }

  /** The meta loop of `table_to_dict`: each entry serialised in order. */
  method SerializeMeta(entries: seq<(string, Value)>) returns (r: Outcome<seq<(string, Value)>>)
    ensures r == Collect(Keys(entries), MetaValues(entries), |entries|)
  {
    var meta: seq<(string, Value)> := [];
    for k := 0 to |entries|
      invariant Collect(Keys(entries), MetaValues(entries), k) == Ok(meta)
    {
      var v := MakeSerializable(entries[k].1);
      if v.Err? {
        CollectFails(Keys(entries), MetaValues(entries), k + 1, |entries|);
        return Err(v.error);
      }
      meta := Set(meta, entries[k].0, v.value);
    }
    return Ok(meta);
  }

  /** The summary has the four keys in order; its row count equals the
      number of data records and the table length, and it lists one column
      entry per column. */
  lemma SummaryShape(t: Table, s: Value)
    requires DistinctNames(t.columns)
    requires Summary(Some(t)) == Ok(s)
    ensures s.Dict? && Keys(s.entries) == ["columns", "data", "meta", "row_count"]
    ensures s.entries[1].1.List? && s.entries[3].1 == Int(|s.entries[1].1.items|)
    ensures |s.entries[1].1.items| == NRows(t)
    ensures s.entries[0].1.List? && |s.entries[0].1.items| == |t.columns|
    ensures forall i :: 0 <= i < |t.columns| ==> s.entries[0].1.items[i] == ColumnInfo(t.columns[i])
  {
    var rs := Records(Some(t)).value;
    RecordsShape(t, rs);
  }

  // ----------------------------------------------------------- selection

  /** `table[names]`: a new table of the named columns, in the given order;
      astropy refuses duplicate names. */
  function Project(t: Table, names: seq<string>): (r: Outcome<Table>)
    requires forall n | n in names :: n in ColNames(t)
  {
    if exists i, j | 0 <= i < j < |names| :: names[i] == names[j] then
      Err(Builtin(ValueError, "Duplicate column names"))
    else
      Ok(Table(seq(|names|, i requires 0 <= i < |names| =>
        var k := FindColumn(t, names[i]);
        assert k.Some? by { assert names[i] in names; assert names[i] in ColNames(t); }
        t.columns[k.value]), t.meta))
  }

  function Filter(xs: seq<string>, keep: string -> bool): (r: seq<string>)
    ensures forall x :: x in r <==> x in xs && keep(x)
    ensures |r| <= |xs|
  {
    if |xs| == 0 then [] else (if keep(xs[0]) then [xs[0]] else []) + Filter(xs[1..], keep)
  }

  /** The names `select_columns` keeps: the requested names (all by
      default), minus excluded ones, among those the table has. */
  function SelectedNames(t: Table, columns: Option<seq<string>>, exclude: Option<seq<string>>): seq<string> {
    var requested := columns.GetOr(ColNames(t));
    var afterExclude := if exclude.Some? && |exclude.value| > 0 then Filter(requested, c => c !in exclude.value) else requested;
    Filter(afterExclude, c => c in ColNames(t))
  }

  /** `select_columns(table, columns, exclude)` */
  function SelectColumns(t: Table, columns: Option<seq<string>>, exclude: Option<seq<string>>): (r: Outcome<Table>)
    ensures SelectedNames(t, columns, exclude) == [] ==> r == Ok(t)
  {
    var existing := SelectedNames(t, columns, exclude);
    if |existing| == 0 then Ok(t) else Project(t, existing)
  }

  /** A non-empty selection holds exactly the kept names in requested
      order; each is requested (or any, by default), not excluded, and
      present in the table. */
  lemma SelectColumnsContents(t: Table, columns: Option<seq<string>>, exclude: Option<seq<string>>)
    requires SelectedNames(t, columns, exclude) != []
    requires SelectColumns(t, columns, exclude).Ok?
    ensures var r := SelectColumns(t, columns, exclude).value;
      ColNames(r) == SelectedNames(t, columns, exclude) && r.meta == t.meta
      && forall c | c in ColNames(r) ::
           c in ColNames(t) && (columns.Some? ==> c in columns.value)
           && (exclude.Some? ==> c !in exclude.value)
  {
    var r := SelectColumns(t, columns, exclude).value;
    var names := SelectedNames(t, columns, exclude);
    assert |ColNames(r)| == |names|;
    forall i | 0 <= i < |names| ensures ColNames(r)[i] == names[i] {
      assert names[i] in names;
      assert names[i] in ColNames(t);
      var k := FindColumn(t, names[i]);
      assert k.Some?;
      assert r.columns[i] == t.columns[k.value];
    }
  }

  /** `limit_table(table, limit)` */
  function LimitTable(t: Table, limit: Option<int>): (r: Table)
    ensures limit.None? || limit.value <= 0 ==> r == t
  {
    if limit.None? || limit.value <= 0 then t
    else Table(seq(|t.columns|, i requires 0 <= i < |t.columns| =>
      var c := t.columns[i];
      c.(cells := if limit.value < |c.cells| then c.cells[..limit.value] else c.cells)), t.meta)
  }

  /** A positive limit keeps the first min(limit, n) rows of every column
      and nothing else changes. */
  lemma LimitTableRows(t: Table, limit: int)
    requires limit > 0
    ensures var r := LimitTable(t, Some(limit));
      NRows(r) == (if limit < NRows(t) then limit else NRows(t))
      && ColNames(r) == ColNames(t) && r.meta == t.meta
      && forall i :: 0 <= i < |t.columns| ==>
           r.columns[i].cells == t.columns[i].cells[..if limit < |t.columns[i].cells| then limit else |t.columns[i].cells|]
  {
  }
}
