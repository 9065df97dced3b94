/**
 * What the per-service tool modules share: rows of result tables, the
 * Python conversions they apply to cells (`int()`, `float()`), the
 * `except Exception` boundary that turns an unexpected failure into a
 * SERVICE_ERROR, and the common search-result envelope.
 *
 * A remote call made through `run_sync_with_retry` is not performed here:
 * each tool receives its outcome (a table, `None`, or the exception the
 * call or the retry loop raised) as a parameter.
 */
module ToolCommon {
  import opened Wrappers
  import opened Strings
  import opened Py
  import opened Dicts
  import opened Errors
  import opened Exceptions

  // ---------------------------------------------------------------- rows

  /** A table row: column name to cell, in column order. */
  type Row = seq<(string, Value)>

  /** `table[i]` */
  function RowOf(t: Table, i: nat): (r: Row)
    ensures |r| == |t.columns| && Keys(r) == ColNames(t)
    ensures forall j :: 0 <= j < |r| ==> r[j] == (t.columns[j].name, Cell(t.columns[j], i))
  {
    seq(|t.columns|, j requires 0 <= j < |t.columns| => (t.columns[j].name, Cell(t.columns[j], i)))
  }

  /** Where `s[:m]` ends on a sequence of length `n`: a negative `m` counts
      from the end. */
  function SliceEnd(n: nat, m: int): (k: nat)
    ensures k <= n
  {
    if m >= 0 then (if m < n then m else n)
    else if n + m > 0 then n + m else 0
  }

  /** `s[:m]` */
  function Prefix<T>(s: seq<T>, m: int): (r: seq<T>)
    ensures |r| <= |s| && r == s[..|r|]
    ensures 0 <= m ==> |r| == if m < |s| then m else |s|
  {
    s[..SliceEnd(|s|, m)]
  }

  /** `table[:m]`: every column cut to the same rows; the metadata stays. */
  function TableSlice(t: Table, m: int): (r: Table)
    ensures ColNames(r) == ColNames(t) && r.meta == t.meta
    ensures NRows(r) == SliceEnd(NRows(t), m)
  {
    var k := SliceEnd(NRows(t), m);
    Table(seq(|t.columns|, i requires 0 <= i < |t.columns| =>
      var c := t.columns[i];
      c.(cells := c.cells[..if k < |c.cells| then k else |c.cells|])), t.meta)
  }

  /** `row[name]` for a column the table has. */
  function RowValue(t: Table, row: nat, name: string): Value
    requires name in ColNames(t)
  {
    var k := FindColumn(t, name);
    assert k.Some? by {
      var i :| 0 <= i < |ColNames(t)| && ColNames(t)[i] == name;
    }
    Cell(t.columns[k.value], row)
  }

  /** `[f(row) for row in table]` over the first `n` rows: the first row
      whose conversion raises aborts the whole list. */
  function MapRows(t: Table, f: Row -> Outcome<Value>, n: nat): Outcome<seq<Value>>
    requires n <= NRows(t)
  {
    if n == 0 then Ok([])
    else match MapRows(t, f, n - 1)
      case Err(e) => Err(e)
      case Ok(done) =>
        match f(RowOf(t, n - 1))
        case Err(e) => Err(e)
        case Ok(v) => Ok(done + [v])
  }

  /** The loop over the rows of a result table. */
  method ConvertRows(t: Table, f: Row -> Outcome<Value>) returns (r: Outcome<seq<Value>>)
    ensures r == MapRows(t, f, NRows(t))
  {
    var done: seq<Value> := [];
    for row := 0 to NRows(t)
      invariant MapRows(t, f, row) == Ok(done)
    {
      var v := f(RowOf(t, row));
      if v.Err? {
        MapRowsFailFrom(t, f, row, NRows(t));
        return Err(v.error);
      }
      done := done + [v.value];
    }
    return Ok(done);
  }

  /** A row that fails makes every longer prefix fail with its error. */
  lemma {:induction false} MapRowsFailFrom(t: Table, f: Row -> Outcome<Value>, row: nat, n: nat)
    requires row < n <= NRows(t)
    requires MapRows(t, f, row).Ok? && f(RowOf(t, row)).Err?
    ensures MapRows(t, f, n) == Err(f(RowOf(t, row)).error)
    decreases n
  {
    if n > row + 1 {
      MapRowsFailFrom(t, f, row, n - 1);
    }
  }

  /** A successful conversion has one value per row, each the conversion of
      its row; it succeeds exactly when every row converts. */
  lemma {:induction false} MapRowsOk(t: Table, f: Row -> Outcome<Value>, n: nat)
    requires n <= NRows(t)
    ensures MapRows(t, f, n).Ok? <==> forall i :: 0 <= i < n ==> f(RowOf(t, i)).Ok?
    ensures MapRows(t, f, n).Ok? ==>
      |MapRows(t, f, n).value| == n
      && forall i :: 0 <= i < n ==> f(RowOf(t, i)) == Ok(MapRows(t, f, n).value[i])
  {
    if n > 0 {
      MapRowsOk(t, f, n - 1);
    }
  }

  /** `result is None or len(result) == 0` */
  predicate NoRows(result: Option<Table>) {
    result.None? || NRows(result.value) == 0
  }

  /** `v[key]` with a string key: a dict lookup that raises KeyError for a
      missing key, and TypeError for anything that is not a mapping. */
  function Subscript(v: Value, key: string): (r: Outcome<Value>)
    ensures v.Dict? ==> (r.Ok? <==> HasKey(v.entries, key))
    ensures r.Ok? ==> v.Dict? && Get(v.entries, key) == Some(r.value)
  {
    GetFinds(if v.Dict? then v.entries else [], key);
    match v
    case Dict(es) =>
      (match Get(es, key)
       case Some(x) => Ok(x)
       case None => Err(Builtin(KeyError, Repr(Str(key)))))
    case List(_) => Err(Builtin(TypeError, "list indices must be integers or slices, not str"))
    case _ => Err(Builtin(TypeError, "'" + TypeName(v) + "' object is not subscriptable"))
  }

  // ---------------------------------------------------------------- int()

  /** Truncation toward zero, as `int()` does to a float. */
  function Trunc(r: real): (i: int)
    ensures 0.0 <= r ==> i as real <= r < i as real + 1.0
    ensures r < 0.0 ==> i as real - 1.0 < r <= i as real
  {
    if r >= 0.0 then r.Floor else -((-r).Floor)
  }

  function IntOfDouble(d: Double): Outcome<int> {
    match d
    case Finite(r) => Ok(Trunc(r))
    case NaN => Err(Builtin(ValueError, "cannot convert float NaN to integer"))
    case _ => Err(Builtin(OtherException("OverflowError"), "cannot convert float infinity to integer"))
  }

  predicate AllDigits(s: string) {
    forall i :: 0 <= i < |s| ==> IsDigit(s[i])
  }

  /** `s` without one leading sign character, and whether that sign was '-'. */
  function Unsigned(s: string): (string, bool) {
    if |s| > 0 && (s[0] == '-' || s[0] == '+') then (s[1..], s[0] == '-') else (s, false)
  }

  /** `int(s)` for a string: surrounding whitespace, an optional sign and
      decimal digits. */
  function IntOfString(s: string): Outcome<int> {
    var (body, negative) := Unsigned(Strip(s));
    if |body| > 0 && AllDigits(body) then
      var n: int := DigitsValue(body);
      Ok(if negative then -n else n)
    else Err(Builtin(ValueError, "invalid literal for int() with base 10: " + Repr(Str(s))))
  }

  /** A plain run of digits converts to its decimal value. */
  lemma IntOfDigits(s: string)
    requires AllDigits(s) && |s| > 0
    ensures IntOfString(s) == Ok(DigitsValue(s))
  {
    assert Strip(s) == s by {
      assert IsDigit(s[0]) && IsDigit(s[|s| - 1]);
      assert !IsSpace(s[0]) && !IsSpace(s[|s| - 1]);
    }
    assert Unsigned(s) == (s, false) by {
      assert IsDigit(s[0]);
    }
  }

  /** `int(v)` */
  function AsInt(v: Value): Outcome<int> {
    match v
    case Bool(b) => Ok(if b then 1 else 0)
    case NpBool(b) => Ok(if b then 1 else 0)
    case Int(i) => Ok(i)
    case NpInt(i) => Ok(i)
    case Float(d) => IntOfDouble(d)
    case NpFloat(d) => IntOfDouble(d)
    case Str(s) => IntOfString(s)
    case NdArray(elems) =>
      if |elems| == 1 then AsInt(elems[0])
      else Err(Builtin(TypeError, "only length-1 arrays can be converted to Python scalars"))
    case Masked => Err(Builtin(OtherException("MaskError"), "Cannot convert masked element to a Python int."))
    case Quantity(m, unit) =>
      if unit == "" then IntOfDouble(m)
      else Err(Builtin(TypeError, "only dimensionless scalar quantities can be converted to Python scalars"))
    case _ => Err(Builtin(TypeError, "int() argument must be a string, a bytes-like object or a real number, not '" + TypeName(v) + "'"))
  }

  // ---------------------------------------------------------------- bool()

  /** The message of the ValueError numpy raises for the truth of an array
      with more than one element. */
  const AmbiguousTruth: string :=
    "The truth value of an array with more than one element is ambiguous. Use a.any() or a.all()"

  /** An array numpy refuses a truth value: two or more elements, or a
      single element that is itself such an array. */
  predicate Ambiguous(v: Value) {
    v.NdArray? && (|v.elems| >= 2 || (|v.elems| == 1 && Ambiguous(v.elems[0])))
  }

  /** `bool(v)`, raising where numpy does: it fails exactly on the
      ambiguous arrays, with numpy's ValueError, and otherwise agrees with
      `Truthy`. */
  function Truth(v: Value): (r: Outcome<bool>)
    ensures r.Err? <==> Ambiguous(v)
    ensures r.Err? ==> r.error == Builtin(ValueError, AmbiguousTruth)
    ensures r.Ok? ==> r.value == Truthy(v)
  {
    match v
    case NdArray(elems) =>
      if |elems| >= 2 then Err(Builtin(ValueError, AmbiguousTruth))
      else if |elems| == 1 then Truth(elems[0])
      else Ok(false)
    case _ => Ok(Truthy(v))
  }

  // ---------------------------------------------------------------- float()

  function Pow10(n: nat): (p: nat)
    ensures p >= 1
  {
    if n == 0 then 1 else 10 * Pow10(n - 1)
  }

  /** Index of the first '.' in `s`, or |s|. */
  function DotAt(s: string): (i: nat)
    ensures i <= |s|
    ensures i < |s| ==> s[i] == '.'
    ensures forall j :: 0 <= j < i ==> s[j] != '.'
  {
    if |s| == 0 then 0 else if s[0] == '.' then 0 else 1 + DotAt(s[1..])
  }

  /** `digits[.digits]` with at least one digit, as an exact real. */
  function DecimalValue(s: string): Option<real> {
    var i := DotAt(s);
    var whole := s[..i];
    var frac := if i < |s| then s[i + 1..] else "";
    if |whole| + |frac| > 0 && AllDigits(whole) && AllDigits(frac) then
      Some(DigitsValue(whole) as real + DigitsValue(frac) as real / Pow10(|frac|) as real)
    else None
  }

  /** `float(s)` for a string: `nan`, `inf`, `infinity` in any case, or a
      signed positional decimal, with surrounding whitespace. */
  function FloatOfString(s: string): Outcome<Double> {
    var (body, negative) := Unsigned(Lower(Strip(s)));
    if body == "nan" then Ok(NaN)
    else if body == "inf" || body == "infinity" then Ok(if negative then NegInf else PosInf)
    else match DecimalValue(body)
      case Some(x) => Ok(Finite(if negative then -x else x))
      case None => Err(Builtin(ValueError, "could not convert string to float: " + Repr(Str(s))))
  }

  /** `float(v)` */
  function AsFloat(v: Value): Outcome<Double> {
    match v
    case Bool(b) => Ok(Finite(if b then 1.0 else 0.0))
    case NpBool(b) => Ok(Finite(if b then 1.0 else 0.0))
    case Int(i) => Ok(Finite(i as real))
    case NpInt(i) => Ok(Finite(i as real))
    case Float(d) => Ok(d)
    case NpFloat(d) => Ok(d)
    case Str(s) => FloatOfString(s)
    case NdArray(elems) =>
      if |elems| == 1 then AsFloat(elems[0])
      else Err(Builtin(TypeError, "only length-1 arrays can be converted to Python scalars"))
      // numpy converts the masked constant to nan (with a warning)
    case Masked => Ok(NaN)
    case Quantity(m, unit) =>
      if unit == "" then Ok(m)
      else Err(Builtin(TypeError, "only dimensionless scalar quantities can be converted to Python scalars"))
    case _ => Err(Builtin(TypeError, "float() argument must be a string or a real number, not '" + TypeName(v) + "'"))
  }

  /** Double arithmetic the tools need: `x * k` for a finite factor. */
  function Scale(d: Double, k: real): Double {
    match d
    case Finite(r) => Finite(r * k)
    case NaN => NaN
    case PosInf => if k > 0.0 then PosInf else if k < 0.0 then NegInf else NaN
    case NegInf => if k > 0.0 then NegInf else if k < 0.0 then PosInf else NaN
  }

  // ---------------------------------------------------------------- errors

  /** The SERVICE_ERROR a tool raises in place of an unexpected exception
      `e`: the message is `prefix` followed by `str(e)`, and the details are
      `details` followed by the error text. */
  function Wrapped(e: Exception, prefix: string, service: string, suggestion: string,
                   details: seq<(string, Value)>): (r: MCPError)
    ensures r.code == ServiceFailure && r.recoverable && r.service == service
    ensures r.message == prefix + ExceptionText(e)
    ensures Keys(r.details) == Keys(details) + ["error"]
  {
    MCPError(ServiceFailure, prefix + ExceptionText(e), service, true, suggestion,
      details + [("error", Str(ExceptionText(e)))])
  }

  /** `except MCPError: raise` followed by `except Exception as e: raise
      MCPError(SERVICE_ERROR, ...)`. */
  function Rewrap(e: Exception, prefix: string, service: string, suggestion: string,
                  details: seq<(string, Value)>): (r: Exception)
    ensures r.Mcp?
    ensures e.Mcp? ==> r == e
    ensures e.Builtin? ==> r.err.code == ServiceFailure && r.err.recoverable && r.err.service == service
  {
    if e.Mcp? then e else Mcp(Wrapped(e, prefix, service, suggestion, details))
  }

  // ---------------------------------------------------------------- results

  /** The search result most tools return: the query echoed, equal total and
      returned counts, and the records. */
  function Found(service: string, query: Value, data: seq<Value>): (r: Value)
    ensures r.Dict? && Keys(r.entries) == ["success", "service", "query", "total_count", "returned_count", "data"]
    ensures Get(r.entries, "total_count") == Some(Int(|data|))
    ensures Get(r.entries, "returned_count") == Some(Int(|data|))
    ensures Get(r.entries, "data") == Some(List(data))
  {
    var es := [("success", Bool(true)), ("service", Str(service)), ("query", query),
               ("total_count", Int(|data|)), ("returned_count", Int(|data|)), ("data", List(data))];
    GetAt(es, 3);
    GetAt(es, 4);
    GetAt(es, 5);
    Dict(es)
  }

}
