/**
 * The Python objects that flow through the server: JSON-like values coming
 * from clients, the numpy scalars, masked constants, sky coordinates,
 * quantities and tables that astroquery hands back, and opaque objects.
 *
 * Dictionaries keep insertion order (as Python's do) and are sequences of
 * key/value pairs with string keys; `Get` and `Set` give them Python's
 * lookup and assignment semantics.
 */
module Py {
  import opened Wrappers
  import opened Strings
  import opened Dicts
  import Utf8

  /** A C double: finite values as exact reals, plus the three special values. */
  datatype Double = Finite(r: real) | NaN | PosInf | NegInf {
    predicate IsFinite() { this.Finite? }
  }

  /** An astropy SkyCoord (scalar): its position in degrees and frame name. */
  datatype SkyCoord = SkyCoord(raDeg: Double, decDeg: Double, frame: string)

  /** An astropy table column; `unit` and `description` are "" when unset. */
  datatype Column = Column(name: string, dtype: string, unit: string, description: string, cells: seq<Value>)

  /** An astropy Table: columns in order, plus its `meta` mapping. */
  datatype Table = Table(columns: seq<Column>, meta: seq<(string, Value)>)

  datatype Value =
    | NoneValue
    | Bool(b: bool)
    | Int(i: int)
    | Float(d: Double)
    | Str(s: string)
    | Bytes(bytes: seq<Utf8.byte>)
    | List(items: seq<Value>)
    | Dict(entries: seq<(string, Value)>)
      /** numpy scalars and arrays; `NpFloat` is a float64, which Python
          counts as a `float`, and `NpInt` is not an `int` */
    | NpInt(i: int)
    | NpFloat(d: Double)
    | NpBool(b: bool)
    | NdArray(elems: seq<Value>)
      /** `numpy.ma.masked` */
    | Masked
    | Sky(coord: SkyCoord)
      /** astropy Quantity: a scalar value with a unit name */
    | Quantity(magnitude: Double, unit: string)
    | Tbl(table: Table)
      /** any other object, known by its type name */
    | Object(typeName: string)

  // ---------------------------------------------------------------- tables

  /** `len(table)`: the length of the first column (0 without columns). */
  function NRows(t: Table): nat {
    if |t.columns| == 0 then 0 else |t.columns[0].cells|
  }

  /** All columns have the same number of rows. */
  predicate Rectangular(t: Table) {
    forall c | c in t.columns :: |c.cells| == NRows(t)
  }

  function ColNames(t: Table): (names: seq<string>)
    ensures |names| == |t.columns| && forall i :: 0 <= i < |names| ==> names[i] == t.columns[i].name
  {
    seq(|t.columns|, i requires 0 <= i < |t.columns| => t.columns[i].name)
  }

  /** `table[name][row]` for a column that exists and a row in range. */
  function Cell(c: Column, row: nat): Value {
    if row < |c.cells| then c.cells[row] else NoneValue
  }

  /** Index of the first column called `name`. */
  function FindColumn(t: Table, name: string): (r: Option<nat>)
    ensures r.Some? ==> r.value < |t.columns| && t.columns[r.value].name == name
    ensures r.Some? ==> forall j :: 0 <= j < r.value ==> t.columns[j].name != name
    ensures r.None? ==> forall j :: 0 <= j < |t.columns| ==> t.columns[j].name != name
  {
    FindColumnFrom(t, name, 0)
  }

  function FindColumnFrom(t: Table, name: string, from: nat): (r: Option<nat>)
    requires from <= |t.columns|
    requires forall j :: 0 <= j < from ==> t.columns[j].name != name
    ensures r.Some? ==> from <= r.value < |t.columns| && t.columns[r.value].name == name
    ensures r.Some? ==> forall j :: 0 <= j < r.value ==> t.columns[j].name != name
    ensures r.None? ==> forall j :: 0 <= j < |t.columns| ==> t.columns[j].name != name
    decreases |t.columns| - from
  {
    if from == |t.columns| then None
    else if t.columns[from].name == name then Some(from)
    else FindColumnFrom(t, name, from + 1)
  }

  // ---------------------------------------------------------------- truth

  /** `bool(v)` where Python gives a value. A numpy array of one element
      takes that element's truth and an empty one is false; an array of
      two or more elements, for which numpy raises, is false here (see
      `ToolCommon.Truth`, which raises). Tables are true when they have
      rows; other objects are true. */
  predicate Truthy(v: Value) {
    match v
    case NoneValue => false
    case Bool(b) => b
    case Int(i) => i != 0
    case Float(d) => d != Finite(0.0)
    case Str(s) => |s| > 0
    case Bytes(bs) => |bs| > 0
    case List(items) => |items| > 0
    case Dict(es) => |es| > 0
    case NpInt(i) => i != 0
    case NpFloat(d) => d != Finite(0.0)
    case NpBool(b) => b
    case NdArray(elems) => |elems| == 1 && Truthy(elems[0])
    case Masked => false
    case Tbl(t) => NRows(t) > 0
    case _ => true
  }

  /** Whether the object has an `item()` method (numpy scalars and arrays,
      quantities). */
  predicate HasItem(v: Value) {
    v.NpInt? || v.NpFloat? || v.NpBool? || v.NdArray? || v.Masked? || v.Quantity?
  }

  /** `type(v).__name__` */
  function TypeName(v: Value): string {
    match v
    case NoneValue => "NoneType"
    case Bool(_) => "bool"
    case Int(_) => "int"
    case Float(_) => "float"
    case Str(_) => "str"
    case Bytes(_) => "bytes"
    case List(_) => "list"
    case Dict(_) => "dict"
    case NpInt(_) => "int64"
    case NpFloat(_) => "float64"
    case NpBool(_) => "bool_"
    case NdArray(_) => "ndarray"
    case Masked => "MaskedConstant"
    case Sky(_) => "SkyCoord"
    case Quantity(_, _) => "Quantity"
    case Tbl(_) => "Table"
    case Object(name) => name
  }

  // ---------------------------------------------------------------- str()

  /** Decimal digits of the fractional part `x` (0 <= x < 1), at most `n`
      of them, without trailing zeros. */
  function FractionDigits(x: real, n: nat): string
    requires 0.0 <= x < 1.0
    decreases n
  {
    if n == 0 || x == 0.0 then ""
    else
      var d := (x * 10.0).Floor;
      assert 0 <= d < 10;
      var rest := FractionDigits(x * 10.0 - d as real, n - 1);
      [Digit(d)] + rest
  }

  /** `str(f)` / `repr(f)` for a float, in positional notation. */
  function ShowDouble(d: Double): string {
    match d
    case NaN => "nan"
    case PosInf => "inf"
    case NegInf => "-inf"
    case Finite(r) =>
      var a := if r < 0.0 then -r else r;
      var whole := a.Floor;
      var frac := FractionDigits(a - whole as real, 17);
      (if r < 0.0 then "-" else "") + NatToString(whole) + "." + (if frac == "" then "0" else frac)
  }

  function HexDigit(d: nat): char
    requires d < 16
  {
    "0123456789abcdef"[d]
  }

  /** One byte inside a `bytes` repr. */
  function ByteRepr(b: Utf8.byte): string {
    if b == 0x5C then "\\\\"
    else if b == 0x27 then "\\'"
    else if b == 0x09 then "\\t"
    else if b == 0x0A then "\\n"
    else if b == 0x0D then "\\r"
    else if 0x20 <= b < 0x7F then [b as int as char]
    else "\\x" + [HexDigit(b as int / 16), HexDigit(b as int % 16)]
  }

  /** `str(v)` */
  function Show(v: Value): string
    decreases v, 0
  {
    match v
    case NoneValue => "None"
    case Bool(b) => if b then "True" else "False"
    case Int(i) => IntToString(i)
    case Float(d) => ShowDouble(d)
    case Str(s) => s
    case Bytes(bs) => "b'" + Concat(seq(|bs|, i requires 0 <= i < |bs| => ByteRepr(bs[i]))) + "'"
    case List(items) => "[" + Join(", ", seq(|items|, i requires 0 <= i < |items| => Repr(items[i]))) + "]"
    case Dict(es) =>
      "{" + Join(", ", seq(|es|, i requires 0 <= i < |es| => "'" + es[i].0 + "': " + Repr(es[i].1))) + "}"
    case NpInt(i) => IntToString(i)
    case NpFloat(d) => ShowDouble(d)
    case NpBool(b) => if b then "True" else "False"
    case NdArray(elems) => "[" + Join(" ", seq(|elems|, i requires 0 <= i < |elems| => Show(elems[i]))) + "]"
    case Masked => "--"
    case Sky(c) => "<SkyCoord (" + Upper(c.frame) + "): (ra, dec) in deg\n    (" + ShowDouble(c.raDeg) + ", " + ShowDouble(c.decDeg) + ")>"
    case Quantity(m, unit) => ShowDouble(m) + " " + unit
    case Tbl(t) => "<Table length=" + NatToString(NRows(t)) + ">"
    case Object(name) => "<" + name + " object>"
  }

  /** `repr(v)`: strings are quoted, everything else prints as `str`. */
  function Repr(v: Value): string
    decreases v, 1
  {
    if v.Str? then "'" + v.s + "'" else Show(v)
  }

  function Concat(parts: seq<string>): string {
    if |parts| == 0 then "" else parts[0] + Concat(parts[1..])
  }

  /** A list of strings. */
  function StrList(xs: seq<string>): (v: Value)
    ensures v.List? && |v.items| == |xs|
    ensures forall i :: 0 <= i < |xs| ==> v.items[i] == Str(xs[i])
  {
    List(seq(|xs|, i requires 0 <= i < |xs| => Str(xs[i])))
  }

  /** `None` for a missing argument, the string otherwise. */
  function OptStr(s: Option<string>): Value {
    if s.Some? then Str(s.value) else NoneValue
  }
}
