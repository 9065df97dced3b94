/**
 * Dynamic execution of astroquery methods (executor.py): argument
 * coercion, result normalisation, the execution envelope with its error
 * classification, the class cache, and the module and function listings.
 *
 * Astropy's constructors and the remote methods are parameters: an
 * `Astropy` bundle for name resolution, coordinate parsing and units, and
 * an `Invoker` for calling a method with keyword arguments.
 */
module Executor {
  import opened Wrappers
  import opened Strings
  import opened Py
  import opened Dicts
  import opened Errors
  import opened Exceptions
  import opened TableUtils
  import opened Introspection
  import Utf8

  // ------------------------------------------------------------ arguments

  /** The astropy operations argument coercion relies on. */
  datatype Astropy = Astropy(
    /** `SkyCoord.from_name(s)` (a name-resolver lookup) */
    fromName: string -> Outcome<SkyCoord>,
    /** `SkyCoord(s)` on a coordinate string */
    parseCoord: string -> Outcome<SkyCoord>,
    /** `SkyCoord(ra=ra*u.deg, dec=dec*u.deg, frame=frame)` */
    skyFromParts: (Value, Value, Value) -> Outcome<Value>,
    /** `getattr(u, name)`: the unit's printed name, or None when the units
        module has no such attribute */
    unitNamed: string -> Option<string>,
    /** `val * unit` for a value that is not a number */
    scaleOther: (Value, string) -> Outcome<Value>)

  const CoordParams: set<string> := {"coordinates", "coord", "coords", "position", "pos", "target"}
  const RadiusParams: set<string> := {"radius", "rad", "search_radius", "cone_radius"}

  predicate CoordLike(name: string) {
    Lower(name) in CoordParams || Contains(Lower(name), "coord")
  }

  predicate RadiusLike(name: string) {
    Lower(name) in RadiusParams || Contains(Lower(name), "radius")
  }

  predicate BoxLike(name: string) {
    Lower(name) == "width" || Lower(name) == "height"
  }

  /** `isinstance(v, (int, float))`; bool is an int and numpy's float64 a
      float. */
  predicate IntOrFloat(v: Value) {
    v.Bool? || v.Int? || v.Float? || v.NpFloat?
  }

  function AsDouble(v: Value): Double
    requires IntOrFloat(v)
  {
    match v
    case Bool(b) => Finite(if b then 1.0 else 0.0)
    case Int(i) => Finite(i as real)
    case Float(d) => d
    case NpFloat(d) => d
  }

  /** `getattr(u, unit_str, u.arcmin)`: an unknown name falls back to
      arcmin; a name that is not a string is a TypeError. */
  function UnitOf(env: Astropy, unitStr: Value): Outcome<string> {
    if !unitStr.Str? then Err(Builtin(TypeError, "attribute name must be string, not '" + TypeName(unitStr) + "'"))
    else Ok(env.unitNamed(unitStr.s).GetOr("arcmin"))
  }

  /** `val * unit` */
  function Times(env: Astropy, val: Value, unit: string): Outcome<Value> {
    if IntOrFloat(val) then Ok(Quantity(AsDouble(val), unit)) else env.scaleOther(val, unit)
  }

  /** A `{"value": ..., "unit": ...}` dict scaled into a quantity, with the
      alternative keys tried when `short` holds. */
  function ScaledDict(env: Astropy, es: seq<(string, Value)>, short: bool): Outcome<Value> {
    var val := if short then GetOr(es, "value", GetOr(es, "v", Int(1))) else GetOr(es, "value", Int(1));
    var unitStr := if short then GetOr(es, "unit", GetOr(es, "u", Str("arcmin"))) else GetOr(es, "unit", Str("arcmin"));
    var unit := UnitOf(env, unitStr);
    if unit.Err? then Err(unit.error) else Times(env, val, unit.value)
  }

  /** The radius and box rules, reached when the coordinate rule did not
      return. */
  function PrepareSize(env: Astropy, value: Value, name: string): Outcome<Value> {
    if RadiusLike(name) && value.Dict? then ScaledDict(env, value.entries, true)
    else if RadiusLike(name) && IntOrFloat(value) then Ok(Quantity(AsDouble(value), "arcmin"))
    else if BoxLike(name) && IntOrFloat(value) then Ok(Quantity(AsDouble(value), "arcmin"))
    else if BoxLike(name) && value.Dict? then ScaledDict(env, value.entries, false)
    else Ok(value)
  }

  /** `prepare_argument(value, param_name)` */
  function PrepareArgument(env: Astropy, value: Value, name: string): Outcome<Value> {
    if value.NoneValue? then Ok(NoneValue)
    else if CoordLike(name) && value.Dict? && HasKey(value.entries, "ra") && HasKey(value.entries, "dec") then
      var es := value.entries;
      env.skyFromParts(GetOr(es, "ra", NoneValue), GetOr(es, "dec", NoneValue), GetOr(es, "frame", Str("icrs")))
    else if CoordLike(name) && value.Str? then
      var byName := env.fromName(value.s);
      if byName.Ok? then Ok(Sky(byName.value))
      else
        var parsed := env.parseCoord(value.s);
        if parsed.Ok? then Ok(Sky(parsed.value)) else Ok(value)
    else PrepareSize(env, value, name)
  }

  /** None passes through, and a name no rule claims leaves the value as it
      is. */
  lemma PrepareUntouched(env: Astropy, value: Value, name: string)
    ensures value.NoneValue? ==> PrepareArgument(env, value, name) == Ok(NoneValue)
    ensures !CoordLike(name) && !RadiusLike(name) && !BoxLike(name) ==> PrepareArgument(env, value, name) == Ok(value)
  {
  }

  /** A coordinate-like string is resolved as a name, else parsed, else
      kept; it never raises. */
  lemma PrepareCoordString(env: Astropy, s: string, name: string)
    requires CoordLike(name)
    ensures var r := PrepareArgument(env, Str(s), name);
      r.Ok?
      && (env.fromName(s).Ok? ==> r.value == Sky(env.fromName(s).value))
      && (env.fromName(s).Err? && env.parseCoord(s).Ok? ==> r.value == Sky(env.parseCoord(s).value))
      && (env.fromName(s).Err? && env.parseCoord(s).Err? ==> r.value == Str(s))
  {
  }

  /** A coordinate-like dict with "ra" and "dec" becomes a sky coordinate in
      the given frame, "icrs" by default, even when the name is also
      radius-like: the coordinate rule comes first. */
  lemma PrepareCoordDict(env: Astropy, es: seq<(string, Value)>, name: string)
    requires CoordLike(name) && Get(es, "ra").Some? && Get(es, "dec").Some?
    ensures PrepareArgument(env, Dict(es), name)
      == env.skyFromParts(Get(es, "ra").value, Get(es, "dec").value, GetOr(es, "frame", Str("icrs")))
  {
    GetFinds(es, "ra");
    GetFinds(es, "dec");
  }

  /** Radius-like numbers are arcminutes; radius-like dicts read "value"
      (else "v", else 1) and "unit" (else "u", else arcmin), unknown units
      falling back to arcmin. */
  lemma PrepareRadius(env: Astropy, value: Value, name: string)
    requires RadiusLike(name)
    requires !(CoordLike(name) && value.Str?)
    requires !(CoordLike(name) && value.Dict? && HasKey(value.entries, "ra") && HasKey(value.entries, "dec"))
    ensures IntOrFloat(value) ==> PrepareArgument(env, value, name) == Ok(Quantity(AsDouble(value), "arcmin"))
    ensures value.Dict? ==>
      var es := value.entries;
      var val := if Get(es, "value").Some? then Get(es, "value").value else if Get(es, "v").Some? then Get(es, "v").value else Int(1);
      var unitStr := if Get(es, "unit").Some? then Get(es, "unit").value else if Get(es, "u").Some? then Get(es, "u").value else Str("arcmin");
      PrepareArgument(env, value, name)
        == if !unitStr.Str? then Err(Builtin(TypeError, "attribute name must be string, not '" + TypeName(unitStr) + "'"))
           else Times(env, val, env.unitNamed(unitStr.s).GetOr("arcmin"))
  {
  }

  /** A string none of whose possible starting positions holds the first
      character of `sub` does not contain `sub`. */
  lemma Absent(s: string, sub: string)
    requires |sub| > 0 && forall i :: 0 <= i <= |s| - |sub| ==> s[i] != sub[0]
    ensures !Contains(s, sub)
  {
    forall i | 0 <= i <= |s| - |sub|
      ensures !OccursAt(s, sub, i)
    {
      assert s[i..i + |sub|][0] == s[i];
    }
  }

  /** "width" and "height" take numbers as arcminutes and read only "value"
      and "unit" from a dict. */
  lemma PrepareBox(env: Astropy, value: Value, name: string)
    requires BoxLike(name)
    ensures IntOrFloat(value) ==> PrepareArgument(env, value, name) == Ok(Quantity(AsDouble(value), "arcmin"))
    ensures value.Dict? ==>
      var es := value.entries;
      var val := if Get(es, "value").Some? then Get(es, "value").value else Int(1);
      var unitStr := if Get(es, "unit").Some? then Get(es, "unit").value else Str("arcmin");
      PrepareArgument(env, value, name)
        == if !unitStr.Str? then Err(Builtin(TypeError, "attribute name must be string, not '" + TypeName(unitStr) + "'"))
           else Times(env, val, env.unitNamed(unitStr.s).GetOr("arcmin"))
  {
    var low := Lower(name);
    assert low[0] != 'c' && low[1] != 'c' && low[0] != 'r';
    Absent(low, "coord");
    Absent(low, "radius");
  }

  // ------------------------------------------------------------ results

  /** `[f(x) for x in xs]` over already computed outcomes: the first
      exception, in order, propagates. */
  function All(rs: seq<Outcome<Value>>, k: nat): (r: Outcome<seq<Value>>)
    requires k <= |rs|
    ensures r.Ok? ==> |r.value| == k
  {
    if k == 0 then Ok([])
    else
      var prev := All(rs, k - 1);
      if prev.Err? then prev
      else if rs[k - 1].Err? then Err(rs[k - 1].error)
      else Ok(prev.value + [rs[k - 1].value])
  }

  /** A comprehension succeeds exactly when every element does, and then
      holds their values in order. */
  lemma {:induction false} AllOk(rs: seq<Outcome<Value>>, k: nat)
    requires k <= |rs|
    ensures All(rs, k).Ok? <==> forall i :: 0 <= i < k ==> rs[i].Ok?
    ensures All(rs, k).Ok? ==> forall i :: 0 <= i < k ==> All(rs, k).value[i] == rs[i].value
  {
    if k > 0 {
      AllOk(rs, k - 1);
    }
  }

  /** A failed comprehension reports the first failing element. */
  lemma {:induction false} AllFails(rs: seq<Outcome<Value>>, k: nat, j: nat)
    requires j < k <= |rs| && rs[j].Err? && forall i :: 0 <= i < j ==> rs[i].Ok?
    ensures All(rs, k) == Err(rs[j].error)
  {
    if k - 1 > j {
      AllFails(rs, k - 1, j);
    } else {
      AllOk(rs, j);
    }
  }

  /** `table_to_dict(x)` on an element of a list that starts with a table:
      other objects lack `colnames`. */
  function TableDict(v: Value): Outcome<Value> {
    if v.Tbl? then Summary(Some(v.table))
    else if v.NoneValue? then Summary(None)
    else Err(Builtin(AttributeError, "'" + TypeName(v) + "' object has no attribute 'colnames'"))
  }

  /** The Python scalar an array element converts to. */
  function Native(v: Value): Value {
    match v
    case NpInt(i) => Int(i)
    case NpFloat(d) => Float(d)
    case NpBool(b) => Bool(b)
    case _ => v
  }

  /** `v.item()` for numpy scalars, arrays and the masked constant (whose
      underlying data is 0.0). */
  function Item(v: Value): Outcome<Value>
    requires HasItem(v) && !v.Quantity?
  {
    match v
    case NdArray(elems) =>
      if |elems| == 1 then Ok(Native(elems[0]))
      else Err(Builtin(ValueError, "can only convert an array of size 1 to a Python scalar"))
    case Masked => Ok(Float(Finite(0.0)))
    case _ => Ok(Native(v))
  }

  /** `serialize_result(result)` */
  function SerializeResult(v: Value): Outcome<Value>
    decreases v, 1
  {
    match v
    case NoneValue => Ok(NoneValue)
    case Tbl(t) => Summary(Some(t))
    case Sky(c) => Ok(Dict([("ra_deg", NpFloat(c.raDeg)), ("dec_deg", NpFloat(c.decDeg)), ("frame", Str(c.frame))]))
    case Quantity(m, unit) => Ok(Dict([("value", Float(m)), ("unit", Str(unit))]))
    case Dict(es) =>
      var d := Collect(Keys(es), Parts(v), |es|);
      if d.Err? then Err(d.error) else Ok(Dict(d.value))
    case List(items) =>
      var l := All(Parts(v), |items|);
      if l.Err? then Err(l.error) else Ok(List(l.value))
    case Bytes(bs) => Ok(Str(Utf8.Decode(bs)))
    case _ => if HasItem(v) then Item(v) else Ok(v)
  }

  /** The outcomes of the comprehension over a dict's values or a list's
      items; a list that starts with a table is read as a list of tables. */
  function Parts(v: Value): (rs: seq<Outcome<Value>>)
    requires v.Dict? || v.List?
    ensures v.Dict? ==> |rs| == |v.entries| && forall i :: 0 <= i < |rs| ==> rs[i] == SerializeResult(v.entries[i].1)
    ensures v.List? ==> |rs| == |v.items|
    ensures v.List? && !(|v.items| > 0 && v.items[0].Tbl?) ==>
      forall i :: 0 <= i < |rs| ==> rs[i] == SerializeResult(v.items[i])
    ensures v.List? && |v.items| > 0 && v.items[0].Tbl? ==>
      forall i :: 0 <= i < |rs| ==> rs[i] == TableDict(v.items[i])
    decreases v, 0
  {
    if v.Dict? then seq(|v.entries|, i requires 0 <= i < |v.entries| => SerializeResult(v.entries[i].1))
    else if |v.items| > 0 && v.items[0].Tbl? then seq(|v.items|, i requires 0 <= i < |v.items| => TableDict(v.items[i]))
    else seq(|v.items|, i requires 0 <= i < |v.items| => SerializeResult(v.items[i]))
  }

  /** The values JSON decoding produces (dicts with distinct keys). */
  predicate JsonLike(v: Value) {
    match v
    case NoneValue => true
    case Bool(_) => true
    case Int(_) => true
    case Float(_) => true
    case Str(_) => true
    case List(items) => forall i :: 0 <= i < |items| ==> JsonLike(items[i])
    case Dict(es) => UniqueKeys(es) && forall i :: 0 <= i < |es| ==> JsonLike(es[i].1)
    case _ => false
  }

  /** Serialising plain JSON data changes nothing: the result normaliser is
      the identity on its own target format. */
  lemma {:induction false} SerializeJson(v: Value)
    requires JsonLike(v)
    ensures SerializeResult(v) == Ok(v)
    decreases v
  {
    match v
    case List(items) =>
      var rs := Parts(v);
      forall i | 0 <= i < |items|
        ensures rs[i] == Ok(items[i])
      {
        SerializeJson(items[i]);
      }
      AllOk(rs, |items|);
      assert All(rs, |items|).value == items;
    case Dict(es) =>
      var rs := Parts(v);
      forall i | 0 <= i < |es|
        ensures rs[i] == Ok(es[i].1)
      {
        SerializeJson(es[i].1);
      }
      CollectSame(es, rs, |es|);
      assert es[..|es|] == es;
    case _ =>
  }

  /** Serialising a dict keeps its keys (in order) and serialises each
      value; any value that fails makes the whole call fail. */
  lemma SerializeDict(es: seq<(string, Value)>)
    requires UniqueKeys(es)
    ensures SerializeResult(Dict(es)).Ok? <==> forall i :: 0 <= i < |es| ==> SerializeResult(es[i].1).Ok?
    ensures SerializeResult(Dict(es)).Ok? ==> SerializeResult(Dict(es)).value.Dict?
    ensures SerializeResult(Dict(es)).Ok? ==> Keys(SerializeResult(Dict(es)).value.entries) == Keys(es)
    ensures SerializeResult(Dict(es)).Ok? ==> forall i :: 0 <= i < |es| ==>
      Get(SerializeResult(Dict(es)).value.entries, es[i].0) == Some(SerializeResult(es[i].1).value)
  {
    var rs := Parts(Dict(es));
    var keys := Keys(es);
    var d := Collect(keys, rs, |es|);
    if d.Ok? {
      CollectKeys(keys, rs, |es|);
      assert keys[..|es|] == keys;
      forall i | 0 <= i < |es|
        ensures rs[i].Ok? && Get(d.value, keys[i]) == Some(rs[i].value)
      {
        CollectValues(keys, rs, |es|, i);
      }
    } else {
      CollectAnyFails(keys, rs, |es|);
    }
  }

  /** A failed dict comprehension had a failing value. */
  lemma {:induction false} CollectAnyFails(keys: seq<string>, rs: seq<Outcome<Value>>, k: nat)
    requires k <= |keys| && k <= |rs| && Collect(keys, rs, k).Err?
    ensures exists j :: 0 <= j < k && rs[j].Err?
  {
    if k > 0 && Collect(keys, rs, k - 1).Err? {
      CollectAnyFails(keys, rs, k - 1);
    }
  }

  /** Serialising a list (not starting with a table) keeps its length and
      serialises each item, in order. */
  lemma SerializeList(items: seq<Value>)
    requires !(|items| > 0 && items[0].Tbl?)
    ensures SerializeResult(List(items)).Ok? <==> forall i :: 0 <= i < |items| ==> SerializeResult(items[i]).Ok?
    ensures SerializeResult(List(items)).Ok? ==> SerializeResult(List(items)).value.List?
    ensures SerializeResult(List(items)).Ok? ==> |SerializeResult(List(items)).value.items| == |items|
    ensures SerializeResult(List(items)).Ok? ==> forall i :: 0 <= i < |items| ==>
      SerializeResult(List(items)).value.items[i] == SerializeResult(items[i]).value
  {
    AllOk(Parts(List(items)), |items|);
  }

  /** A list that starts with a table is read as a list of tables: each
      element is summarised, None as the empty summary. */
  lemma SerializeTables(items: seq<Value>)
    requires |items| > 0 && items[0].Tbl?
    ensures SerializeResult(List(items)).Ok? ==> SerializeResult(List(items)).value.List?
    ensures SerializeResult(List(items)).Ok? ==> |SerializeResult(List(items)).value.items| == |items|
    ensures SerializeResult(List(items)).Ok? ==> forall i :: 0 <= i < |items| ==>
      Summary(if items[i].Tbl? then Some(items[i].table) else None) == Ok(SerializeResult(List(items)).value.items[i])
  {
    AllOk(Parts(List(items)), |items|);
  }

  /** In such a list, an element that is neither a table nor None raises
      AttributeError when everything before it was summarised. */
  lemma SerializeTablesFail(items: seq<Value>, j: nat)
    requires |items| > 0 && items[0].Tbl?
    requires j < |items| && !items[j].Tbl? && !items[j].NoneValue?
    requires forall i :: 0 <= i < j ==> TableDict(items[i]).Ok?
    ensures SerializeResult(List(items))
      == Err(Builtin(AttributeError, "'" + TypeName(items[j]) + "' object has no attribute 'colnames'"))
  {
    AllFails(Parts(List(items)), |items|, j);
  }

  /** Sky coordinates and quantities become small dicts; numpy scalars
      become Python scalars, and NaN is kept as NaN (unlike the table cell
      conversion, which maps it to None). */
  lemma SerializeScalars(c: SkyCoord, m: Double, unit: string, d: Double)
    ensures SerializeResult(Sky(c)).Ok? && Keys(SerializeResult(Sky(c)).value.entries) == ["ra_deg", "dec_deg", "frame"]
    ensures SerializeResult(Quantity(m, unit)) == Ok(Dict([("value", Float(m)), ("unit", Str(unit))]))
    ensures SerializeResult(NpFloat(d)) == Ok(Float(d))
  {
    assert SerializeResult(Sky(c)).Ok? && Keys(SerializeResult(Sky(c)).value.entries) == ["ra_deg", "dec_deg", "frame"];
    assert SerializeResult(Quantity(m, unit)) == Ok(Dict([("value", Float(m)), ("unit", Str(unit))]));
  }

  /** A length-1 array becomes its element; any other length is refused. */
  lemma SerializeArrays()
    ensures SerializeResult(NpFloat(NaN)) == Ok(Float(NaN)) && MakeSerializable(NpFloat(NaN)) == Ok(NoneValue)
    ensures SerializeResult(NdArray([NpInt(7)])) == Ok(Int(7))
    ensures SerializeResult(NdArray([])).Err?
  {
    MakeSerializableCases(NpFloat(NaN));
    assert SerializeResult(NdArray([NpInt(7)])) == Ok(Int(7));
  }

  // ------------------------------------------------------------ classes

  /** `ASTROQUERY_MODULES[name]` */
  function ModulePath(name: string): Option<string> {
    Get(Modules, name)
  }

  /** The configured module names are distinct. */
  lemma ModulesUnique()
    ensures UniqueKeys(Modules)
  {
    ModuleNamesDistinct();
  }

  /** The error for a module name missing from the module table. */
  function UnknownModule(name: string): MCPError {
    MCPError(Validation, "Unknown module: " + name, "executor", false,
      "Available modules: " + Join(", ", Keys(Modules)), [])
  }

  /** `get_class_instance(module_name)` without its cache: the configured
      class, or an error. An ImportError becomes a non-recoverable
      SERVICE_ERROR; any other failure propagates as it is. */
  function ClassInstance(resolve: Resolver, name: string): Outcome<ClassEntry> {
    var path := ModulePath(name);
    if path.None? then Err(Mcp(UnknownModule(name)))
    else match resolve(path.value)
      case Ok(c) => Ok(c)
      case Err(Builtin(ImportError, text)) =>
        Err(Mcp(MCPError(ServiceFailure, "Could not import " + name + ": " + text, "executor", false,
          "Check that astroquery is installed with required extras", [])))
      case Err(e) => Err(e)
  }

  /** A configured module resolves exactly when its class path imports,
      and only an import failure is turned into an MCPError. */
  lemma {:induction false} ClassInstanceConfigured(resolve: Resolver, j: nat)
    requires j < |Modules|
    ensures ClassInstance(resolve, Modules[j].0).Ok? <==> resolve(Modules[j].1).Ok?
    ensures resolve(Modules[j].1).Ok? ==> ClassInstance(resolve, Modules[j].0) == resolve(Modules[j].1)
    ensures resolve(Modules[j].1).Err? && !resolve(Modules[j].1).error.Mcp? && !resolve(Modules[j].1).error.cls.ImportError?
      ==> ClassInstance(resolve, Modules[j].0) == resolve(Modules[j].1)
  {
    ModulesUnique();
    GetAt(Modules, j);
  }

  /** An unconfigured name is a VALIDATION_ERROR naming every module. */
  lemma ClassInstanceUnknown(resolve: Resolver, name: string)
    requires forall j :: 0 <= j < |Modules| ==> Modules[j].0 != name
    ensures ClassInstance(resolve, name) == Err(Mcp(UnknownModule(name)))
    ensures UnknownModule(name).code == Validation && !UnknownModule(name).recoverable
  {
    GetFinds(Modules, name);
  }

  /** The cache after `get_class_instance(name)`: a successful lookup is
      stored. */
  function CacheAfter(resolve: Resolver, cache: map<string, ClassEntry>, name: string): map<string, ClassEntry> {
    var r := ClassInstance(resolve, name);
    if r.Ok? then cache[name := r.value] else cache
  }

  /** The cache after looking up `Modules[..k]` in order. */
  function CacheFill(resolve: Resolver, cache: map<string, ClassEntry>, k: nat): map<string, ClassEntry>
    requires k <= |Modules|
  {
    if k == 0 then cache else CacheAfter(resolve, CacheFill(resolve, cache, k - 1), Modules[k - 1].0)
  }

  /** `getattr(cls, name, None)`: the first member of that name. */
  function Attr(c: ClassEntry, name: string): (r: Lookup)
    ensures (forall i :: 0 <= i < |c.members| ==> c.members[i].name != name) ==> r.Missing?
    ensures !r.Missing? ==> exists i :: 0 <= i < |c.members| && c.members[i].name == name && c.members[i].lookup == r
  {
    AttrFrom(c.members, name)
  }

  function AttrFrom(ms: seq<Member>, name: string): (r: Lookup)
    ensures (forall i :: 0 <= i < |ms| ==> ms[i].name != name) ==> r.Missing?
    ensures !r.Missing? ==> exists i :: 0 <= i < |ms| && ms[i].name == name && ms[i].lookup == r
  {
    if |ms| == 0 then Missing
    else if ms[0].name == name then
      ms[0].lookup
    else
      var r := AttrFrom(ms[1..], name);
      assert !r.Missing? ==> exists i :: 0 <= i < |ms| && ms[i].name == name && ms[i].lookup == r by {
        if !r.Missing? {
          var i :| 0 <= i < |ms[1..]| && ms[1..][i].name == name && ms[1..][i].lookup == r;
          assert ms[i + 1] == ms[1..][i];
        }
      }
      r
  }

  // ------------------------------------------------------------ execution

  /** Calls a method of a module's class with keyword arguments: the remote
      query itself. */
  type Invoker = (string, string, seq<(string, Value)>) -> Outcome<Value>

  /** `prepared_params` after the loop over `ps[..k]`: each value
      prepared under its key, the first failure aborting. */
  function PrepareParams(env: Astropy, ps: seq<(string, Value)>, k: nat): Outcome<seq<(string, Value)>>
    requires k <= |ps|
  {
    if k == 0 then Ok([])
    else
      var prev := PrepareParams(env, ps, k - 1);
      if prev.Err? then prev
      else
        var a := PrepareArgument(env, ps[k - 1].1, ps[k - 1].0);
        if a.Err? then Err(a.error) else Ok(Set(prev.value, ps[k - 1].0, a.value))
  }

  /** Preparing parameters is the dict comprehension over the prepared
      values. */
  lemma {:induction false} PrepareParamsCollect(env: Astropy, ps: seq<(string, Value)>, rs: seq<Outcome<Value>>, k: nat)
    requires k <= |ps| == |rs|
    requires forall i :: 0 <= i < |ps| ==> rs[i] == PrepareArgument(env, ps[i].1, ps[i].0)
    ensures PrepareParams(env, ps, k) == Collect(Keys(ps), rs, k)
  {
    if k > 0 {
      PrepareParamsCollect(env, ps, rs, k - 1);
    }
  }

  /** With distinct keys, preparation keeps the keys in order and stores
      each prepared value under its key; it fails exactly when some value
      fails, and then with the first failure. */
  lemma PrepareParamsContents(env: Astropy, ps: seq<(string, Value)>)
    requires UniqueKeys(ps)
    ensures PrepareParams(env, ps, |ps|).Ok? <==> forall i :: 0 <= i < |ps| ==> PrepareArgument(env, ps[i].1, ps[i].0).Ok?
    ensures PrepareParams(env, ps, |ps|).Ok? ==> Keys(PrepareParams(env, ps, |ps|).value) == Keys(ps)
    ensures PrepareParams(env, ps, |ps|).Ok? ==> forall i :: 0 <= i < |ps| ==>
      Get(PrepareParams(env, ps, |ps|).value, ps[i].0) == Some(PrepareArgument(env, ps[i].1, ps[i].0).value)
    ensures forall j :: 0 <= j < |ps| && PrepareArgument(env, ps[j].1, ps[j].0).Err? ==>
      (forall i :: 0 <= i < j ==> PrepareArgument(env, ps[i].1, ps[i].0).Ok?) ==>
      PrepareParams(env, ps, |ps|) == Err(PrepareArgument(env, ps[j].1, ps[j].0).error)
  {
    var rs := seq(|ps|, i requires 0 <= i < |ps| => PrepareArgument(env, ps[i].1, ps[i].0));
    PrepareParamsCollect(env, ps, rs, |ps|);
    CollectContents(Keys(ps), rs);
  }

  /** The dict comprehension over distinct keys: it succeeds exactly when
      every value does, keeps the keys in order and stores each value under
      its key, and otherwise fails with the first failure. */
  lemma CollectContents(keys: seq<string>, rs: seq<Outcome<Value>>)
    requires |keys| == |rs|
    requires forall i, j :: 0 <= i < j < |keys| ==> keys[i] != keys[j]
    ensures Collect(keys, rs, |rs|).Ok? <==> forall i :: 0 <= i < |rs| ==> rs[i].Ok?
    ensures Collect(keys, rs, |rs|).Ok? ==> Keys(Collect(keys, rs, |rs|).value) == keys
    ensures Collect(keys, rs, |rs|).Ok? ==> forall i :: 0 <= i < |rs| ==>
      Get(Collect(keys, rs, |rs|).value, keys[i]) == Some(rs[i].value)
    ensures forall j :: 0 <= j < |rs| && rs[j].Err? && (forall i :: 0 <= i < j ==> rs[i].Ok?) ==>
      Collect(keys, rs, |rs|) == Err(rs[j].error)
  {
    var d := Collect(keys, rs, |rs|);
    forall j | 0 <= j < |rs| && rs[j].Err? && (forall i :: 0 <= i < j ==> rs[i].Ok?)
      ensures d == Err(rs[j].error)
    {
      CollectFirstFailure(keys, rs, j);
    }
    if d.Ok? {
      CollectKeys(keys, rs, |rs|);
      assert keys[..|rs|] == keys;
      forall i | 0 <= i < |rs|
        ensures rs[i].Ok? && Get(d.value, keys[i]) == Some(rs[i].value)
      {
        CollectValues(keys, rs, |rs|, i);
      }
    } else {
      CollectAnyFails(keys, rs, |rs|);
    }
  }

  lemma CollectFirstFailure(keys: seq<string>, rs: seq<Outcome<Value>>, j: nat)
    requires |keys| == |rs| && j < |rs| && rs[j].Err?
    requires forall i :: 0 <= i < j ==> rs[i].Ok?
    ensures Collect(keys, rs, |rs|) == Err(rs[j].error)
  {
    CollectPrefixOk(keys, rs, j);
    CollectFails(keys, rs, j + 1, |rs|);
  }

  /** `{k: str(v)[:100] for k, v in params.items()}` over `ps[..k]`. */
  function Truncated(ps: seq<(string, Value)>, k: nat): (d: seq<(string, Value)>)
    requires k <= |ps|
  {
    if k == 0 then [] else Set(Truncated(ps, k - 1), ps[k - 1].0, Str(Take(Show(ps[k - 1].1), 100)))
  }

  /** The logged copy holds exactly the parameter names, in order, each
      with at most the first 100 characters of `str()` of its value. */
  lemma {:induction false} TruncatedParams(ps: seq<(string, Value)>, k: nat)
    requires k <= |ps| && UniqueKeys(ps)
    ensures Keys(Truncated(ps, k)) == Keys(ps[..k])
    ensures forall i :: 0 <= i < k ==>
      Get(Truncated(ps, k), ps[i].0) == Some(Str(Take(Show(ps[i].1), 100)))
      && |Take(Show(ps[i].1), 100)| <= 100 && StartsWith(Show(ps[i].1), Take(Show(ps[i].1), 100))
  {
    if k > 0 {
      var prev := Truncated(ps, k - 1);
      var key := ps[k - 1].0;
      var v := Str(Take(Show(ps[k - 1].1), 100));
      TruncatedParams(ps, k - 1);
      HasKeyKeys(prev, key);
      assert !(key in Keys(ps[..k - 1]));
      SetKeys(prev, key, v);
      assert Keys(ps[..k]) == Keys(ps[..k - 1]) + [key];
      forall i | 0 <= i < k
        ensures Get(Truncated(ps, k), ps[i].0) == Some(Str(Take(Show(ps[i].1), 100)))
      {
        GetSet(prev, key, v, ps[i].0);
      }
    }
  }

  /** The success envelope. */
  function Envelope(moduleName: string, functionName: string, ps: seq<(string, Value)>, result: Value): Value {
    Dict([
      ("success", Bool(true)),
      ("module", Str(moduleName)),
      ("function", Str(functionName)),
      ("params", Dict(Truncated(ps, |ps|))),
      ("result", result)])
  }

  function FunctionNotFound(moduleName: string, functionName: string): MCPError {
    MCPError(Validation, "Function not found: " + moduleName + "." + functionName, "executor", false,
      "Use list_functions to see available functions", [])
  }

  /** The body of the `try` in `execute_function`, from the outcome of
      `get_class_instance` on. */
  function Attempt(cls: Outcome<ClassEntry>, env: Astropy, invoke: Invoker, moduleName: string, functionName: string,
                   ps: seq<(string, Value)>): Outcome<Value>
  {
    if cls.Err? then Err(cls.error)
    else match Attr(cls.value, functionName)
      case Missing => Err(Mcp(FunctionNotFound(moduleName, functionName)))
      case Raises(e) => Err(e)
      case Found(callable, typeName) =>
        var prepared := PrepareParams(env, ps, |ps|);
        if prepared.Err? then Err(prepared.error)
        else if !callable then Err(Builtin(TypeError, "'" + typeName + "' object is not callable"))
        else
          var result := invoke(moduleName, functionName, prepared.value);
          if result.Err? then Err(result.error)
          else
            var serialized := SerializeResult(result.value);
            if serialized.Err? then Err(serialized.error)
            else Ok(Envelope(moduleName, functionName, ps, serialized.value))
  }

  /** The `except` clauses of `execute_function`: MCPErrors pass through,
      a TypeError is blamed on the parameters (not recoverable, listing the
      parameter names), anything else on the service (recoverable, naming
      the function and the error). */
  function Classify(e: Exception, moduleName: string, functionName: string, ps: seq<(string, Value)>): (r: MCPError)
    ensures e.Mcp? ==> r == e.err
    ensures e.Builtin? && e.cls.TypeError? ==>
      r.code == Validation && !r.recoverable && r.service == "executor"
      && r.details == [("params", StrList(Keys(ps)))]
    ensures e.Builtin? && !e.cls.TypeError? ==>
      r.code == ServiceFailure && r.recoverable && r.service == moduleName
      && r.details == [("function", Str(functionName)), ("error", Str(e.text))]
  {
    match e
    case Mcp(err) => err
    case Builtin(TypeError, text) =>
      MCPError(Validation, "Invalid parameters for " + moduleName + "." + functionName + ": " + text, "executor", false,
        "Check parameter names and types using get_function_info",
        [("params", StrList(Keys(ps)))])
    case Builtin(_, text) =>
      MCPError(ServiceFailure, "Execution failed: " + text, moduleName, true, "Check parameters and try again",
        [("function", Str(functionName)), ("error", Str(text))])
  }

  /** `params or {}` */
  function ParamsOrEmpty(params: Option<seq<(string, Value)>>): seq<(string, Value)> {
    if params.Some? then params.value else []
  }

  /** `execute_function(module_name, function_name, params)` */
  function Execute(resolve: Resolver, env: Astropy, invoke: Invoker, moduleName: string, functionName: string,
                   params: Option<seq<(string, Value)>>): Outcome<Value>
  {
    var ps := ParamsOrEmpty(params);
    var a := Attempt(ClassInstance(resolve, moduleName), env, invoke, moduleName, functionName, ps);
    if a.Ok? then a else Err(Mcp(Classify(a.error, moduleName, functionName, ps)))
  }

  /** `execute_function` either returns an envelope marked successful or
      raises an MCPError: every other exception is classified. */
  lemma ExecuteOutcome(resolve: Resolver, env: Astropy, invoke: Invoker, moduleName: string, functionName: string,
                       params: Option<seq<(string, Value)>>)
    ensures var r := Execute(resolve, env, invoke, moduleName, functionName, params);
      (r.Ok? ==> r.value.Dict? && |r.value.entries| == 5 && r.value.entries[0] == ("success", Bool(true)))
      && (r.Err? ==> r.error.Mcp?)
  {
    var ps := ParamsOrEmpty(params);
    var cls := ClassInstance(resolve, moduleName);
    if Attempt(cls, env, invoke, moduleName, functionName, ps).Ok? {
      AttemptSucceeds(cls, env, invoke, moduleName, functionName, ps);
    }
  }

  /** A successful call echoes its parameters under "params": exactly the
      caller's parameter names, in order, each mapped to the first 100
      characters of `str()` of the value that was passed. */
  lemma ExecuteParams(resolve: Resolver, env: Astropy, invoke: Invoker, moduleName: string, functionName: string,
                      params: Option<seq<(string, Value)>>)
    requires UniqueKeys(ParamsOrEmpty(params))
    requires Execute(resolve, env, invoke, moduleName, functionName, params).Ok?
    ensures var ps := ParamsOrEmpty(params);
      var r := Execute(resolve, env, invoke, moduleName, functionName, params).value;
      r.Dict? && |r.entries| == 5 && r.entries[3].0 == "params" && r.entries[3].1.Dict?
      && Keys(r.entries[3].1.entries) == Keys(ps)
      && forall i :: 0 <= i < |ps| ==>
           Get(r.entries[3].1.entries, ps[i].0) == Some(Str(Take(Show(ps[i].1), 100)))
  {
    var ps := ParamsOrEmpty(params);
    var cls := ClassInstance(resolve, moduleName);
    AttemptSucceeds(cls, env, invoke, moduleName, functionName, ps);
    TruncatedParams(ps, |ps|);
    assert ps[..|ps|] == ps;
  }

  /** A successful call returns the envelope around the serialised result
      of calling the method with every parameter prepared. */
  lemma AttemptSucceeds(cls: Outcome<ClassEntry>, env: Astropy, invoke: Invoker, moduleName: string, functionName: string,
                        ps: seq<(string, Value)>)
    requires Attempt(cls, env, invoke, moduleName, functionName, ps).Ok?
    ensures var prepared := PrepareParams(env, ps, |ps|);
      cls.Ok? && Attr(cls.value, functionName).Found? && Attr(cls.value, functionName).isCallable
      && prepared.Ok?
      && invoke(moduleName, functionName, prepared.value).Ok?
      && Attempt(cls, env, invoke, moduleName, functionName, ps)
         == Ok(Envelope(moduleName, functionName, ps, SerializeResult(invoke(moduleName, functionName, prepared.value).value).value))
  {
  }

  /** An exception from the method propagates to the classification. */
  lemma AttemptMethodFails(cls: ClassEntry, env: Astropy, invoke: Invoker, moduleName: string, functionName: string,
                           ps: seq<(string, Value)>, prepared: seq<(string, Value)>, e: Exception)
    requires Attr(cls, functionName).Found? && Attr(cls, functionName).isCallable
    requires PrepareParams(env, ps, |ps|) == Ok(prepared)
    requires invoke(moduleName, functionName, prepared) == Err(e)
    ensures Attempt(Ok(cls), env, invoke, moduleName, functionName, ps) == Err(e)
  {
  }

  /** Before the first failing value, the collection succeeds. */
  lemma {:induction false} CollectPrefixOk(keys: seq<string>, rs: seq<Outcome<Value>>, j: nat)
    requires j <= |keys| && j <= |rs| && forall i :: 0 <= i < j ==> rs[i].Ok?
    ensures Collect(keys, rs, j).Ok?
  {
    if j > 0 {
      CollectPrefixOk(keys, rs, j - 1);
    }
  }

  /** A module outside the table and a missing method are reported as
      they were raised, not re-classified. */
  lemma ExecuteNotFound(resolve: Resolver, env: Astropy, invoke: Invoker, moduleName: string, functionName: string,
                        params: Option<seq<(string, Value)>>)
    ensures ModulePath(moduleName).None? ==>
      Execute(resolve, env, invoke, moduleName, functionName, params) == Err(Mcp(UnknownModule(moduleName)))
    ensures ClassInstance(resolve, moduleName).Ok? && Attr(ClassInstance(resolve, moduleName).value, functionName).Missing? ==>
      Execute(resolve, env, invoke, moduleName, functionName, params) == Err(Mcp(FunctionNotFound(moduleName, functionName)))
  {
  }

  /** The body of the `try` in `execute_function`, from the outcome of
      `get_class_instance` on: what it returns, or the exception it raises. */
  method TryExecute(cls: Outcome<ClassEntry>, env: Astropy, invoke: Invoker, moduleName: string, functionName: string,
                    ps: seq<(string, Value)>) returns (r: Outcome<Value>)
    ensures r == Attempt(cls, env, invoke, moduleName, functionName, ps)
  {
    if cls.Err? {
      return Err(cls.error);
    }
    var method_ := Attr(cls.value, functionName);
    if method_.Missing? {
      return Err(Mcp(FunctionNotFound(moduleName, functionName)));
    }
    if method_.Raises? {
      return Err(method_.error);
    }
    var prepared := PrepareAll(env, ps);
    if prepared.Err? {
      return Err(prepared.error);
    }
    if !method_.isCallable {
      return Err(Builtin(TypeError, "'" + method_.typeName + "' object is not callable"));
    }
    var result := invoke(moduleName, functionName, prepared.value);
    if result.Err? {
      return Err(result.error);
    }
    var serialized := SerializeResult(result.value);
    if serialized.Err? {
      return Err(serialized.error);
    }
    var shown := TruncateAll(ps);
    r := Ok(Dict([
      ("success", Bool(true)),
      ("module", Str(moduleName)),
      ("function", Str(functionName)),
      ("params", Dict(shown)),
      ("result", serialized.value)]));
  }

  /** The executor with its module-level class cache. */
  class Executor {
    const resolve: Resolver
    /** `_class_cache` */
    var cache: map<string, ClassEntry>

    /** Every cached class is the configured class of its module. */
    ghost predicate Valid()
      reads this
    {
      forall name | name in cache :: ClassInstance(resolve, name) == Ok(cache[name])
    }

    constructor(resolve: Resolver)
      ensures this.resolve == resolve && cache == map[] && Valid()
    {
      this.resolve := resolve;
      cache := map[];
    }

    /** `get_class_instance(module_name)` */
    method GetClassInstance(name: string) returns (r: Outcome<ClassEntry>)
      requires Valid()
      modifies this
      ensures Valid()
      ensures r == ClassInstance(resolve, name)
      ensures cache == CacheAfter(resolve, old(cache), name)
    {
      if name in cache {
        return Ok(cache[name]);
      }
      var path := ModulePath(name);
      if path.None? {
        return Err(Mcp(UnknownModule(name)));
      }
      var cls := resolve(path.value);
      if cls.Err? && cls.error.Builtin? && cls.error.cls.ImportError? {
        return Err(Mcp(MCPError(ServiceFailure, "Could not import " + name + ": " + cls.error.text, "executor", false,
          "Check that astroquery is installed with required extras", [])));
      }
      if cls.Err? {
        return cls;
      }
      cache := cache[name := cls.value];
      return cls;
    }

    /** `execute_function(module_name, function_name, params)` */
    method ExecuteFunction(env: Astropy, invoke: Invoker, moduleName: string, functionName: string,
                           params: Option<seq<(string, Value)>>) returns (r: Outcome<Value>)
      requires Valid()
      modifies this
      ensures Valid()
      ensures r == Execute(resolve, env, invoke, moduleName, functionName, params)
      ensures cache == CacheAfter(resolve, old(cache), moduleName)
    {
      var ps := if params.Some? then params.value else [];
      var cls := GetClassInstance(moduleName);
      var a := TryExecute(cls, env, invoke, moduleName, functionName, ps);
      if a.Err? {
        return Err(Mcp(Classify(a.error, moduleName, functionName, ps)));
      }
      return a;
    }

    /** `list_modules()`: every configured module, with whether its class
        can be loaded (which also fills the cache). */
    method ListModules() returns (r: Value)
      requires Valid()
      modifies this
      ensures Valid()
      ensures r == ModulesListing(resolve)
      ensures cache == CacheFill(resolve, old(cache), |Modules|)
    {
      var modules := Modules;
      var entries: seq<Value> := [];
      for k := 0 to |modules|
        invariant Valid()
        invariant entries == ModuleEntries(resolve, modules, k)
        invariant cache == CacheFill(resolve, old(cache), k)
      {
        var (name, path) := modules[k];
        var cls := GetClassInstance(name);
        entries := entries + [Dict([("name", Str(name)), ("class_path", Str(path)), ("available", Bool(cls.Ok?))])];
      }
      r := Dict([("module_count", Int(|entries|)), ("modules", List(entries))]);
    }
  }

  /** The loop of `execute_function` that prepares every parameter. */
  method PrepareAll(env: Astropy, ps: seq<(string, Value)>) returns (r: Outcome<seq<(string, Value)>>)
    ensures r == PrepareParams(env, ps, |ps|)
  {
    var prepared := [];
    for k := 0 to |ps|
      invariant PrepareParams(env, ps, k) == Ok(prepared)
    {
      var a := PrepareArgument(env, ps[k].1, ps[k].0);
      if a.Err? {
        PrepareParamsFails(env, ps, k + 1, |ps|);
        return Err(a.error);
      }
      prepared := Set(prepared, ps[k].0, a.value);
    }
    return Ok(prepared);
  }

  /** Once a parameter fails, the rest are not prepared. */
  lemma {:induction false} PrepareParamsFails(env: Astropy, ps: seq<(string, Value)>, k: nat, n: nat)
    requires 1 <= k <= n <= |ps| && PrepareParams(env, ps, k).Err?
    ensures PrepareParams(env, ps, n) == PrepareParams(env, ps, k)
    decreases n
  {
    if n > k {
      PrepareParamsFails(env, ps, k, n - 1);
    }
  }

  /** The loop building the logged copy of the parameters: for a dict's
      parameters, exactly their names, in order, each with the first 100
      characters of `str()` of its value. */
  method TruncateAll(ps: seq<(string, Value)>) returns (d: seq<(string, Value)>)
    ensures d == Truncated(ps, |ps|)
    ensures UniqueKeys(ps) ==> Keys(d) == Keys(ps)
    ensures UniqueKeys(ps) ==> forall i :: 0 <= i < |ps| ==> Get(d, ps[i].0) == Some(Str(Take(Show(ps[i].1), 100)))
  {
    d := [];
    for k := 0 to |ps|
      invariant d == Truncated(ps, k)
    {
      d := Set(d, ps[k].0, Str(Take(Show(ps[k].1), 100)));
    }
    if UniqueKeys(ps) {
      TruncatedParams(ps, |ps|);
      assert ps[..|ps|] == ps;
    }
  }

  /** The entries of `list_modules()` for `modules[..k]`. */
  function ModuleEntries(resolve: Resolver, modules: seq<(string, string)>, k: nat): (es: seq<Value>)
    requires k <= |modules|
    ensures |es| == k
  {
    if k == 0 then []
    else
      var (name, path) := modules[k - 1];
      ModuleEntries(resolve, modules, k - 1)
        + [Dict([("name", Str(name)), ("class_path", Str(path)), ("available", Bool(ClassInstance(resolve, name).Ok?))])]
  }

  function ModulesListing(resolve: Resolver): Value {
    Dict([("module_count", Int(|Modules|)), ("modules", List(ModuleEntries(resolve, Modules, |Modules|)))])
  }

  /** Entry `j` describes `modules[j]`. */
  lemma {:induction false} ModuleEntryAt(resolve: Resolver, modules: seq<(string, string)>, k: nat, j: nat)
    requires j < k <= |modules|
    ensures ModuleEntries(resolve, modules, k)[j]
      == Dict([("name", Str(modules[j].0)), ("class_path", Str(modules[j].1)), ("available", Bool(ClassInstance(resolve, modules[j].0).Ok?))])
  {
    if j < k - 1 {
      ModuleEntryAt(resolve, modules, k - 1, j);
    }
  }

  /** `list_modules()` lists every configured module in order, and one is
      available exactly when its class path imports. */
  lemma ModulesListed(resolve: Resolver, j: nat)
    requires j < |Modules|
    ensures ModulesListing(resolve).entries[1].1.items[j]
      == Dict([("name", Str(Modules[j].0)), ("class_path", Str(Modules[j].1)), ("available", Bool(resolve(Modules[j].1).Ok?))])
  {
    ModuleEntryAt(resolve, Modules, |Modules|, j);
    ClassInstanceConfigured(resolve, j);
  }

  // ------------------------------------------------------------ listings

  /** One parameter in a listing; `clip` cuts the shown default to 50
      characters, as `list_functions` does. */
  function ParamEntry(p: ParameterInfo, clip: bool): Value {
    var shown := Show(p.default);
    Dict([
      ("name", Str(p.name)),
      ("type", Str(p.typeHint)),
      ("required", Bool(!p.hasDefault)),
      ("default", if p.hasDefault then Str(if clip then Take(shown, 50) else shown) else NoneValue),
      ("description", Str(p.description))])
  }

  function ParamEntries(ps: seq<ParameterInfo>, clip: bool): (es: seq<Value>)
    ensures |es| == |ps| && forall i :: 0 <= i < |ps| ==> es[i] == ParamEntry(ps[i], clip)
  {
    seq(|ps|, i requires 0 <= i < |ps| => ParamEntry(ps[i], clip))
  }

  /** One function in `list_functions`. */
  function FunctionEntry(f: FunctionInfo): Value {
    Dict([
      ("name", Str(f.fullName)),
      ("module", Str(f.moduleName)),
      ("method", Str(f.methodName)),
      ("description", Str(Take(f.description, 200))),
      ("parameters", List(ParamEntries(f.parameters, true)))])
  }

  /** The functions `list_functions(module_name)` reports: those of the
      named module (None when it was not discovered), or all of them when
      the name is absent or empty. */
  function Selected(all: seq<(string, seq<FunctionInfo>)>, moduleName: Option<string>): Option<seq<FunctionInfo>> {
    if moduleName.Some? && moduleName.value != "" then Get(all, moduleName.value) else Some(Flatten(all))
  }

  function FunctionsListing(all: seq<(string, seq<FunctionInfo>)>, moduleName: Option<string>): Value {
    match Selected(all, moduleName)
    case None => Dict([("functions", List([])), ("error", Str("Module not found: " + moduleName.value))])
    case Some(funcs) =>
      Dict([
        ("function_count", Int(|funcs|)),
        ("functions", List(seq(|funcs|, i requires 0 <= i < |funcs| => FunctionEntry(funcs[i]))))])
  }

  lemma {:induction false} FlattenAppend(all: seq<(string, seq<FunctionInfo>)>, e: (string, seq<FunctionInfo>))
    ensures Flatten(all + [e]) == Flatten(all) + e.1
  {
    if |all| > 0 {
      assert (all + [e])[1..] == all[1..] + [e];
      FlattenAppend(all[1..], e);
    } else {
      assert [e][1..] == [];
    }
  }

  /** `list_functions(module_name)` */
  method ListFunctions(resolve: Resolver, moduleName: Option<string>) returns (r: Value)
    ensures r == FunctionsListing(Discover(resolve), moduleName)
  {
    var all := DiscoverAllFunctions(resolve);
    r := ListDiscovered(all, moduleName);
  }

  /** The body of `list_functions` after discovery. */
  method ListDiscovered(all: seq<(string, seq<FunctionInfo>)>, moduleName: Option<string>) returns (r: Value)
    ensures r == FunctionsListing(all, moduleName)
  {
    var funcs: seq<FunctionInfo>;
    if moduleName.Some? && moduleName.value != "" {
      var found := Get(all, moduleName.value);
      if found.None? {
        return Dict([("functions", List([])), ("error", Str("Module not found: " + moduleName.value))]);
      }
      funcs := found.value;
    } else {
      funcs := [];
      for k := 0 to |all|
        invariant funcs == Flatten(all[..k])
      {
        FlattenAppend(all[..k], all[k]);
        assert all[..k + 1] == all[..k] + [all[k]];
        funcs := funcs + all[k].1;
      }
      assert all[..|all|] == all;
    }
    var list: seq<Value> := [];
    for i := 0 to |funcs|
      invariant |list| == i && forall j :: 0 <= j < i ==> list[j] == FunctionEntry(funcs[j])
    {
      list := list + [FunctionEntry(funcs[i])];
    }
    assert list == seq(|funcs|, i requires 0 <= i < |funcs| => FunctionEntry(funcs[i]));
    r := Dict([("function_count", Int(|list|)), ("functions", List(list))]);
  }

  /** Every function listed under a module belongs to it and is named
      `<module>_<method>`. */
  predicate Stamped(all: seq<(string, seq<FunctionInfo>)>) {
    forall e | e in all :: forall f | f in e.1 :: f.moduleName == e.0 && f.fullName == FullName(e.0, f.methodName)
  }

  /** Introspection stamps the module name on everything it finds. */
  lemma ClassSpecModule(resolve: Resolver, name: string, classPath: string)
    ensures forall f | f in IntrospectClassSpec(resolve, name, classPath) :: f.moduleName == name && f.fullName == FullName(name, f.methodName)
  {
    if resolve(classPath).Ok? {
      var ms := resolve(classPath).value.members;
      IntrospectClassEmits(resolve, name, classPath);
      EmittedSelected(name, ClassName(classPath), ms[..FirstAbort(Stepper(name, ClassName(classPath)), ms)]);
    }
  }

  /** A module whose introspection found nothing does not appear in
      discovery. */
  lemma DiscoverOmitsEmpty(resolve: Resolver, name: string)
    requires forall j :: 0 <= j < |Modules| && Modules[j].0 == name ==> |IntrospectClassSpec(resolve, name, Modules[j].1)| == 0
    ensures forall e | e in Discover(resolve) :: e.0 != name
  {
    DiscoverEntries(resolve);
  }

  /** Discovery is stamped. */
  lemma DiscoverStamped(resolve: Resolver)
    ensures Stamped(Discover(resolve))
  {
    DiscoverEntries(resolve);
    forall j | 0 <= j < |Modules|
      ensures forall f | f in IntrospectClassSpec(resolve, Modules[j].0, Modules[j].1) ::
        f.moduleName == Modules[j].0 && f.fullName == FullName(Modules[j].0, f.methodName)
    {
      ClassSpecModule(resolve, Modules[j].0, Modules[j].1);
    }
  }

  /** Listing one module of a stamped discovery reports only that
      module's functions; a module absent from the discovery is reported
      as not found. */
  lemma ListFunctionsOfModule(all: seq<(string, seq<FunctionInfo>)>, name: string)
    requires name != "" && Stamped(all)
    ensures var r := FunctionsListing(all, Some(name));
      r.entries[0].0 == "function_count" ==>
        forall i :: 0 <= i < |r.entries[1].1.items| ==> r.entries[1].1.items[i].entries[1] == ("module", Str(name))
    ensures (forall e | e in all :: e.0 != name) ==>
      FunctionsListing(all, Some(name)) == Dict([("functions", List([])), ("error", Str("Module not found: " + name))])
  {
    GetFinds(all, name);
    if Get(all, name).Some? {
      var funcs := Get(all, name).value;
      var k :| 0 <= k < |all| && all[k] == (name, funcs);
      assert all[k] in all;
      forall i | 0 <= i < |funcs| ensures FunctionEntry(funcs[i]).entries[1] == ("module", Str(name)) {
        assert funcs[i] in funcs;
      }
    }
  }

  // ------------------------------------------------------------ one function

  function MethodNameOf(f: FunctionInfo): string {
    f.methodName
  }

  /** The full description of one function, as `get_function_info` gives
      it: the whole description and unclipped defaults. */
  function FunctionDetail(f: FunctionInfo): Value {
    Dict([
      ("name", Str(f.fullName)),
      ("module", Str(f.moduleName)),
      ("class", Str(f.className)),
      ("method", Str(f.methodName)),
      ("description", Str(f.description)),
      ("parameters", List(ParamEntries(f.parameters, false)))])
  }

  function FunctionInfoOf(all: seq<(string, seq<FunctionInfo>)>, moduleName: string, functionName: string): Value {
    match Get(all, moduleName)
    case None => Dict([("error", Str("Module not found: " + moduleName))])
    case Some(fs) =>
      match FirstWith(fs, MethodNameOf, functionName)
      case Some(f) => FunctionDetail(f)
      case None => Dict([("error", Str("Function not found: " + moduleName + "." + functionName))])
  }

  /** `get_function_info(module_name, function_name)` */
  method GetFunctionInfo(resolve: Resolver, moduleName: string, functionName: string) returns (r: Value)
    ensures r == FunctionInfoOf(Discover(resolve), moduleName, functionName)
  {
    var all := DiscoverAllFunctions(resolve);
    r := DescribeDiscovered(all, moduleName, functionName);
  }

  /** The body of `get_function_info` after discovery. */
  method DescribeDiscovered(all: seq<(string, seq<FunctionInfo>)>, moduleName: string, functionName: string) returns (r: Value)
    ensures r == FunctionInfoOf(all, moduleName, functionName)
  {
    var found := Get(all, moduleName);
    if found.None? {
      return Dict([("error", Str("Module not found: " + moduleName))]);
    }
    var fs: seq<FunctionInfo> := found.value;
    for i := 0 to |fs|
      invariant FirstWith(fs, MethodNameOf, functionName) == FirstWith(fs[i..], MethodNameOf, functionName)
    {
      if fs[i].methodName == functionName {
        return FunctionDetail(fs[i]);
      }
      assert fs[i..][1..] == fs[i + 1..];
    }
    return Dict([("error", Str("Function not found: " + moduleName + "." + functionName))]);
  }

  /** `get_function_info` finds a method exactly when `list_functions` for
      that module lists it, and then describes a function of that module
      with that method name. */
  lemma FunctionInfoListed(all: seq<(string, seq<FunctionInfo>)>, moduleName: string, functionName: string)
    requires moduleName != "" && Stamped(all)
    ensures var info := FunctionInfoOf(all, moduleName, functionName);
      var listed := Selected(all, Some(moduleName));
      (info.entries[0].0 != "error" <==> listed.Some? && exists f | f in listed.value :: f.methodName == functionName)
    ensures var info := FunctionInfoOf(all, moduleName, functionName);
      info.entries[0].0 != "error" ==>
        info.entries[1] == ("module", Str(moduleName)) && info.entries[3] == ("method", Str(functionName))
  {
    GetFinds(all, moduleName);
    if Get(all, moduleName).Some? {
      var funcs := Get(all, moduleName).value;
      var k :| 0 <= k < |all| && all[k] == (moduleName, funcs);
      assert all[k] in all;
    }
  }
}
