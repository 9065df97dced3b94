/**
 * The SIMBAD tools of `tools/simbad.py`: name resolution with its ordered
 * fallback to NED and Sesame, the region search (unit check, row limit,
 * records sorted by separation) and the object details that degrade to a
 * warning.
 *
 * The SIMBAD, NED and Sesame queries are parameters carrying their
 * outcomes. Building a SkyCoord from a row and `format_coordinates` are
 * astropy code: a parameter gives their outcome for the cells they read.
 */
module Simbad {
  import opened Wrappers
  import opened Strings
  import opened Py
  import opened Dicts
  import opened Errors
  import opened Exceptions
  import opened Config
  import opened ToolCommon
  import opened TableUtils
  import opened CoordUtils
  import opened Archive

  // ---------------------------------------------------------------- stable sort

  /** A sort key: a finite number, or `float("inf")`. */
  datatype SortKey = At(r: real) | Infinity

  predicate KeyLess(a: SortKey, b: SortKey) {
    a.At? && (b.Infinity? || a.r < b.r)
  }

  predicate SortedBy<T>(s: seq<T>, key: T -> SortKey) {
    forall i, j :: 0 <= i < j < |s| ==> !KeyLess(key(s[j]), key(s[i]))
  }

  /** `x` placed before the first element whose key is larger than its own. */
  function InsertByKey<T>(x: T, s: seq<T>, key: T -> SortKey): (r: seq<T>)
    ensures |r| == |s| + 1
  {
    if |s| == 0 then [x]
    else if KeyLess(key(x), key(s[0])) then [x] + s
    else [s[0]] + InsertByKey(x, s[1..], key)
  }

  lemma {:induction false} InsertPermutes<T>(x: T, s: seq<T>, key: T -> SortKey)
    ensures multiset(InsertByKey(x, s, key)) == multiset(s) + multiset{x}
  {
    if |s| > 0 && !KeyLess(key(x), key(s[0])) {
      InsertPermutes(x, s[1..], key);
      assert s == [s[0]] + s[1..];
    }
  }

  /** `sorted(s, key=key)`: a stable insertion sort, taking the elements in
      order. */
  function SortByKey<T>(s: seq<T>, key: T -> SortKey): (r: seq<T>)
    ensures |r| == |s|
  {
    if |s| == 0 then []
    else InsertByKey(s[|s| - 1], SortByKey(s[..|s| - 1], key), key)
  }

  lemma {:induction false} SortPermutes<T>(s: seq<T>, key: T -> SortKey)
    ensures multiset(SortByKey(s, key)) == multiset(s)
  {
    if |s| > 0 {
      var init := s[..|s| - 1];
      SortPermutes(init, key);
      InsertPermutes(s[|s| - 1], SortByKey(init, key), key);
      assert s == init + [s[|s| - 1]];
    }
  }

  /** The elements whose key is `k`, in order. */
  function WithKey<T>(s: seq<T>, key: T -> SortKey, k: SortKey): seq<T> {
    if |s| == 0 then []
    else (if key(s[0]) == k then [s[0]] else []) + WithKey(s[1..], key, k)
  }

  lemma {:induction false} WithKeyAppend<T>(a: seq<T>, b: seq<T>, key: T -> SortKey, k: SortKey)
    ensures WithKey(a + b, key, k) == WithKey(a, key, k) + WithKey(b, key, k)
  {
    if |a| == 0 {
      assert a + b == b;
    } else {
      assert (a + b)[1..] == a[1..] + b;
      WithKeyAppend(a[1..], b, key, k);
    }
  }

  lemma WithKeyCons<T>(x: T, s: seq<T>, key: T -> SortKey, k: SortKey)
    ensures WithKey([x] + s, key, k) == (if key(x) == k then [x] else []) + WithKey(s, key, k)
  {
    assert ([x] + s)[1..] == s;
  }

  lemma SortedTail<T>(s: seq<T>, key: T -> SortKey)
    requires SortedBy(s, key) && |s| > 0
    ensures SortedBy(s[1..], key)
  {
    forall i, j | 0 <= i < j < |s| - 1 ensures !KeyLess(key(s[1..][j]), key(s[1..][i])) {
      assert s[1..][i] == s[i + 1] && s[1..][j] == s[j + 1];
    }
  }

  /** In a sorted sequence starting above `k`, nothing has key `k`. */
  lemma {:induction false} WithKeyAbove<T>(s: seq<T>, key: T -> SortKey, k: SortKey)
    requires SortedBy(s, key) && |s| > 0 && KeyLess(k, key(s[0]))
    ensures WithKey(s, key, k) == []
  {
    if |s| > 1 {
      assert !KeyLess(key(s[1]), key(s[0]));
      WithKeyAbove(s[1..], key, k);
    }
  }

  /** No element's key is below `k`. */
  predicate NoneBelow<T>(s: seq<T>, key: T -> SortKey, k: SortKey) {
    forall i :: 0 <= i < |s| ==> !KeyLess(key(s[i]), k)
  }

  lemma {:induction false} InsertNoneBelow<T>(x: T, s: seq<T>, key: T -> SortKey, k: SortKey)
    requires NoneBelow(s, key, k) && !KeyLess(key(x), k)
    ensures NoneBelow(InsertByKey(x, s, key), key, k)
  {
    if |s| > 0 && !KeyLess(key(x), key(s[0])) {
      assert NoneBelow(s[1..], key, k) by {
        forall i | 0 <= i < |s[1..]| ensures !KeyLess(key(s[1..][i]), k) {
          assert s[1..][i] == s[i + 1];
        }
      }
      InsertNoneBelow(x, s[1..], key, k);
    }
  }

  /** Inserting into a sorted sequence keeps it sorted. */
  lemma {:induction false} InsertSorted<T>(x: T, s: seq<T>, key: T -> SortKey)
    requires SortedBy(s, key)
    ensures SortedBy(InsertByKey(x, s, key), key)
  {
    var r := InsertByKey(x, s, key);
    if |s| == 0 {
    } else if KeyLess(key(x), key(s[0])) {
      assert r == [x] + s;
      forall i, j | 0 <= i < j < |r| ensures !KeyLess(key(r[j]), key(r[i])) {
        if i == 0 {
          assert r[j] == s[j - 1];
          assert !KeyLess(key(s[j - 1]), key(s[0]));
        } else {
          assert r[i] == s[i - 1] && r[j] == s[j - 1];
        }
      }
    } else {
      var tail := s[1..];
      assert SortedBy(tail, key) by {
        forall i, j | 0 <= i < j < |tail| ensures !KeyLess(key(tail[j]), key(tail[i])) {
          assert tail[i] == s[i + 1] && tail[j] == s[j + 1];
        }
      }
      assert NoneBelow(tail, key, key(s[0])) by {
        forall i | 0 <= i < |tail| ensures !KeyLess(key(tail[i]), key(s[0])) {
          assert tail[i] == s[i + 1];
        }
      }
      var rest := InsertByKey(x, tail, key);
      InsertSorted(x, tail, key);
      InsertNoneBelow(x, tail, key, key(s[0]));
      assert r == [s[0]] + rest;
      forall i, j | 0 <= i < j < |r| ensures !KeyLess(key(r[j]), key(r[i])) {
        if i == 0 {
          assert r[j] == rest[j - 1];
        } else {
          assert r[i] == rest[i - 1] && r[j] == rest[j - 1];
        }
      }
    }
  }

  /** Inserting into a sorted sequence puts the new element after every
      element with the same key. */
  lemma {:induction false} InsertWithKey<T>(x: T, s: seq<T>, key: T -> SortKey, k: SortKey)
    requires SortedBy(s, key)
    ensures WithKey(InsertByKey(x, s, key), key, k) == WithKey(s, key, k) + (if key(x) == k then [x] else [])
  {
    var r := InsertByKey(x, s, key);
    var last: seq<T> := if key(x) == k then [x] else [];
    if |s| == 0 {
      assert WithKey(r, key, k) == last + WithKey(r[1..], key, k);
    } else if KeyLess(key(x), key(s[0])) {
      assert r[0] == x && r[1..] == s;
      assert WithKey(r, key, k) == last + WithKey(s, key, k);
      if key(x) == k {
        WithKeyAbove(s, key, k);
      }
    } else {
      SortedTail(s, key);
      InsertWithKey(x, s[1..], key, k);
      InsertPastHead(x, s, key, k);
    }
  }

  /** The step of `InsertWithKey` where `x` goes past the first element. */
  lemma InsertPastHead<T>(x: T, s: seq<T>, key: T -> SortKey, k: SortKey)
    requires |s| > 0 && !KeyLess(key(x), key(s[0]))
    requires WithKey(InsertByKey(x, s[1..], key), key, k) == WithKey(s[1..], key, k) + (if key(x) == k then [x] else [])
    ensures WithKey(InsertByKey(x, s, key), key, k) == WithKey(s, key, k) + (if key(x) == k then [x] else [])
  {
    var tail, rest := s[1..], InsertByKey(x, s[1..], key);
    assert InsertByKey(x, s, key) == [s[0]] + rest;
    WithKeyCons(s[0], rest, key, k);
    assert s == [s[0]] + tail;
    WithKeyCons(s[0], tail, key, k);
  }

  /** The sort keeps the order of the elements of each key. */
  lemma {:induction false} SortByKeyStable<T>(s: seq<T>, key: T -> SortKey, k: SortKey)
    ensures SortedBy(SortByKey(s, key), key)
    ensures WithKey(SortByKey(s, key), key, k) == WithKey(s, key, k)
  {
    if |s| > 0 {
      var init, x := s[..|s| - 1], s[|s| - 1];
      SortByKeyStable(init, key, k);
      InsertSorted(x, SortByKey(init, key), key);
      InsertWithKey(x, SortByKey(init, key), key, k);
      assert s == init + [x];
      WithKeyAppend(init, [x], key, k);
    }
  }

  /** The sort gives a sorted permutation that keeps the order of the
      elements of each key: it is stable. */
  lemma SortByKeySpec<T>(s: seq<T>, key: T -> SortKey)
    ensures SortedBy(SortByKey(s, key), key)
    ensures multiset(SortByKey(s, key)) == multiset(s)
    ensures forall k :: WithKey(SortByKey(s, key), key, k) == WithKey(s, key, k)
  {
    SortByKeyStable(s, key, Infinity);
    SortPermutes(s, key);
    forall k ensures WithKey(SortByKey(s, key), key, k) == WithKey(s, key, k) {
      SortByKeyStable(s, key, k);
    }
  }

  // ---------------------------------------------------------------- query_region

  const RadiusUnits: seq<string> := ["arcmin", "arcsec", "deg"]

  /** The region query sent to SIMBAD: the centre, the radius as a quantity
      and the row limit set on the SIMBAD instance. */
  datatype RegionRequest = RegionRequest(center: SkyCoord, radius: Value, rowLimit: int)

  /** The row limit is the smaller of the caller's limit and the configured
      one. */
  function RegionQuery(cfg: ServiceConfig, ra: Double, dec: Double, radius: Double, unit: string, limit: int): (q: RegionRequest)
    ensures q.rowLimit <= limit && q.rowLimit <= cfg.simbad.rowLimit
    ensures q.rowLimit == limit || q.rowLimit == cfg.simbad.rowLimit
    ensures q.radius == Quantity(radius, unit) && q.center == SkyCoord(ra, dec, "icrs")
  {
    RegionRequest(SkyCoord(ra, dec, "icrs"), Quantity(radius, unit),
      if limit < cfg.simbad.rowLimit then limit else cfg.simbad.rowLimit)
  }

  function BadUnit(unit: string): MCPError {
    MCPError(Validation, "Invalid radius unit: " + unit, "simbad", false, "Use 'arcmin', 'arcsec', or 'deg'",
      [("radius_unit", Str(unit))])
  }

  /** The query echoed in the reply. */
  function RegionEcho(ra: Double, dec: Double, radius: Double, unit: string): Value {
    Dict([("ra", Float(ra)), ("dec", Float(dec)), ("radius", Float(radius)), ("unit", Str(unit))])
  }

  /** A record's position parsed from its RA (hours) and DEC (degrees)
      cells, and its separation from the centre of the search in arcmin. */
  datatype Placement = Placement(raDeg: Double, decDeg: Double, separation: Double)

  /** The cell of `c`, which the row has. */
  function CellOf(row: Row, c: string): Value {
    Get(row, c).GetOr(NoneValue)
  }

  /** A record with its parsed position added. `place` gives the position
      for the record's RA and DEC cells, or None where astropy cannot parse
      them (the record is then left as it is). */
  function Enhanced(rec: Value, place: (Value, Value) -> Option<Placement>): Value {
    if rec.Dict? && HasKey(rec.entries, "RA") && HasKey(rec.entries, "DEC") then
      match place(CellOf(rec.entries, "RA"), CellOf(rec.entries, "DEC"))
      case None => rec
      case Some(p) =>
        Dict(Set(Set(Set(rec.entries, "ra_deg", Float(p.raDeg)), "dec_deg", Float(p.decDeg)),
          "separation_arcmin", Float(p.separation)))
    else rec
  }

  /** Enhancing adds the three position keys and changes nothing else; the
      separation becomes the record's sort key. */
  lemma EnhancedEntries(rec: Value, place: (Value, Value) -> Option<Placement>, k: string)
    requires rec.Dict?
    ensures Enhanced(rec, place).Dict?
    ensures k != "ra_deg" && k != "dec_deg" && k != "separation_arcmin" ==>
      Get(Enhanced(rec, place).entries, k) == Get(rec.entries, k)
    ensures (HasKey(rec.entries, "RA") && HasKey(rec.entries, "DEC")
             && place(CellOf(rec.entries, "RA"), CellOf(rec.entries, "DEC")).Some?) ==>
      var p := place(CellOf(rec.entries, "RA"), CellOf(rec.entries, "DEC")).value;
      Get(Enhanced(rec, place).entries, "separation_arcmin") == Some(Float(p.separation))
      && (p.separation.Finite? ==> RecordKey(Enhanced(rec, place)) == At(p.separation.r))
    ensures !(HasKey(rec.entries, "RA") && HasKey(rec.entries, "DEC")) ==> Enhanced(rec, place) == rec
  {
    if HasKey(rec.entries, "RA") && HasKey(rec.entries, "DEC") {
      var cell := place(CellOf(rec.entries, "RA"), CellOf(rec.entries, "DEC"));
      if cell.Some? {
        var p := cell.value;
        var e1 := Set(rec.entries, "ra_deg", Float(p.raDeg));
        var e2 := Set(e1, "dec_deg", Float(p.decDeg));
        GetSet(rec.entries, "ra_deg", Float(p.raDeg), k);
        GetSet(e1, "dec_deg", Float(p.decDeg), k);
        GetSet(e2, "separation_arcmin", Float(p.separation), k);
        GetSet(e2, "separation_arcmin", Float(p.separation), "separation_arcmin");
      }
    }
  }

  /** The enhancement as a record tagging: the loop over the records is
      `TagRecords` with this tag. */
  function Enhancer(place: (Value, Value) -> Option<Placement>): Value -> Value {
    rec => Enhanced(rec, place)
  }

  /** `x.get("separation_arcmin", float("inf"))`. */
  function RecordKey(rec: Value): SortKey {
    if rec.Dict? then
      match Get(rec.entries, "separation_arcmin")
      case Some(v) => if v.Float? && v.d.Finite? then At(v.d.r) else Infinity
      case None => Infinity
    else Infinity
  }

  /** `query_region(ra, dec, radius, radius_unit, limit)`: `run` gives the
      outcome of the SIMBAD region query, `place` the parsed position of a
      record. */
  function QueryRegion(cfg: ServiceConfig, ra: Double, dec: Double, radius: Double, unit: string, limit: int,
                       run: RegionRequest -> Outcome<Option<Table>>, place: (Value, Value) -> Option<Placement>): Outcome<Value> {
    match ValidateCoordinates(ra, dec)
    case Err(e) => Err(e)
    case Ok(_) =>
      if unit !in RadiusUnits then Err(Mcp(BadUnit(unit)))
      else
        var fail := (e: Exception) => Rewrap(e, "SIMBAD region query failed: ", "simbad", "Try again with a smaller radius",
                                             [("ra", Float(ra)), ("dec", Float(dec)), ("radius", Float(radius))]);
        match run(RegionQuery(cfg, ra, dec, radius, unit, limit))
        case Err(e) => Err(fail(e))
        case Ok(result) =>
          if NoRows(result) then Ok(Found("simbad", RegionEcho(ra, dec, radius, unit), []))
          else match Records(result)
            case Err(e) => Err(fail(e))
            case Ok(records) =>
              Ok(Found("simbad", RegionEcho(ra, dec, radius, unit), SortByKey(Tagged(records, Enhancer(place)), RecordKey)))
  }

  /** The coordinates are checked first and then the unit; neither failure
      sends a query. */
  lemma RegionValidation(cfg: ServiceConfig, ra: Double, dec: Double, radius: Double, unit: string, limit: int,
                         run: RegionRequest -> Outcome<Option<Table>>, run': RegionRequest -> Outcome<Option<Table>>,
                         place: (Value, Value) -> Option<Placement>)
    ensures ValidateCoordinates(ra, dec).Err? ==>
      QueryRegion(cfg, ra, dec, radius, unit, limit, run, place) == Err(ValidateCoordinates(ra, dec).error)
    ensures ValidateCoordinates(ra, dec).Ok? && unit !in RadiusUnits ==>
      var r := QueryRegion(cfg, ra, dec, radius, unit, limit, run, place);
      r == Err(Mcp(BadUnit(unit))) && r.error.err.code == Validation && !r.error.err.recoverable
      && r.error.err.details == [("radius_unit", Str(unit))]
    ensures ValidateCoordinates(ra, dec).Err? || unit !in RadiusUnits ==>
      QueryRegion(cfg, ra, dec, radius, unit, limit, run, place) == QueryRegion(cfg, ra, dec, radius, unit, limit, run', place)
  {
  }

  /** A non-empty result: every record, with its position added, sorted by
      separation with the records lacking one last, and records of equal
      separation kept in table order. */
  lemma RegionSorted(cfg: ServiceConfig, ra: Double, dec: Double, radius: Double, unit: string, limit: int,
                     run: RegionRequest -> Outcome<Option<Table>>, place: (Value, Value) -> Option<Placement>,
                     t: Table, records: seq<Value>)
    requires ValidateCoordinates(ra, dec).Ok? && unit in RadiusUnits
    requires run(RegionQuery(cfg, ra, dec, radius, unit, limit)) == Ok(Some(t)) && NRows(t) > 0
    requires Records(Some(t)) == Ok(records)
    ensures var r := QueryRegion(cfg, ra, dec, radius, unit, limit, run, place);
      r.Ok? && r.value.Dict? && Get(r.value.entries, "total_count") == Some(Int(|records|))
      && Get(r.value.entries, "data").Some? && Get(r.value.entries, "data").value.List?
      && var data := Get(r.value.entries, "data").value.items;
        SortedBy(data, RecordKey)
        && multiset(data) == multiset(Tagged(records, Enhancer(place)))
        && forall k :: WithKey(data, RecordKey, k) == WithKey(Tagged(records, Enhancer(place)), RecordKey, k)
  {
    SortByKeySpec(Tagged(records, Enhancer(place)), RecordKey);
  }

  // ---------------------------------------------------------------- fallback resolvers

  /** One entry of `tried_resolvers`: the resolver and its error text. */
  function Tried(resolver: string, e: Exception): Value {
    List([Str(resolver), Str(ExceptionText(e))])
  }

  function NotFoundAnywhere(name: string, tried: seq<Value>): MCPError {
    MCPError(ObjectNotFound, "Object '" + name + "' not found in any resolver", "simbad", false,
      "Check the object name or provide coordinates directly",
      [("name", Str(name)), ("tried_resolvers", List(tried))])
  }

  /** The fallback loop from position `i` of the order, with the failures
      so far. `attempt` gives the outcome of a resolver the loop knows, and
      None for the others, which it passes over. */
  function Fallback(name: string, order: seq<string>, attempt: string -> Option<Outcome<Value>>,
                    i: nat, tried: seq<Value>): Outcome<Value>
    requires i <= |order|
    decreases |order| - i
  {
    if i == |order| then Err(Mcp(NotFoundAnywhere(name, tried)))
    else if order[i] == "simbad" then Fallback(name, order, attempt, i + 1, tried)
    else match attempt(order[i])
      case None => Fallback(name, order, attempt, i + 1, tried)
      case Some(Ok(v)) => Ok(v)
      case Some(Err(e)) => Fallback(name, order, attempt, i + 1, tried + [Tried(order[i], e)])
  }

  /** `_resolve_with_fallback(name, fallback_order)` */
  method ResolveWithFallback(name: string, order: seq<string>, attempt: string -> Option<Outcome<Value>>)
    returns (r: Outcome<Value>)
    ensures r == Fallback(name, order, attempt, 0, [])
  {
    var tried: seq<Value> := [];
    var i := 0;
    while i < |order|
      invariant i <= |order|
      invariant Fallback(name, order, attempt, 0, []) == Fallback(name, order, attempt, i, tried)
    {
      var resolver := order[i];
      if resolver != "simbad" {
        var a := attempt(resolver);
        if a.Some? {
          if a.value.Ok? {
            return a.value;
          }
          tried := tried + [Tried(resolver, a.value.error)];
        }
      }
      i := i + 1;
    }
    r := Err(Mcp(NotFoundAnywhere(name, tried)));
  }

  /** A resolver the loop tries: not "simbad", and one it knows. */
  predicate Tries(resolver: string, attempt: string -> Option<Outcome<Value>>) {
    resolver != "simbad" && attempt(resolver).Some?
  }

  predicate Succeeds(resolver: string, attempt: string -> Option<Outcome<Value>>) {
    Tries(resolver, attempt) && attempt(resolver).value.Ok?
  }

  /** The failures of the resolvers tried from position `i` on, in order. */
  function Failures(order: seq<string>, attempt: string -> Option<Outcome<Value>>, i: nat): seq<Value>
    requires i <= |order|
    decreases |order| - i
  {
    if i == |order| then []
    else if Tries(order[i], attempt) && attempt(order[i]).value.Err? then
      [Tried(order[i], attempt(order[i]).value.error)] + Failures(order, attempt, i + 1)
    else Failures(order, attempt, i + 1)
  }

  /** The first resolver that succeeds gives the answer. */
  lemma {:induction false} FallbackFirst(name: string, order: seq<string>, attempt: string -> Option<Outcome<Value>>,
                                         i: nat, tried: seq<Value>, k: nat)
    requires i <= k < |order| && Succeeds(order[k], attempt)
    requires forall j :: i <= j < k ==> !Succeeds(order[j], attempt)
    ensures Fallback(name, order, attempt, i, tried) == attempt(order[k]).value
    decreases k - i
  {
    if i < k {
      assert !Succeeds(order[i], attempt);
      match attempt(order[i])
      case None =>
        FallbackFirst(name, order, attempt, i + 1, tried, k);
      case Some(o) =>
        if order[i] == "simbad" {
          FallbackFirst(name, order, attempt, i + 1, tried, k);
        } else {
          FallbackFirst(name, order, attempt, i + 1, tried + [Tried(order[i], o.error)], k);
        }
    }
  }

  /** When no resolver succeeds the error is OBJECT_NOT_FOUND, not
      recoverable, listing every failure in order. */
  lemma {:induction false} FallbackExhausted(name: string, order: seq<string>, attempt: string -> Option<Outcome<Value>>,
                                             i: nat, tried: seq<Value>)
    requires i <= |order|
    requires forall j :: i <= j < |order| ==> !Succeeds(order[j], attempt)
    ensures Fallback(name, order, attempt, i, tried) == Err(Mcp(NotFoundAnywhere(name, tried + Failures(order, attempt, i))))
    decreases |order| - i
  {
    if i == |order| {
      assert tried + [] == tried;
    } else {
      assert !Succeeds(order[i], attempt);
      if Tries(order[i], attempt) {
        var f := [Tried(order[i], attempt(order[i]).value.error)];
        FallbackExhausted(name, order, attempt, i + 1, tried + f);
        assert tried + f + Failures(order, attempt, i + 1) == tried + (f + Failures(order, attempt, i + 1));
      } else {
        FallbackExhausted(name, order, attempt, i + 1, tried);
      }
    }
  }

  /** The resolvers `_resolve_with_fallback` knows. */
  function Attempt(resolver: string, ned: Outcome<Value>, sesame: Outcome<Value>): Option<Outcome<Value>> {
    if resolver == "ned" then Some(ned)
    else if resolver == "vizier" then Some(sesame)
    else None
  }

  function Attempts(ned: Outcome<Value>, sesame: Outcome<Value>): string -> Option<Outcome<Value>> {
    res => Attempt(res, ned, sesame)
  }

  /** The configured default order: NED, then Sesame. */
  lemma DefaultFallback(name: string, ned: Outcome<Value>, sesame: Outcome<Value>)
    ensures var r := Fallback(name, ["simbad", "ned", "vizier"], Attempts(ned, sesame), 0, []);
      (ned.Ok? ==> r == ned)
      && (ned.Err? && sesame.Ok? ==> r == sesame)
      && (ned.Err? && sesame.Err? ==>
            r == Err(Mcp(NotFoundAnywhere(name, [Tried("ned", ned.error), Tried("vizier", sesame.error)]))))
  {
    var order := ["simbad", "ned", "vizier"];
    var attempt := Attempts(ned, sesame);
    assert order[0] == "simbad" && order[1] == "ned" && order[2] == "vizier";
    assert attempt("ned") == Some(ned) && attempt("vizier") == Some(sesame);
    assert Fallback(name, order, attempt, 0, []) == Fallback(name, order, attempt, 1, []);
    if ned.Err? {
      var tried := [Tried("ned", ned.error)];
      assert [] + tried == tried;
      assert Fallback(name, order, attempt, 1, []) == Fallback(name, order, attempt, 2, tried);
      if sesame.Err? {
        assert Fallback(name, order, attempt, 2, tried) == Fallback(name, order, attempt, 3, tried + [Tried("vizier", sesame.error)]);
        assert tried + [Tried("vizier", sesame.error)] == [Tried("ned", ned.error), Tried("vizier", sesame.error)];
      }
    }
  }

  /** `_resolve_with_ned(name)`: `result` is the outcome of the NED query,
      `coordOf` the coordinates built from the RA and DEC cells in degrees,
      `fmt` is `format_coordinates`. */
  function NedResolve(name: string, result: Outcome<Option<Table>>, coordOf: (Value, Value) -> Outcome<SkyCoord>,
                      fmt: SkyCoord -> Value): (r: Outcome<Value>)
    ensures result.Ok? && NoRows(result.value) ==>
      r.Err? && r.error.Mcp? && r.error.err.code == ObjectNotFound && !r.error.err.recoverable
      && r.error.err.service == "ned" && r.error.err.details == [("name", Str(name))]
    ensures r.Ok? ==>
      r.value.Dict? && Keys(r.value.entries) == ["name", "main_id", "coordinates", "object_type", "resolver"]
      && r.value.entries[4] == ("resolver", Str("ned"))
  {
    match result
    case Err(e) => Err(e)
    case Ok(t) =>
      if NoRows(t) then
        Err(Mcp(MCPError(ObjectNotFound, "Object '" + name + "' not found in NED", "ned", false,
          "Try a different name", [("name", Str(name))])))
      else
        var row := RowOf(t.value, 0);
        match Subscript(Dict(row), "RA")
        case Err(e) => Err(e)
        case Ok(ra) =>
          match Subscript(Dict(row), "DEC")
          case Err(e) => Err(e)
          case Ok(dec) =>
            match coordOf(ra, dec)
            case Err(e) => Err(e)
            case Ok(c) =>
              Ok(Dict([("name", Str(name)),
                       ("main_id", Str(if "Object Name" in Keys(row) then Show(CellOf(row, "Object Name")) else name)),
                       ("coordinates", fmt(c)),
                       ("object_type", if "Type" in Keys(row) then Str(Show(CellOf(row, "Type"))) else NoneValue),
                       ("resolver", Str("ned"))]))
  }

  /** `_resolve_with_vizier(name)`: `sesame` is the outcome of
      `SkyCoord.from_name`. Any failure becomes OBJECT_NOT_FOUND. */
  function VizierResolve(name: string, sesame: Outcome<SkyCoord>, fmt: SkyCoord -> Value): (r: Outcome<Value>)
    ensures r.Err? <==> sesame.Err?
    ensures r.Err? ==>
      r.error.Mcp? && r.error.err.code == ObjectNotFound && !r.error.err.recoverable
      && r.error.err.service == "vizier"
      && r.error.err.details == [("name", Str(name)), ("error", Str(ExceptionText(sesame.error)))]
    ensures r.Ok? ==> r.value == Dict([("name", Str(name)), ("main_id", Str(name)),
                                       ("coordinates", fmt(sesame.value)), ("resolver", Str("sesame"))])
  {
    match sesame
    case Ok(c) =>
      Ok(Dict([("name", Str(name)), ("main_id", Str(name)), ("coordinates", fmt(c)), ("resolver", Str("sesame"))]))
    case Err(e) =>
      Err(Mcp(MCPError(ObjectNotFound, "Object '" + name + "' not found via Sesame", "vizier", false,
        "Check the object name", [("name", Str(name)), ("error", Str(ExceptionText(e)))])))
  }

  // ---------------------------------------------------------------- resolve_name

  /** The index of the first name that lower-cases to `target`. */
  function FirstLower(names: seq<string>, target: string, from: nat): (r: Option<nat>)
    requires from <= |names|
    ensures r.Some? ==>
      from <= r.value < |names| && Lower(names[r.value]) == target
      && forall j :: from <= j < r.value ==> Lower(names[j]) != target
    ensures r.None? ==> forall j :: from <= j < |names| ==> Lower(names[j]) != target
    decreases |names| - from
  {
    if from == |names| then None
    else if Lower(names[from]) == target then Some(from)
    else FirstLower(names, target, from + 1)
  }

  /** `main_id`: the cell of the first column named "main_id" in any case,
      else the name asked for. */
  function MainId(row: Row, name: string): string {
    match FirstLower(Keys(row), "main_id", 0)
    case Some(i) => Show(row[i].1)
    case None => name
  }

  /** `object_type`: the cell of the first column named "otype" in any case,
      when it is truthy. */
  function ObjectType(row: Row): Value {
    match FirstLower(Keys(row), "otype", 0)
    case Some(i) => if Truthy(row[i].1) then Str(Show(row[i].1)) else NoneValue
    case None => NoneValue
  }

  /** The first of `cols` the row has whose cell `pick` accepts. */
  function FirstPick<X>(row: Row, cols: seq<string>, pick: Value -> Option<X>): Option<X> {
    if |cols| == 0 then None
    else if cols[0] in Keys(row) && pick(CellOf(row, cols[0])).Some? then pick(CellOf(row, cols[0]))
    else FirstPick(row, cols[1..], pick)
  }

  /** The loops over candidate columns that stop at the first usable one. */
  method PickFirst<X>(row: Row, cols: seq<string>, pick: Value -> Option<X>) returns (r: Option<X>)
    ensures r == FirstPick(row, cols, pick)
  {
    r := None;
    for i := 0 to |cols|
      invariant FirstPick(row, cols, pick) == FirstPick(row, cols[i..], pick)
    {
      assert cols[i..][1..] == cols[i + 1..];
      if cols[i] in Keys(row) {
        var v := pick(CellOf(row, cols[i]));
        if v.Some? {
          r := v;
          break;
        }
      }
    }
  }

  /** The first candidate column the row has and `pick` accepts decides;
      with none, nothing is picked. */
  lemma {:induction false} FirstPickSpec<X>(row: Row, cols: seq<string>, pick: Value -> Option<X>, i: nat)
    requires i < |cols| && cols[i] in Keys(row) && pick(CellOf(row, cols[i])).Some?
    requires forall j :: 0 <= j < i && cols[j] in Keys(row) ==> pick(CellOf(row, cols[j])).None?
    ensures FirstPick(row, cols, pick) == pick(CellOf(row, cols[i]))
  {
    if i > 0 {
      assert cols[0] in Keys(row) ==> pick(CellOf(row, cols[0])).None?;
      FirstPickSpec(row, cols[1..], pick, i - 1);
    }
  }

  lemma {:induction false} FirstPickNone<X>(row: Row, cols: seq<string>, pick: Value -> Option<X>)
    requires forall j :: 0 <= j < |cols| && cols[j] in Keys(row) ==> pick(CellOf(row, cols[j])).None?
    ensures FirstPick(row, cols, pick) == None
  {
    if |cols| > 0 {
      assert cols[0] in Keys(row) ==> pick(CellOf(row, cols[0])).None?;
      FirstPickNone(row, cols[1..], pick);
    }
  }

  const DistanceColumns: seq<string> := ["Distance_distance", "distance_distance", "dist"]
  const MorphColumns: seq<string> := ["MORPHTYPE", "morphtype", "morph_type"]

  /** A distance cell is used when it is neither None nor masked and
      `float()` accepts it; `float()` raises only TypeError and ValueError,
      which the loop passes over. */
  function DistancePick(v: Value): Option<Double> {
    if v.NoneValue? || v.Masked? then None else AsFloat(v).ToOption()
  }

  /** A morphological type is used when it is not None and its text is not
      blank. */
  function MorphPick(v: Value): Option<string> {
    if !v.NoneValue? && Strip(Show(v)) != "" then Some(Show(v)) else None
  }

  /** The identifiers of `query_objectids`: the "id" column, else "ID"; a
      missing column raises KeyError as soon as there is a row. */
  function Identifiers(ids: Table): (r: Outcome<seq<Value>>)
    ensures r.Ok? ==> |r.value| == NRows(ids)
    ensures r.Err? <==> NRows(ids) > 0 && "id" !in ColNames(ids) && "ID" !in ColNames(ids)
  {
    var col := if "id" in ColNames(ids) then "id" else "ID";
    if NRows(ids) == 0 then Ok([])
    else if col !in ColNames(ids) then Err(Builtin(KeyError, Repr(Str(col))))
    else Ok(seq(NRows(ids), i requires 0 <= i < NRows(ids) => Str(Show(RowValue(ids, i, col)))))
  }

  /** The name, main_id, coordinates and type of the object, then its
      distance and morphological type when a candidate column gives one. */
  function Described(name: string, row: Row, coordinates: Value): Row {
    var base := [("name", Str(name)), ("main_id", Str(MainId(row, name))), ("coordinates", coordinates),
                 ("object_type", ObjectType(row))];
    var withDistance := match FirstPick(row, DistanceColumns, DistancePick)
      case Some(d) => Set(base, "distance_pc", Float(d))
      case None => base;
    match FirstPick(row, MorphColumns, MorphPick)
    case Some(m) => Set(withDistance, "morphological_type", Str(m))
    case None => withDistance
  }

  /** Setting a key the dict lacks appends it. */
  lemma SetNew(d: Row, k: string, v: Value)
    requires k !in Keys(d)
    ensures Set(d, k, v) == d + [(k, v)] && Keys(Set(d, k, v)) == Keys(d) + [k]
  {
    HasKeyKeys(d, k);
    SetAbsent(d, k, v);
  }

  lemma DescribedKeys(name: string, row: Row, coordinates: Value)
    ensures var a := Described(name, row, coordinates);
      Keys(a) == ["name", "main_id", "coordinates", "object_type"]
        + (if FirstPick(row, DistanceColumns, DistancePick).Some? then ["distance_pc"] else [])
        + (if FirstPick(row, MorphColumns, MorphPick).Some? then ["morphological_type"] else [])
      && a[1] == ("main_id", Str(MainId(row, name)))
  {
    var base := [("name", Str(name)), ("main_id", Str(MainId(row, name))), ("coordinates", coordinates),
                 ("object_type", ObjectType(row))];
    var dist := FirstPick(row, DistanceColumns, DistancePick);
    var morph := FirstPick(row, MorphColumns, MorphPick);
    assert Keys(base) == ["name", "main_id", "coordinates", "object_type"];
    var d1 := base;
    if dist.Some? {
      SetNew(base, "distance_pc", Float(dist.value));
      d1 := base + [("distance_pc", Float(dist.value))];
    }
    assert "morphological_type" !in Keys(d1);
    if morph.Some? {
      SetNew(d1, "morphological_type", Str(morph.value));
    }
  }

  /** The identifiers added when asked for and the query gives a table. */
  function WithIds(d: Row, includeIds: bool, ids: Outcome<Option<Table>>): Outcome<Row> {
    if !includeIds then Ok(d)
    else match ids
      case Err(e) => Err(e)
      case Ok(None) => Ok(d)
      case Ok(Some(it)) =>
        match Identifiers(it)
        case Err(e) => Err(e)
        case Ok(idents) => Ok(Set(d, "identifiers", List(idents)))
  }

  lemma WithIdsKeys(d: Row, includeIds: bool, ids: Outcome<Option<Table>>)
    requires "identifiers" !in Keys(d) && WithIds(d, includeIds, ids).Ok?
    ensures var a := WithIds(d, includeIds, ids).value;
      Keys(a) == Keys(d) + (if includeIds && ids.Ok? && ids.value.Some? then ["identifiers"] else [])
      && a[..|d|] == d
  {
    if includeIds && ids.Ok? && ids.value.Some? {
      SetNew(d, "identifiers", List(Identifiers(ids.value.value).value));
    }
  }

  /** The coordinates of the first SIMBAD row. `coordOf` builds them from
      the RA and DEC cells, in degrees when the third argument is true (the
      row has an "ra" column) and in hours otherwise. */
  function Located(row: Row, coordOf: (Value, Value, bool) -> Outcome<SkyCoord>): Outcome<SkyCoord> {
    var degrees := "ra" in Keys(row);
    match Subscript(Dict(row), if degrees then "ra" else "RA")
    case Err(e) => Err(e)
    case Ok(ra) =>
      match Subscript(Dict(row), if "dec" in Keys(row) then "dec" else "DEC")
      case Err(e) => Err(e)
      case Ok(dec) => coordOf(ra, dec, degrees)
  }

  /** The answer built from the first SIMBAD row; `ids` is the outcome of
      `query_objectids`. */
  function SimbadAnswer(name: string, includeIds: bool, row: Row, coordOf: (Value, Value, bool) -> Outcome<SkyCoord>,
                        fmt: SkyCoord -> Value, ids: Outcome<Option<Table>>): Outcome<Row> {
    match Located(row, coordOf)
    case Err(e) => Err(e)
    case Ok(c) => WithIds(Described(name, row, fmt(c)), includeIds, ids)
  }

  /** `resolve_name(name, include_ids)`: `simbad` is the outcome of the
      SIMBAD query; `ned` and `sesame` are the outcomes of the fallback
      resolvers. */
  function ResolveName(cfg: ServiceConfig, name: string, includeIds: bool, simbad: Outcome<Option<Table>>,
                       coordOf: (Value, Value, bool) -> Outcome<SkyCoord>, fmt: SkyCoord -> Value,
                       ids: Outcome<Option<Table>>, ned: Outcome<Value>, sesame: Outcome<Value>): Outcome<Value> {
    var fail := (e: Exception) => Rewrap(e, "SIMBAD query failed: ", "simbad", "Try again or use alternative resolver",
                                         [("name", Str(name))]);
    match simbad
    case Err(e) => Err(fail(e))
    case Ok(result) =>
      if NoRows(result) then
        match Fallback(name, cfg.simbad.resolvers.fallbackOrder, Attempts(ned, sesame), 0, [])
        case Ok(v) => Ok(v)
        case Err(e) => Err(fail(e))
      else
        match SimbadAnswer(name, includeIds, RowOf(result.value, 0), coordOf, fmt, ids)
        case Ok(answer) => Ok(Dict(answer))
        case Err(e) => Err(fail(e))
  }

  /** An empty SIMBAD answer defers to the fallback resolvers, whose result
      or error comes back unchanged. */
  lemma ResolveEmptyDefers(cfg: ServiceConfig, name: string, includeIds: bool, result: Option<Table>,
                           coordOf: (Value, Value, bool) -> Outcome<SkyCoord>, fmt: SkyCoord -> Value,
                           ids: Outcome<Option<Table>>, ned: Outcome<Value>, sesame: Outcome<Value>)
    requires NoRows(result)
    ensures ResolveName(cfg, name, includeIds, Ok(result), coordOf, fmt, ids, ned, sesame)
         == Fallback(name, cfg.simbad.resolvers.fallbackOrder, Attempts(ned, sesame), 0, [])
  {
    FallbackErrors(name, cfg.simbad.resolvers.fallbackOrder, Attempts(ned, sesame), 0, []);
  }

  /** The fallback loop only raises its own OBJECT_NOT_FOUND. */
  lemma {:induction false} FallbackErrors(name: string, order: seq<string>, attempt: string -> Option<Outcome<Value>>,
                                          i: nat, tried: seq<Value>)
    requires i <= |order|
    ensures Fallback(name, order, attempt, i, tried).Err? ==> Fallback(name, order, attempt, i, tried).error.Mcp?
    decreases |order| - i
  {
    if i < |order| && order[i] != "simbad" && attempt(order[i]).Some? && attempt(order[i]).value.Err? {
      FallbackErrors(name, order, attempt, i + 1, tried + [Tried(order[i], attempt(order[i]).value.error)]);
    } else if i < |order| {
      FallbackErrors(name, order, attempt, i + 1, tried);
    }
  }

  /** The keys of a SIMBAD answer: the four fixed ones, then the distance,
      the morphological type and the identifiers when found and asked for;
      main_id follows the case-insensitive column rule. */
  lemma SimbadAnswerKeys(name: string, includeIds: bool, row: Row, coordOf: (Value, Value, bool) -> Outcome<SkyCoord>,
                         fmt: SkyCoord -> Value, ids: Outcome<Option<Table>>)
    requires SimbadAnswer(name, includeIds, row, coordOf, fmt, ids).Ok?
    ensures var a := SimbadAnswer(name, includeIds, row, coordOf, fmt, ids).value;
      Keys(a) == ["name", "main_id", "coordinates", "object_type"]
        + (if FirstPick(row, DistanceColumns, DistancePick).Some? then ["distance_pc"] else [])
        + (if FirstPick(row, MorphColumns, MorphPick).Some? then ["morphological_type"] else [])
        + (if includeIds && ids.Ok? && ids.value.Some? then ["identifiers"] else [])
      && a[1] == ("main_id", Str(MainId(row, name)))
  {
    var d := Described(name, row, fmt(Located(row, coordOf).value));
    DescribedKeys(name, row, fmt(Located(row, coordOf).value));
    assert "identifiers" !in Keys(d);
    WithIdsKeys(d, includeIds, ids);
  }

  // ---------------------------------------------------------------- get_object_info

  /** The basic answer with the first record of the detailed query, or the
      exception that query raised. */
  function Detailed(info: Row, query: Outcome<Option<Table>>): Outcome<Row> {
    match query
    case Err(e) => Err(e)
    case Ok(result) =>
      if NoRows(result) then Ok(info)
      else match Records(result)
        case Err(e) => Err(e)
        case Ok(records) => Ok(if |records| > 0 then Set(info, "details", records[0]) else info)
  }

  /** `get_object_info(name, fields)`: `basic` is the outcome of
      `resolve_name(name, include_ids=True)`, `query` that of the detailed
      SIMBAD query (the extra fields only shape that query) and
      `measurements` that of `query_objectids`. */
  function GetObjectInfo(basic: Outcome<Row>, query: Outcome<Option<Table>>, measurements: Outcome<Option<Table>>): Outcome<Value> {
    match basic
    case Err(e) => Err(e)
    case Ok(info) =>
      match Detailed(info, query)
      case Err(e) =>
        if e.Mcp? then Err(e)
        else Ok(Dict(Set(info, "warning", Str("Could not fetch detailed info: " + ExceptionText(e)))))
      case Ok(withDetails) =>
        Ok(Dict(if measurements.Ok? && measurements.value.Some?
                then Set(withDetails, "measurement_count", Int(NRows(measurements.value.value)))
                else withDetails))
  }

  /** A failure of the detailed query other than an MCPError leaves the
      basic answer with a warning; an MCPError propagates; the measurements
      never make it fail; and the basic answer is kept under every other
      key. */
  lemma ObjectInfoDegrades(info: Row, query: Outcome<Option<Table>>, measurements: Outcome<Option<Table>>,
                           measurements': Outcome<Option<Table>>, k: string)
    ensures var r := GetObjectInfo(Ok(info), query, measurements);
      (query.Err? && query.error.Builtin? ==>
         r.Ok? && Get(r.value.entries, "warning") == Some(Str("Could not fetch detailed info: " + query.error.text)))
      && (query.Err? && query.error.Mcp? ==> r == Err(query.error))
      && (r.Err? <==> GetObjectInfo(Ok(info), query, measurements').Err?)
      && (r.Ok? && k != "details" && k != "measurement_count" && k != "warning" ==>
            Get(r.value.entries, k) == Get(info, k))
  {
    match Detailed(info, query)
    case Err(e) =>
      if e.Builtin? {
        var w := Str("Could not fetch detailed info: " + ExceptionText(e));
        GetSet(info, "warning", w, "warning");
        GetSet(info, "warning", w, k);
      }
    case Ok(d) =>
      assert k != "details" ==> Get(d, k) == Get(info, k) by {
        if d != info {
          var records := Records(query.value).value;
          GetSet(info, "details", records[0], k);
        }
      }
      if measurements.Ok? && measurements.value.Some? {
        GetSet(d, "measurement_count", Int(NRows(measurements.value.value)), k);
      }
  }
}
