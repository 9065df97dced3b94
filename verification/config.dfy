/**
 * Server configuration (config.py): the built-in defaults, the recursive
 * merge of a user file over them, validation into typed records, and the
 * lazily loaded global configuration.
 */
module Config {
  import opened Wrappers
  import opened Py
  import opened Dicts
  import opened Exceptions

  datatype AuthConfig = AuthConfig(tokenEnv: string)
  datatype EndpointConfig = EndpointConfig(tap: seq<(string, string)>, sia: seq<(string, string)>, ssa: seq<(string, string)>)
  datatype PaginationConfig = PaginationConfig(adsRowsPerPage: int, maxRows: int)
  datatype DefaultsConfig = DefaultsConfig(timeout: int, maxRetries: int, backoffFactor: real, pagination: PaginationConfig)
  datatype RateLimitConfig = RateLimitConfig(requestsPerSecond: real)
  datatype ResolverConfig = ResolverConfig(fallbackOrder: seq<string>)
  datatype SimbadConfig = SimbadConfig(rowLimit: int, resolvers: ResolverConfig)
  datatype ServiceConfig = ServiceConfig(
    version: string,
    auth: seq<(string, AuthConfig)>,
    endpoints: EndpointConfig,
    defaults: DefaultsConfig,
    rateLimits: seq<(string, RateLimitConfig)>,
    simbad: SimbadConfig)

  /** What validation raises on a value of the wrong shape. */
  const Invalid: Exception := Builtin(ValueError, "validation error for ServiceConfig")

  // ------------------------------------------------------------ defaults

  /** `get_default_config()` */
  function DefaultConfig(): Value {
    Dict([
      ("version", Str("1.0")),
      ("auth", DefaultAuth),
      ("endpoints", DefaultEndpoints),
      ("defaults", DefaultDefaults),
      ("rate_limits", DefaultRateLimits),
      ("simbad", DefaultSimbad)])
  }

  const DefaultAuth: Value := Dict([
    ("ads", Dict([("token_env", Str("ADS_TOKEN"))])),
    ("mast", Dict([("token_env", Str("MAST_TOKEN"))]))])

  const DefaultEndpoints: Value := Dict([("tap", Dict(DefaultTap)), ("sia", Dict(DefaultSia)), ("ssa", Dict([]))])

  const DefaultTap: seq<(string, Value)> := [
    ("gaia", Str("https://gea.esac.esa.int/tap-server/tap")),
    ("vizier", Str("http://tapvizier.u-strasbg.fr/TAPVizieR/tap")),
    ("heasarc", Str("https://heasarc.gsfc.nasa.gov/xamin/vo/tap")),
    ("irsa", Str("https://irsa.ipac.caltech.edu/TAP")),
    ("mast", Str("https://mast.stsci.edu/vo-tap/api/v0.1"))]

  const DefaultSia: seq<(string, Value)> := [
    ("heasarc", Str("https://heasarc.gsfc.nasa.gov/xamin/vo/sia")),
    ("irsa", Str("https://irsa.ipac.caltech.edu/SIA")),
    ("mast", Str("https://mast.stsci.edu/vo-sia/api/v0.1"))]

  const DefaultDefaults: Value := Dict([
    ("timeout", Int(60)),
    ("max_retries", Int(3)),
    ("backoff_factor", Float(Finite(2.0))),
    ("pagination", Dict([("ads_rows_per_page", Int(100)), ("max_rows", Int(10000))]))])

  const DefaultRateLimits: Value := Dict([
    ("simbad", Dict([("requests_per_second", Int(5))])),
    ("ads", Dict([("requests_per_second", Int(10))]))])

  const DefaultSimbad: Value := Dict([
    ("row_limit", Int(100)),
    ("resolvers", Dict([("fallback_order", List([Str("simbad"), Str("ned"), Str("vizier")]))]))])

  // ------------------------------------------------------------ deep merge

  /** `_deep_merge(base, override)` after its first `k` override entries:
      a key whose old and new values are both dicts is merged recursively,
      any other key is assigned the override value. */
  function MergePrefix(base: seq<(string, Value)>, over: seq<(string, Value)>, k: nat): seq<(string, Value)>
    requires k <= |over|
    decreases Dict(over), k
  {
    if k == 0 then base
    else
      var b := MergePrefix(base, over, k - 1);
      var key := over[k - 1].0;
      var v := over[k - 1].1;
      var prev := Get(b, key);
      if prev.Some? && prev.value.Dict? && v.Dict? then
        assert over[k - 1] in over;
        Set(b, key, Dict(MergePrefix(prev.value.entries, v.entries, |v.entries|)))
      else Set(b, key, v)
  }

  function Merge(base: seq<(string, Value)>, over: seq<(string, Value)>): seq<(string, Value)> {
    MergePrefix(base, over, |over|)
  }

  /** `_deep_merge`, entry by entry, recursing into nested dicts. */
  method DeepMerge(base: seq<(string, Value)>, over: seq<(string, Value)>) returns (r: seq<(string, Value)>)
    ensures r == Merge(base, over)
    ensures |over| == 0 ==> r == base
    decreases Dict(over)
  {
    r := base;
    for k := 0 to |over|
      invariant r == MergePrefix(base, over, k)
    {
      var key, v := over[k].0, over[k].1;
      var prev := Get(r, key);
      if prev.Some? && prev.value.Dict? && v.Dict? {
        assert over[k] in over;
        var inner := DeepMerge(prev.value.entries, v.entries);
        r := Set(r, key, Dict(inner));
      } else {
        r := Set(r, key, v);
      }
    }
  }

  /** After a merge the keys are those of the base plus those of the
      override. */
  lemma {:induction false} MergeKeys(base: seq<(string, Value)>, over: seq<(string, Value)>, k: nat, key: string)
    requires k <= |over|
    ensures HasKey(MergePrefix(base, over, k), key) <==> HasKey(base, key) || HasKey(over[..k], key)
  {
    if k > 0 {
      var b := MergePrefix(base, over, k - 1);
      MergeKeys(base, over, k - 1, key);
      var p := over[k - 1];
      var prev := Get(b, p.0);
      var v := if prev.Some? && prev.value.Dict? && p.1.Dict? then Dict(MergePrefix(prev.value.entries, p.1.entries, |p.1.entries|)) else p.1;
      assert MergePrefix(base, over, k) == Set(b, p.0, v);
      assert HasKey(Set(b, p.0, v), key) <==> HasKey(b, key) || key == p.0 by {
        GetSet(b, p.0, v, key);
        GetFinds(b, key);
        GetFinds(Set(b, p.0, v), key);
      }
      assert HasKey(over[..k], key) <==> HasKey(over[..k - 1], key) || key == p.0 by {
        if HasKey(over[..k], key) {
          var i :| 0 <= i < k && over[..k][i].0 == key;
          if i < k - 1 {
            assert over[..k - 1][i].0 == key;
          }
        }
        if HasKey(over[..k - 1], key) {
          var i :| 0 <= i < k - 1 && over[..k - 1][i].0 == key;
          assert over[..k][i].0 == key;
        }
        if key == p.0 {
          assert over[..k][k - 1].0 == key;
        }
      }
    }
  }

  /** A key the override does not mention keeps its old value. */
  lemma {:induction false} MergeKeeps(base: seq<(string, Value)>, over: seq<(string, Value)>, k: nat, key: string)
    requires k <= |over| && forall j :: 0 <= j < k ==> over[j].0 != key
    ensures Get(MergePrefix(base, over, k), key) == Get(base, key)
  {
    if k > 0 {
      var b := MergePrefix(base, over, k - 1);
      MergeKeeps(base, over, k - 1, key);
      var p := over[k - 1];
      var prev := Get(b, p.0);
      var v := if prev.Some? && prev.value.Dict? && p.1.Dict? then Dict(MergePrefix(prev.value.entries, p.1.entries, |p.1.entries|)) else p.1;
      assert MergePrefix(base, over, k) == Set(b, p.0, v);
      GetSet(b, p.0, v, key);
    }
  }

  /** A key the override mentions ends up with the override value, or, when
      both old and new values are dicts, with their recursive merge. */
  lemma {:induction false} MergeOverrides(base: seq<(string, Value)>, over: seq<(string, Value)>, k: nat, i: nat)
    requires i < k <= |over| && UniqueKeys(over)
    ensures var key, v := over[i].0, over[i].1;
      var prev := Get(base, key);
      Get(MergePrefix(base, over, k), key) ==
        if prev.Some? && prev.value.Dict? && v.Dict? then Some(Dict(Merge(prev.value.entries, v.entries)))
        else Some(v)
  {
    var key := over[i].0;
    var b := MergePrefix(base, over, k - 1);
    var p := over[k - 1];
    var prev := Get(b, p.0);
    var v := if prev.Some? && prev.value.Dict? && p.1.Dict? then Dict(MergePrefix(prev.value.entries, p.1.entries, |p.1.entries|)) else p.1;
    assert MergePrefix(base, over, k) == Set(b, p.0, v);
    GetSet(b, p.0, v, key);
    if i < k - 1 {
      assert p.0 != key;
      MergeOverrides(base, over, k - 1, i);
    } else {
      MergeKeeps(base, over, k - 1, key);
    }
  }

  // ------------------------------------------------------------ validation

  /** An `int` field: integers, booleans, and floats with no fractional
      part are accepted. */
  function AsInt(v: Value): (r: Outcome<int>)
    ensures v.Int? ==> r == Ok(v.i)
    ensures r.Ok? ==> v.Int? || v.Bool? || v.Float?
  {
    match v
    case Int(i) => Ok(i)
    case Bool(b) => Ok(if b then 1 else 0)
    case Float(Finite(x)) => if x.Floor as real == x then Ok(x.Floor) else Err(Invalid)
    case _ => Err(Invalid)
  }

  /** A `float` field: integers and booleans are widened. */
  function AsReal(v: Value): (r: Outcome<real>)
    ensures v.Int? ==> r == Ok(v.i as real)
    ensures v.Float? && v.d.Finite? ==> r == Ok(v.d.r)
    ensures r.Ok? ==> v.Int? || v.Bool? || (v.Float? && v.d.Finite?)
  {
    match v
    case Int(i) => Ok(i as real)
    case Bool(b) => Ok(if b then 1.0 else 0.0)
    case Float(Finite(x)) => Ok(x)
    case _ => Err(Invalid)
  }

  function AsStr(v: Value): (r: Outcome<string>)
    ensures r.Ok? <==> v.Str?
    ensures r.Ok? ==> r.value == v.s
  {
    if v.Str? then Ok(v.s) else Err(Invalid)
  }

  /** A `list[str]` field. */
  function StrItems(items: seq<Value>): (r: Outcome<seq<string>>)
    ensures r.Ok? <==> forall i :: 0 <= i < |items| ==> items[i].Str?
    ensures r.Ok? ==> |r.value| == |items| && forall i :: 0 <= i < |items| ==> r.value[i] == items[i].s
  {
    if |items| == 0 then Ok([])
    else if !items[0].Str? then Err(Invalid)
    else
      var rest := StrItems(items[1..]);
      assert forall i :: 1 <= i < |items| ==> items[i] == items[1..][i - 1];
      if rest.Err? then Err(Invalid) else Ok([items[0].s] + rest.value)
  }

  /** A `dict[str, str]` field. */
  function StrEntries(es: seq<(string, Value)>): (r: Outcome<seq<(string, string)>>)
    ensures r.Ok? <==> forall i :: 0 <= i < |es| ==> es[i].1.Str?
    ensures r.Ok? ==> |r.value| == |es| && forall i :: 0 <= i < |es| ==> r.value[i] == (es[i].0, es[i].1.s)
  {
    if |es| == 0 then Ok([])
    else if !es[0].1.Str? then Err(Invalid)
    else
      var rest := StrEntries(es[1..]);
      assert forall i :: 1 <= i < |es| ==> es[i] == es[1..][i - 1];
      if rest.Err? then Err(Invalid) else Ok([(es[0].0, es[0].1.s)] + rest.value)
  }

  /** The value under `key` when present, otherwise the field default. */
  function Field(d: seq<(string, Value)>, key: string, default: Value): Value {
    GetOr(d, key, default)
  }

  function ParseAuth(v: Value): (r: Outcome<AuthConfig>)
    ensures r.Ok? ==> v.Dict? && Get(v.entries, "token_env") == Some(Str(r.value.tokenEnv))
  {
    if !v.Dict? then Err(Invalid)
    else
      match Get(v.entries, "token_env")
      case None => Err(Invalid)
      case Some(t) => if t.Str? then Ok(AuthConfig(t.s)) else Err(Invalid)
  }

  /** `dict[str, AuthConfig]` */
  function AuthEntries(es: seq<(string, Value)>): (r: Outcome<seq<(string, AuthConfig)>>)
    ensures r.Ok? ==> Keys(r.value) == Keys(es)
    ensures r.Ok? ==> forall i :: 0 <= i < |es| ==> ParseAuth(es[i].1) == Ok(r.value[i].1)
  {
    if |es| == 0 then Ok([])
    else
      var head := ParseAuth(es[0].1);
      var rest := AuthEntries(es[1..]);
      if head.Err? then Err(head.error)
      else if rest.Err? then Err(rest.error)
      else
        assert forall i :: 1 <= i < |es| ==> es[i] == es[1..][i - 1];
        Ok([(es[0].0, head.value)] + rest.value)
  }

  function ParseRateLimit(v: Value): (r: Outcome<RateLimitConfig>)
    ensures r.Ok? ==> v.Dict?
    ensures v.Dict? && !HasKey(v.entries, "requests_per_second") ==> r == Ok(RateLimitConfig(10.0))
  {
    if !v.Dict? then Err(Invalid)
    else
      GetFinds(v.entries, "requests_per_second");
      var rps := AsReal(Field(v.entries, "requests_per_second", Float(Finite(10.0))));
      if rps.Err? then Err(rps.error) else Ok(RateLimitConfig(rps.value))
  }

  /** `dict[str, RateLimitConfig]` */
  function RateEntries(es: seq<(string, Value)>): (r: Outcome<seq<(string, RateLimitConfig)>>)
    ensures r.Ok? ==> Keys(r.value) == Keys(es)
    ensures r.Ok? ==> forall i :: 0 <= i < |es| ==> ParseRateLimit(es[i].1) == Ok(r.value[i].1)
  {
    if |es| == 0 then Ok([])
    else
      var head := ParseRateLimit(es[0].1);
      var rest := RateEntries(es[1..]);
      if head.Err? then Err(head.error)
      else if rest.Err? then Err(rest.error)
      else
        assert forall i :: 1 <= i < |es| ==> es[i] == es[1..][i - 1];
        Ok([(es[0].0, head.value)] + rest.value)
  }

  function ParseStrDict(v: Value): Outcome<seq<(string, string)>> {
    if v.Dict? then StrEntries(v.entries) else Err(Invalid)
  }

  function ParseEndpoints(v: Value): Outcome<EndpointConfig> {
    if !v.Dict? then Err(Invalid)
    else
      var tap := ParseStrDict(Field(v.entries, "tap", Dict([])));
      var sia := ParseStrDict(Field(v.entries, "sia", Dict([])));
      var ssa := ParseStrDict(Field(v.entries, "ssa", Dict([])));
      if tap.Err? then Err(tap.error)
      else if sia.Err? then Err(sia.error)
      else if ssa.Err? then Err(ssa.error)
      else Ok(EndpointConfig(tap.value, sia.value, ssa.value))
  }

  function ParsePagination(v: Value): Outcome<PaginationConfig> {
    if !v.Dict? then Err(Invalid)
    else
      var rows := AsInt(Field(v.entries, "ads_rows_per_page", Int(100)));
      var max := AsInt(Field(v.entries, "max_rows", Int(10000)));
      if rows.Err? then Err(rows.error)
      else if max.Err? then Err(max.error)
      else Ok(PaginationConfig(rows.value, max.value))
  }

  function ParseDefaults(v: Value): Outcome<DefaultsConfig> {
    if !v.Dict? then Err(Invalid)
    else
      var timeout := AsInt(Field(v.entries, "timeout", Int(60)));
      var retries := AsInt(Field(v.entries, "max_retries", Int(3)));
      var backoff := AsReal(Field(v.entries, "backoff_factor", Float(Finite(2.0))));
      var pagination := ParsePagination(Field(v.entries, "pagination", Dict([])));
      if timeout.Err? then Err(timeout.error)
      else if retries.Err? then Err(retries.error)
      else if backoff.Err? then Err(backoff.error)
      else if pagination.Err? then Err(pagination.error)
      else Ok(DefaultsConfig(timeout.value, retries.value, backoff.value, pagination.value))
  }

  function ParseSimbad(v: Value): Outcome<SimbadConfig> {
    if !v.Dict? then Err(Invalid)
    else
      var rowLimit := AsInt(Field(v.entries, "row_limit", Int(100)));
      var resolvers := Field(v.entries, "resolvers", Dict([]));
      var order :=
        if !resolvers.Dict? then Err(Invalid)
        else
          var o := Field(resolvers.entries, "fallback_order", List([Str("simbad"), Str("ned"), Str("vizier")]));
          if o.List? then StrItems(o.items) else Err(Invalid);
      if rowLimit.Err? then Err(rowLimit.error)
      else if order.Err? then Err(order.error)
      else Ok(SimbadConfig(rowLimit.value, ResolverConfig(order.value)))
  }

  /** `ServiceConfig(**data)`: every field falls back to its declared default
      when absent; unknown keys are ignored. */
  function Parse(data: Value): Outcome<ServiceConfig> {
    if !data.Dict? then Err(Invalid)
    else
      var d := data.entries;
      var version := AsStr(Field(d, "version", Str("1.0")));
      var authV := Field(d, "auth", Dict([]));
      var auth := if authV.Dict? then AuthEntries(authV.entries) else Err(Invalid);
      var endpoints := ParseEndpoints(Field(d, "endpoints", Dict([])));
      var defaults := ParseDefaults(Field(d, "defaults", Dict([])));
      var ratesV := Field(d, "rate_limits", Dict([]));
      var rates := if ratesV.Dict? then RateEntries(ratesV.entries) else Err(Invalid);
      var simbad := ParseSimbad(Field(d, "simbad", Dict([])));
      if version.Err? then Err(version.error)
      else if auth.Err? then Err(auth.error)
      else if endpoints.Err? then Err(endpoints.error)
      else if defaults.Err? then Err(defaults.error)
      else if rates.Err? then Err(rates.error)
      else if simbad.Err? then Err(simbad.error)
      else Ok(ServiceConfig(version.value, auth.value, endpoints.value, defaults.value, rates.value, simbad.value))
  }

  /** The defaults validate, and carry a 60 s timeout, 3 retries, backoff
      factor 2, 5 and 10 requests per second for SIMBAD and ADS, a row
      limit of 100 and the resolver order SIMBAD, NED, VizieR. */
  lemma DefaultConfigValues()
    ensures var c := Parse(DefaultConfig());
      c.Ok? && c.value.version == "1.0"
      && c.value.auth == [("ads", AuthConfig("ADS_TOKEN")), ("mast", AuthConfig("MAST_TOKEN"))]
      && c.value.defaults == DefaultsConfig(60, 3, 2.0, PaginationConfig(100, 10000))
      && c.value.rateLimits == [("simbad", RateLimitConfig(5.0)), ("ads", RateLimitConfig(10.0))]
      && c.value.simbad == SimbadConfig(100, ResolverConfig(["simbad", "ned", "vizier"]))
      && Keys(c.value.endpoints.tap) == ["gaia", "vizier", "heasarc", "irsa", "mast"]
      && Keys(c.value.endpoints.sia) == ["heasarc", "irsa", "mast"] && c.value.endpoints.ssa == []
  {
    var d := DefaultConfig().entries;
    GetAt(d, 0);
    GetAt(d, 1);
    GetAt(d, 2);
    GetAt(d, 3);
    GetAt(d, 4);
    GetAt(d, 5);
    DefaultAuthValue();
    DefaultEndpointsValue();
    DefaultDefaultsValue();
    DefaultRateLimitsValue();
    DefaultSimbadValue();
  }

  lemma DefaultAuthValue()
    ensures AuthEntries(DefaultAuth.entries) == Ok([("ads", AuthConfig("ADS_TOKEN")), ("mast", AuthConfig("MAST_TOKEN"))])
  {
    var es := DefaultAuth.entries;
    assert ParseAuth(es[0].1) == Ok(AuthConfig("ADS_TOKEN"));
    assert ParseAuth(es[1].1) == Ok(AuthConfig("MAST_TOKEN"));
    var tail := es[1..];
    assert tail[0] == es[1] && tail[1..] == [];
    assert AuthEntries(tail[1..]) == Ok([]);
    var m: seq<(string, AuthConfig)> := [("mast", AuthConfig("MAST_TOKEN"))];
    assert m + [] == m;
    assert tail[0].0 == "mast" && ParseAuth(tail[0].1) == Ok(AuthConfig("MAST_TOKEN"));
    assert AuthEntries(tail) == Ok(m);
    assert [("ads", AuthConfig("ADS_TOKEN"))] + m == [("ads", AuthConfig("ADS_TOKEN")), ("mast", AuthConfig("MAST_TOKEN"))];
  }

  lemma DefaultEndpointsValue()
    ensures var e := ParseEndpoints(DefaultEndpoints);
      e.Ok? && Keys(e.value.tap) == ["gaia", "vizier", "heasarc", "irsa", "mast"]
      && Keys(e.value.sia) == ["heasarc", "irsa", "mast"] && e.value.ssa == []
  {
    var es := DefaultEndpoints.entries;
    assert Field(es, "tap", Dict([])) == Dict(DefaultTap) && Field(es, "sia", Dict([])) == Dict(DefaultSia)
      && Field(es, "ssa", Dict([])) == Dict([]) by {
      GetAt(es, 0);
      GetAt(es, 1);
      GetAt(es, 2);
    }
    DefaultTapKeys();
    DefaultSiaKeys();
  }

  lemma DefaultTapKeys()
    ensures StrEntries(DefaultTap).Ok? && Keys(StrEntries(DefaultTap).value) == ["gaia", "vizier", "heasarc", "irsa", "mast"]
  {
    StrEntriesKeys(DefaultTap);
  }

  lemma DefaultSiaKeys()
    ensures StrEntries(DefaultSia).Ok? && Keys(StrEntries(DefaultSia).value) == ["heasarc", "irsa", "mast"]
  {
    StrEntriesKeys(DefaultSia);
  }

  /** A dict of strings parses with its keys in order. */
  lemma StrEntriesKeys(es: seq<(string, Value)>)
    requires forall i :: 0 <= i < |es| ==> es[i].1.Str?
    ensures StrEntries(es).Ok? && Keys(StrEntries(es).value) == Keys(es)
  {
    var ks := Keys(StrEntries(es).value);
    assert forall i :: 0 <= i < |ks| ==> ks[i] == es[i].0;
  }

  lemma DefaultDefaultsValue()
    ensures ParseDefaults(DefaultDefaults) == Ok(DefaultsConfig(60, 3, 2.0, PaginationConfig(100, 10000)))
  {
    var es := DefaultDefaults.entries;
    GetAt(es, 0);
    GetAt(es, 1);
    GetAt(es, 2);
    GetAt(es, 3);
    var p := es[3].1.entries;
    GetAt(p, 0);
    GetAt(p, 1);
  }

  lemma DefaultRateLimitsValue()
    ensures RateEntries(DefaultRateLimits.entries) == Ok([("simbad", RateLimitConfig(5.0)), ("ads", RateLimitConfig(10.0))])
  {
    var es := DefaultRateLimits.entries;
    GetAt(es[0].1.entries, 0);
    GetAt(es[1].1.entries, 0);
    assert ParseRateLimit(es[0].1) == Ok(RateLimitConfig(5.0));
    assert ParseRateLimit(es[1].1) == Ok(RateLimitConfig(10.0));
    var tail := es[1..];
    assert tail[0] == es[1] && tail[1..] == [];
    assert RateEntries(tail[1..]) == Ok([]);
    var m: seq<(string, RateLimitConfig)> := [("ads", RateLimitConfig(10.0))];
    assert m + [] == m;
    assert tail[0].0 == "ads" && ParseRateLimit(tail[0].1) == Ok(RateLimitConfig(10.0));
    assert RateEntries(tail) == Ok(m);
    assert [("simbad", RateLimitConfig(5.0))] + m == [("simbad", RateLimitConfig(5.0)), ("ads", RateLimitConfig(10.0))];
  }

  lemma DefaultSimbadValue()
    ensures ParseSimbad(DefaultSimbad) == Ok(SimbadConfig(100, ResolverConfig(["simbad", "ned", "vizier"])))
  {
    var es := DefaultSimbad.entries;
    GetAt(es, 0);
    GetAt(es, 1);
    GetAt(es[1].1.entries, 0);
    var items := [Str("simbad"), Str("ned"), Str("vizier")];
    assert StrItems(items).value == ["simbad", "ned", "vizier"];
  }

  // ------------------------------------------------------------ loading

  /** `load_config(path)`. `file` is what `yaml.safe_load` read, or None
      when no path is set or the file does not exist. A falsy document
      leaves the defaults alone; a truthy one must be a mapping, since the
      merge iterates its `items()`. */
  function LoadConfig(file: Option<Value>): Outcome<ServiceConfig> {
    if file.None? || !Truthy(file.value) then Parse(DefaultConfig())
    else if !file.value.Dict? then Err(Builtin(AttributeError, "'" + TypeName(file.value) + "' object has no attribute 'items'"))
    else Parse(Dict(Merge(DefaultConfig().entries, file.value.entries)))
  }

  /** A section the file does not mention validates exactly as in the
      defaults. */
  lemma LoadConfigKeepsSections(es: seq<(string, Value)>, key: string)
    requires forall j :: 0 <= j < |es| ==> es[j].0 != key
    ensures Get(Merge(DefaultConfig().entries, es), key) == Get(DefaultConfig().entries, key)
  {
    MergeKeeps(DefaultConfig().entries, es, |es|, key);
  }

  /** The lazily loaded global configuration (`_config`). */
  class ConfigHolder {
    var config: Option<ServiceConfig>

    constructor()
      ensures config.None?
    {
      config := None;
    }

    /** `get_config()`: loads on first use (with the outcome `load` that
        loading would have) and afterwards returns the stored instance. */
    method GetConfig(load: Outcome<ServiceConfig>) returns (r: Outcome<ServiceConfig>)
      modifies this
      ensures old(config).Some? ==> r == Ok(old(config).value) && config == old(config)
      ensures old(config).None? ==> r == load && config == load.ToOption()
    {
      if config.None? {
        if load.Err? {
          return Err(load.error);
        }
        config := Some(load.value);
      }
      return Ok(config.value);
    }

    /** `reload_config(path)`: replaces the stored instance. */
    method ReloadConfig(load: Outcome<ServiceConfig>) returns (r: Outcome<ServiceConfig>)
      modifies this
      ensures r == load
      ensures load.Ok? ==> config == Some(load.value)
      ensures load.Err? ==> config == old(config)
    {
      if load.Err? {
        return Err(load.error);
      }
      config := Some(load.value);
      return Ok(load.value);
    }
  }
}
