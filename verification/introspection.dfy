/**
 * Discovery of the astroquery functions the server exposes
 * (introspection.py): the module table, the method filter, the docstring
 * scanner for parameter descriptions, and the FunctionInfo records.
 *
 * Python reflection is replaced by an explicit catalogue: resolving a
 * class path yields the class's members in `dir()` order, each with what
 * `getattr`, `callable`, `inspect.getattr_static`, `inspect.signature`,
 * `get_type_hints` and `inspect.getdoc` would report.
 */
module Introspection {
  import opened Wrappers
  import opened Strings
  import opened Py
  import opened Exceptions

  // ------------------------------------------------------------ type hints

  /** A parameter annotation, after `get_type_hints` where it succeeded. */
  datatype Hint =
    | NoAnnotation            // inspect.Parameter.empty
    | Named(name: string)     // an object with a __name__
    | Other(text: string)     // anything else, known by its str()

  /** `get_type_hint_str(hint)` */
  function TypeHintStr(h: Hint): (r: string)
    ensures h.NoAnnotation? ==> r == "Any"
    ensures h.Named? ==> r == h.name
  {
    match h
    case NoAnnotation => "Any"
    case Named(n) => n
    case Other(t) => ReplaceAll(t, "typing.", "")
  }

  /** A rendering without "typing." in it comes back unchanged. */
  lemma {:induction false} ReplaceAllAbsent(s: string, pat: string, repl: string)
    requires |pat| > 0 && !Contains(s, pat)
    ensures ReplaceAll(s, pat, repl) == s
  {
    if |s| >= |pat| {
      assert !OccursAt(s, pat, 0);
      assert s[..|pat|] != pat;
      forall i | 0 <= i <= |s[1..]| - |pat| ensures !OccursAt(s[1..], pat, i) {
        assert s[1..][i..i + |pat|] == s[i + 1..i + 1 + |pat|];
        assert !OccursAt(s, pat, i + 1);
      }
      ReplaceAllAbsent(s[1..], pat, repl);
      assert [s[0]] + s[1..] == s;
    }
  }

  /** Hints that are not names print as `str(hint)` with every "typing."
      prefix dropped, and are otherwise left alone. */
  lemma TypeHintStrOther(text: string)
    ensures !Contains(text, "typing.") ==> TypeHintStr(Other(text)) == text
    ensures TypeHintStr(Other("typing." + text)) == TypeHintStr(Other(text))
  {
    if !Contains(text, "typing.") {
      ReplaceAllAbsent(text, "typing.", "");
    }
    var t := "typing." + text;
    assert t[..7] == "typing.";
    assert t[7..] == text;
  }

  // ------------------------------------------------------------ docstrings

  /** Section headers that open the parameter list. */
  predicate IsParamsHeader(s: string) {
    s == "parameters" || s == "parameters:" || s == "args:" || s == "arguments:"
  }

  /** Section headers that close it, when written without a colon in the
      first 30 characters. */
  predicate IsEndHeader(s: string) {
    s == "returns" || s == "returns:" || s == "raises" || s == "raises:" || s == "examples" || s == "examples:"
  }

  /** `":" in s[:30]` */
  predicate ColonNearStart(s: string) {
    HasChar(Take(s, 30), ':')
  }

  /** A continuation line ends the description when it is blank or looks
      like the next `name: ...` entry. */
  predicate EndsDescription(line: string) {
    line == "" || (IsAlpha(line[0]) && ColonNearStart(line))
  }

  /** `parts` extended with the continuation lines `lines[j..end]`, taken
      up to the first one that ends the description. */
  function Continue(lines: seq<string>, j: nat, end: nat, parts: seq<string>): (r: seq<string>)
    requires end <= |lines|
    ensures |r| <= |parts| + (end - j) || j > end
    decreases end - j
  {
    if j >= end then parts
    else
      var next := Strip(lines[j]);
      if EndsDescription(next) then parts else Continue(lines, j + 1, end, parts + [next])
  }

  /** The description read from line `i`, which starts with `name`: the
      rest of the line and up to four continuation lines, joined by spaces
      and cut to 200 characters. */
  function DescriptionAt(lines: seq<string>, name: string, i: nat): (r: string)
    requires i < |lines| && StartsWith(Strip(lines[i]), name)
    ensures |r| <= 200
  {
    var stripped := Strip(lines[i]);
    var rest := LStripChars(stripped[|name|..], ": ");
    var end := if i + 5 < |lines| then i + 5 else |lines|;
    var parts := Continue(lines, i + 1, end, if rest != "" then [rest] else []);
    Take(Join(" ", parts), 200)
  }

  /** How the scanner reads one line, in the order its tests are made. */
  datatype LineKind = ParamsHeader | NameLine | EntryLine | EndHeader | PlainLine

  function Kind(line: string, name: string): LineKind {
    var stripped := Strip(line);
    if IsParamsHeader(Lower(stripped)) then ParamsHeader
    else if StartsWith(stripped, name) then NameLine
    else if stripped != "" && ColonNearStart(stripped) then EntryLine
    else if IsEndHeader(Lower(stripped)) then EndHeader
    else PlainLine
  }

  /** The scan of `extract_param_description` from line `i` on, with
      `inParams` telling whether a parameters header was seen. */
  function Scan(lines: seq<string>, name: string, i: nat, inParams: bool): string
    decreases |lines| - i
  {
    if i >= |lines| then ""
    else
      var kind := Kind(lines[i], name);
      if kind == ParamsHeader then Scan(lines, name, i + 1, true)
      else if !inParams then Scan(lines, name, i + 1, false)
      else if kind == NameLine then
        assert StartsWith(Strip(lines[i]), name);
        DescriptionAt(lines, name, i)
      else if kind == EndHeader then ""
      else Scan(lines, name, i + 1, true)
  }

  /** `extract_param_description(docstring, param_name)` as a value. */
  function ParamDescription(docstring: string, name: string): string {
    if docstring == "" then "" else Scan(Split(docstring, '\n'), name, 0, false)
  }

  /** The description starting on line `i`: the inner loop of
      `extract_param_description`. */
  method ReadDescription(lines: seq<string>, name: string, i: nat) returns (r: string)
    requires i < |lines| && StartsWith(Strip(lines[i]), name)
    ensures r == DescriptionAt(lines, name, i)
  {
    var stripped := Strip(lines[i]);
    var rest := LStripChars(stripped[|name|..], ": ");
    var parts: seq<string> := if rest != "" then [rest] else [];
    var end := if i + 5 < |lines| then i + 5 else |lines|;
    ghost var start := parts;
    var j := i + 1;
    while j < end
      invariant i + 1 <= j <= end
      invariant Continue(lines, j, end, parts) == Continue(lines, i + 1, end, start)
    {
      var next := Strip(lines[j]);
      if EndsDescription(next) {
        break;
      }
      parts := parts + [next];
      j := j + 1;
    }
    return Take(Join(" ", parts), 200);
  }

  /** `extract_param_description`: the line loop with its `in_params` flag
      and the inner loop collecting continuation lines. */
  method ExtractParamDescription(docstring: string, name: string) returns (r: string)
    ensures r == ParamDescription(docstring, name)
    ensures |r| <= 200
  {
    if docstring == "" {
      return "";
    }
    var lines := Split(docstring, '\n');
    var inParams := false;
    var i := 0;
    while i < |lines|
      invariant i <= |lines|
      invariant Scan(lines, name, i, inParams) == ParamDescription(docstring, name)
    {
      var kind := Kind(lines[i], name);
      ScanStep(lines, name, i, inParams);
      if kind == ParamsHeader {
        inParams := true;
      } else if inParams {
        if kind == NameLine {
          r := ReadDescription(lines, name, i);
          return;
        } else if kind == EndHeader {
          return "";
        }
      }
      i := i + 1;
    }
    return "";
  }

  /** Without a parameters header nothing is found. */
  lemma {:induction false} NoHeaderNoDescription(lines: seq<string>, name: string, i: nat)
    requires forall k :: i <= k < |lines| ==> Kind(lines[k], name) != ParamsHeader
    ensures Scan(lines, name, i, false) == ""
    decreases |lines| - i
  {
    if i < |lines| {
      NoHeaderNoDescription(lines, name, i + 1);
    }
  }

  /** Scanning inside the parameter section reaches the first line that
      starts with `name` (a longer parameter such as "radius" for "ra"
      included) as long as no colon-less end header comes first. */
  lemma {:induction false} ScanReaches(lines: seq<string>, name: string, k: nat, i: nat)
    requires k <= i < |lines| && Kind(lines[i], name) == NameLine
    requires forall m :: k <= m < i ==> Kind(lines[m], name) != NameLine && Kind(lines[m], name) != EndHeader
    ensures StartsWith(Strip(lines[i]), name)
    ensures Scan(lines, name, k, true) == DescriptionAt(lines, name, i)
    decreases i - k
  {
    KindNameLine(lines[i], name);
    if k < i {
      ScanReaches(lines, name, k + 1, i);
      ScanPasses(lines, name, k);
    } else {
      ScanStep(lines, name, i, true);
    }
  }

  /** Inside the section, a line that neither names the parameter nor ends
      the section is passed over. */
  lemma ScanPasses(lines: seq<string>, name: string, k: nat)
    requires k < |lines| && Kind(lines[k], name) != NameLine && Kind(lines[k], name) != EndHeader
    ensures Scan(lines, name, k, true) == Scan(lines, name, k + 1, true)
  {
    ScanStep(lines, name, k, true);
  }

  /** One step of the scan, with the line's kind computed once. */
  lemma ScanStep(lines: seq<string>, name: string, i: nat, inParams: bool)
    requires i < |lines|
    ensures var kind := Kind(lines[i], name);
      Scan(lines, name, i, inParams)
        == if kind == ParamsHeader then Scan(lines, name, i + 1, true)
           else if !inParams then Scan(lines, name, i + 1, false)
           else if kind == NameLine then DescriptionAt(lines, name, i)
           else if kind == EndHeader then ""
           else Scan(lines, name, i + 1, true)
  {
  }

  /** A line classified as the parameter's own starts with its name. */
  lemma KindNameLine(line: string, name: string)
    requires Kind(line, name) == NameLine
    ensures StartsWith(Strip(line), name)
  {
  }

  /** A parameters header opens the section whatever the state before it. */
  lemma ScanHeader(lines: seq<string>, name: string, h: nat, inParams: bool)
    requires h < |lines| && Kind(lines[h], name) == ParamsHeader
    ensures Scan(lines, name, h, inParams) == Scan(lines, name, h + 1, true)
  {
  }

  /** The parameter is matched by prefix: a line documenting "radius" is
      taken as the description of "ra". */
  lemma PrefixMatches(line: string, name: string, more: string)
    requires StartsWith(Strip(line), name + more)
    requires !IsParamsHeader(Lower(Strip(line)))
    ensures Kind(line, name) == NameLine
  {
    assert Strip(line)[..|name|] == (name + more)[..|name|];
  }

  /** "Returns:", "Raises:" and "Examples:" never end the section: the
      colon test catches them first, so only the colon-less spellings do. */
  lemma ColonHeadersDoNotStop(line: string, name: string)
    requires !IsParamsHeader(Lower(Strip(line))) && !StartsWith(Strip(line), name)
    requires Strip(line) != "" && ColonNearStart(Strip(line))
    ensures Kind(line, name) == EntryLine
  {
  }

  /** Within the section, only the parameter's own line and an end header
      stop the scan; every other line lets it continue. */
  lemma {:induction false} ScanContinues(lines: seq<string>, name: string, k: nat)
    requires k < |lines|
    ensures Kind(lines[k], name) == EndHeader ==> Scan(lines, name, k, true) == ""
    ensures Kind(lines[k], name) in {ParamsHeader, EntryLine, PlainLine} ==> Scan(lines, name, k, true) == Scan(lines, name, k + 1, true)
  {
  }

  // ------------------------------------------------------------ catalogue

  /** What `getattr(cls, name, None)` does: raise, give None, or give an
      attribute that may or may not be callable, of the named type. */
  datatype Lookup = Raises(error: Exception) | Missing | Found(isCallable: bool, typeName: string)

  /** A parameter of `inspect.signature(method)`: its annotation, what
      `get_type_hints` resolves it to (when it lists it), and its default. */
  datatype Param = Param(name: string, annotation: Hint, resolved: Option<Hint>, default: Option<Value>)

  /** One name of `dir(cls)` with what reflection reports about it.
      `wrapped` is what `inspect.getattr_static` finds (a classmethod or
      staticmethod or not, or an error); `signature` is None when
      `inspect.signature` raises; `hintsResolve` is false when
      `get_type_hints` raises. */
  datatype Member = Member(
    name: string,
    lookup: Lookup,
    wrapped: Outcome<bool>,
    signature: Option<seq<Param>>,
    hintsResolve: bool,
    docstring: string)

  /** A resolved class: its members in `dir()` order. */
  datatype ClassEntry = ClassEntry(members: seq<Member>)

  /** Imports a class path; ImportError or AttributeError when it is absent. */
  type Resolver = string -> Outcome<ClassEntry>

  datatype ParameterInfo = ParameterInfo(name: string, typeHint: string, default: Value, hasDefault: bool, description: string)

  datatype FunctionInfo = FunctionInfo(
    moduleName: string,
    className: string,
    methodName: string,
    fullName: string,
    description: string,
    parameters: seq<ParameterInfo>)

  /** `ASTROQUERY_MODULES`, in declaration order. */
  const Modules: seq<(string, string)> := [
    ("simbad", "astroquery.simbad.Simbad"),
    ("ned", "astroquery.ipac.ned.Ned"),
    ("vizier", "astroquery.vizier.Vizier"),
    ("ads", "astroquery.nasa_ads.ADS"),
    ("mast", "astroquery.mast.Observations"),
    ("mast_catalogs", "astroquery.mast.Catalogs"),
    ("heasarc", "astroquery.heasarc.Heasarc"),
    ("irsa", "astroquery.ipac.irsa.Irsa"),
    ("nea", "astroquery.ipac.nexsci.nasa_exoplanet_archive.NasaExoplanetArchive"),
    ("gaia", "astroquery.gaia.Gaia"),
    ("sdss", "astroquery.sdss.SDSS"),
    ("alma", "astroquery.alma.Alma"),
    ("esa_hubble", "astroquery.esa.hubble.ESAHubble"),
    ("esa_jwst", "astroquery.esa.jwst.Jwst"),
    ("xmm_newton", "astroquery.esa.xmm_newton.XMMNewton"),
    ("coordinates", "astropy.coordinates.SkyCoord")
  ]

  /** The module names are distinct. */
  lemma ModuleNamesDistinct()
    ensures forall i, j :: 0 <= i < j < |Modules| ==> Modules[i].0 != Modules[j].0
  {
  }

  const SkipMethods: set<string> := {
    "__init__", "__class__", "__repr__", "__str__",
    "_request", "_parse_result", "_args_to_payload"
  }

  const AlwaysInclude: set<string> := {
    "login", "logout", "login_gui", "authenticated", "auth", "help", "help_tap"
  }

  const QueryPrefixes: seq<string> := [
    "query_", "get_", "list_", "search_", "download_",
    "fetch_", "resolve_", "cone_search", "locate_",
    "clear_", "reset_",
    "launch_", "load_", "save_", "upload_",
    "cross_", "filter_",
    "enable_", "disable_", "delete_", "remove_", "rename_",
    "share_",
    "add_", "find_"
  ]

  /** `s.rstrip("_")` */
  function RStripUnderscore(s: string): (r: string)
    ensures |r| <= |s| && r == s[..|r|]
    ensures |r| == 0 || r[|r| - 1] != '_'
  {
    if |s| > 0 && s[|s| - 1] == '_' then RStripUnderscore(s[..|s| - 1]) else s
  }

  /** A name matches a query prefix when it starts with one or equals one
      without its trailing underscores ("query", "cone_search"). */
  predicate MatchesPrefix(name: string) {
    exists k | 0 <= k < |QueryPrefixes| :: StartsWith(name, QueryPrefixes[k]) || name == RStripUnderscore(QueryPrefixes[k])
  }

  /** The name filter applied before any attribute lookup. */
  predicate Public(name: string) {
    !StartsWith(name, "_") && name !in SkipMethods
  }

  /** What the loop body does with one member. */
  datatype Step = Skip | Abort | Emit(info: FunctionInfo)

  /** The class name: the last dotted segment of the class path. */
  function ClassName(path: string): (r: string)
    ensures !HasChar(r, '.')
  {
    var parts := Split(path, '.');
    parts[|parts| - 1]
  }

  function FullName(moduleName: string, methodName: string): string {
    moduleName + "_" + methodName
  }

  /** `docstring.split("\n")[0]` when there is a docstring, else
      "Class.method". */
  function Description(className: string, methodName: string, docstring: string): string {
    if docstring == "" then className + "." + methodName else Split(docstring, '\n')[0]
  }

  /** The type hint used for one parameter. */
  function HintOf(p: Param, hintsResolve: bool): Hint {
    if hintsResolve && p.resolved.Some? then p.resolved.value else p.annotation
  }

  function ParamInfo(p: Param, hintsResolve: bool, docstring: string): ParameterInfo {
    ParameterInfo(
      p.name,
      TypeHintStr(HintOf(p, hintsResolve)),
      p.default.GetOr(NoneValue),
      p.default.Some?,
      ParamDescription(docstring, p.name))
  }

  /** The ParameterInfos of `ps[..k]`, skipping "self" and "cls". */
  function ParamInfos(ps: seq<Param>, hintsResolve: bool, docstring: string, k: nat): seq<ParameterInfo>
    requires k <= |ps|
  {
    if k == 0 then []
    else
      var prev := ParamInfos(ps, hintsResolve, docstring, k - 1);
      var p := ps[k - 1];
      if p.name == "self" || p.name == "cls" then prev else prev + [ParamInfo(p, hintsResolve, docstring)]
  }

  /** The loop over `sig.parameters`. */
  method BuildParameters(ps: seq<Param>, hintsResolve: bool, docstring: string) returns (infos: seq<ParameterInfo>)
    ensures infos == ParamInfos(ps, hintsResolve, docstring, |ps|)
  {
    infos := [];
    for k := 0 to |ps|
      invariant infos == ParamInfos(ps, hintsResolve, docstring, k)
    {
      var p := ps[k];
      if p.name == "self" || p.name == "cls" {
        continue;
      }
      var description := ExtractParamDescription(docstring, p.name);
      var hint := if hintsResolve && p.resolved.Some? then p.resolved.value else p.annotation;
      infos := infos + [ParameterInfo(p.name, TypeHintStr(hint), p.default.GetOr(NoneValue), p.default.Some?, description)];
    }
  }

  /** The parameters of `ps[..k]` other than "self" and "cls", in order. */
  function Kept(ps: seq<Param>, k: nat): (r: seq<Param>)
    requires k <= |ps|
    ensures forall p :: p in r <==> p in ps[..k] && p.name != "self" && p.name != "cls"
  {
    if k == 0 then []
    else
      var prev := Kept(ps, k - 1);
      assert ps[..k] == ps[..k - 1] + [ps[k - 1]];
      if ps[k - 1].name == "self" || ps[k - 1].name == "cls" then prev else prev + [ps[k - 1]]
  }

  /** One ParameterInfo per kept parameter, in signature order. */
  lemma {:induction false} ParamInfosKept(ps: seq<Param>, hintsResolve: bool, docstring: string, k: nat)
    requires k <= |ps|
    ensures var infos := ParamInfos(ps, hintsResolve, docstring, k);
      |infos| == |Kept(ps, k)|
      && forall q :: 0 <= q < |infos| ==> infos[q] == ParamInfo(Kept(ps, k)[q], hintsResolve, docstring)
  {
    if k > 0 {
      ParamInfosKept(ps, hintsResolve, docstring, k - 1);
      var prev := ParamInfos(ps, hintsResolve, docstring, k - 1);
      var kept := Kept(ps, k - 1);
      var p := ps[k - 1];
      if p.name != "self" && p.name != "cls" {
        assert ParamInfos(ps, hintsResolve, docstring, k) == prev + [ParamInfo(p, hintsResolve, docstring)];
        assert Kept(ps, k) == kept + [p];
        forall q | 0 <= q < |prev| + 1
          ensures (prev + [ParamInfo(p, hintsResolve, docstring)])[q] == ParamInfo((kept + [p])[q], hintsResolve, docstring)
        {
          if q < |prev| {
            assert (kept + [p])[q] == kept[q];
          }
        }
      } else {
        assert ParamInfos(ps, hintsResolve, docstring, k) == prev;
        assert Kept(ps, k) == kept;
      }
    }
  }

  /** A ParameterInfo carries the parameter's name, its default (None when
      absent), `has_default` exactly when it has one, and its description
      from the docstring. */
  lemma ParamInfoFields(p: Param, hintsResolve: bool, docstring: string)
    ensures var info := ParamInfo(p, hintsResolve, docstring);
      info.name == p.name
      && info.hasDefault == p.default.Some?
      && (p.default.Some? ==> info.default == p.default.value)
      && (p.default.None? ==> info.default == NoneValue)
      && info.description == ParamDescription(docstring, p.name)
      && |info.description| <= 200
  {
    ParamDescriptionBounded(docstring, p.name);
  }

  /** Descriptions never exceed 200 characters. */
  lemma ParamDescriptionBounded(docstring: string, name: string)
    ensures |ParamDescription(docstring, name)| <= 200
  {
    if docstring != "" {
      ScanBounded(Split(docstring, '\n'), name, 0, false);
    }
  }

  lemma {:induction false} ScanBounded(lines: seq<string>, name: string, i: nat, inParams: bool)
    ensures |Scan(lines, name, i, inParams)| <= 200
    decreases |lines| - i
  {
    if i < |lines| {
      ScanBounded(lines, name, i + 1, true);
      ScanBounded(lines, name, i + 1, false);
    }
  }

  // ------------------------------------------------------------ one class

  /** Whether the member is exposed at all: a callable attribute whose name
      matches a query prefix, is always included, or is a classmethod or
      staticmethod. */
  predicate Wanted(m: Member)
    requires m.wrapped.Ok?
  {
    MatchesPrefix(m.name) || m.name in AlwaysInclude || m.wrapped.value
  }

  /** The loop body of `introspect_class` for one member of `dir(cls)`. */
  function StepOf(moduleName: string, className: string, m: Member): Step {
    if !Public(m.name) then Skip
    else match m.lookup
      case Raises(_) => Abort
      case Missing => Skip
      case Found(isCallable, _) =>
        if !isCallable then Skip
        else if m.wrapped.Err? then Abort
        else if !Wanted(m) then Skip
        else if m.signature.None? then Skip
        else
          var sig := m.signature.value;
          Emit(FunctionInfo(
            moduleName, className, m.name, FullName(moduleName, m.name),
            Description(className, m.name, m.docstring),
            ParamInfos(sig, m.hintsResolve, m.docstring, |sig|)))
  }

  /** The loop body as a function of the member alone. */
  function Stepper(moduleName: string, className: string): Member -> Step {
    m => StepOf(moduleName, className, m)
  }

  /** The functions collected from `ms[..k]`, and whether an exception
      escaped the loop (which keeps what was collected so far). */
  function Introspect(step: Member -> Step, ms: seq<Member>, k: nat): (seq<FunctionInfo>, bool)
    requires k <= |ms|
  {
    if k == 0 then ([], false)
    else
      var prev := Introspect(step, ms, k - 1);
      if prev.1 then prev
      else match step(ms[k - 1])
        case Abort => (prev.0, true)
        case Skip => prev
        case Emit(f) => (prev.0 + [f], false)
  }

  /** `introspect_class(module_name, class_path)` as a value: nothing when
      the class cannot be imported. */
  function IntrospectClassSpec(resolve: Resolver, moduleName: string, classPath: string): seq<FunctionInfo> {
    match resolve(classPath)
    case Err(_) => []
    case Ok(c) => Introspect(Stepper(moduleName, ClassName(classPath)), c.members, |c.members|).0
  }

  /** Once an exception has escaped, nothing more is collected. */
  lemma {:induction false} AbortPersists(step: Member -> Step, ms: seq<Member>, k: nat, n: nat)
    requires k <= n <= |ms| && Introspect(step, ms, k).1
    ensures Introspect(step, ms, n) == Introspect(step, ms, k)
    decreases n - k
  {
    if k < n {
      AbortPersists(step, ms, k, n - 1);
    }
  }

  /** `introspect_class`: the loop over `dir(cls)` with its filters, the
      signature and docstring reading, and the outer handler that keeps the
      functions found before an exception. */
  method IntrospectClass(resolve: Resolver, moduleName: string, classPath: string) returns (functions: seq<FunctionInfo>)
    ensures functions == IntrospectClassSpec(resolve, moduleName, classPath)
  {
    functions := [];
    var cls := resolve(classPath);
    if cls.Err? {
      return;
    }
    var className := ClassName(classPath);
    var ms := cls.value.members;
    for k := 0 to |ms|
      invariant Introspect(Stepper(moduleName, className), ms, k) == (functions, false)
    {
      var m := ms[k];
      if StartsWith(m.name, "_") || m.name in SkipMethods {
        continue;
      }
      if m.lookup.Raises? {
        AbortPersists(Stepper(moduleName, className), ms, k + 1, |ms|);
        return;
      }
      if m.lookup.Missing? || !m.lookup.isCallable {
        continue;
      }
      var matchesPrefix := MatchesPrefix(m.name);
      var isSpecial := m.name in AlwaysInclude;
      if m.wrapped.Err? {
        AbortPersists(Stepper(moduleName, className), ms, k + 1, |ms|);
        return;
      }
      var isUsefulClassMethod := m.wrapped.value;
      if !(matchesPrefix || isSpecial || isUsefulClassMethod) {
        continue;
      }
      if m.signature.None? {
        continue;
      }
      var params := BuildParameters(m.signature.value, m.hintsResolve, m.docstring);
      var description := if m.docstring != "" then Split(m.docstring, '\n')[0] else className + "." + m.name;
      var info := FunctionInfo(moduleName, className, m.name, moduleName + "_" + m.name, description, params);
      functions := functions + [info];
    }
  }

  /** The functions an uninterrupted scan of `ms` emits, in order. */
  function Emitted(step: Member -> Step, ms: seq<Member>): seq<FunctionInfo> {
    if |ms| == 0 then []
    else
      var prev := Emitted(step, ms[..|ms| - 1]);
      match step(ms[|ms| - 1])
      case Emit(f) => prev + [f]
      case _ => prev
  }

  /** Index of the first member whose inspection raises, or `|ms|`. */
  function FirstAbort(step: Member -> Step, ms: seq<Member>): (a: nat)
    ensures a <= |ms|
    ensures forall j :: 0 <= j < a ==> !step(ms[j]).Abort?
    ensures a < |ms| ==> step(ms[a]).Abort?
  {
    if |ms| == 0 then 0
    else if step(ms[0]).Abort? then 0
    else 1 + FirstAbort(step, ms[1..])
  }

  /** The collected functions are exactly what the members before the first
      raising one emit, and the flag says whether one raised. */
  lemma {:induction false} IntrospectPrefix(step: Member -> Step, ms: seq<Member>, k: nat)
    requires k <= |ms|
    ensures var a := FirstAbort(step, ms);
      Introspect(step, ms, k)
        == if k <= a then (Emitted(step, ms[..k]), false)
           else (Emitted(step, ms[..a]), true)
  {
    var a := FirstAbort(step, ms);
    if k > 0 {
      IntrospectPrefix(step, ms, k - 1);
      assert ms[..k][..k - 1] == ms[..k - 1];
    }
  }

  /** `introspect_class` returns what the members before the first raising
      one emit, in `dir()` order. */
  lemma IntrospectClassEmits(resolve: Resolver, moduleName: string, classPath: string)
    requires resolve(classPath).Ok?
    ensures var ms := resolve(classPath).value.members;
      IntrospectClassSpec(resolve, moduleName, classPath)
        == Emitted(Stepper(moduleName, ClassName(classPath)), ms[..FirstAbort(Stepper(moduleName, ClassName(classPath)), ms)])
  {
    var ms := resolve(classPath).value.members;
    IntrospectPrefix(Stepper(moduleName, ClassName(classPath)), ms, |ms|);
    assert ms[..|ms|] == ms;
  }

  /** Everything emitted comes from a public member that passed the filters:
      it belongs to the module, is named `<module>_<method>`, and its method
      is one of the members. */
  lemma {:induction false} EmittedSelected(moduleName: string, className: string, ms: seq<Member>)
    ensures forall f | f in Emitted(Stepper(moduleName, className), ms) ::
      f.moduleName == moduleName && f.className == className
      && f.fullName == FullName(moduleName, f.methodName) && Public(f.methodName)
      && exists j :: 0 <= j < |ms| && ms[j].name == f.methodName && StepOf(moduleName, className, ms[j]) == Emit(f)
  {
    if |ms| > 0 {
      var init := ms[..|ms| - 1];
      EmittedSelected(moduleName, className, init);
      forall f | f in Emitted(Stepper(moduleName, className), ms)
        ensures exists j :: 0 <= j < |ms| && ms[j].name == f.methodName && StepOf(moduleName, className, ms[j]) == Emit(f)
      {
        if f in Emitted(Stepper(moduleName, className), init) {
          var j :| 0 <= j < |init| && init[j].name == f.methodName && StepOf(moduleName, className, init[j]) == Emit(f);
          assert ms[j] == init[j];
        } else {
          assert StepOf(moduleName, className, ms[|ms| - 1]) == Emit(f);
        }
      }
    }
  }

  /** An emitted member is wanted: callable and matching a prefix, always
      included, or a classmethod or staticmethod, with a signature. */
  lemma EmitWanted(moduleName: string, className: string, m: Member)
    requires StepOf(moduleName, className, m).Emit?
    ensures Public(m.name) && m.lookup.Found? && m.lookup.isCallable && m.wrapped.Ok? && Wanted(m) && m.signature.Some?
    ensures var f := StepOf(moduleName, className, m).info;
      f.methodName == m.name
      && |f.parameters| == |Kept(m.signature.value, |m.signature.value|)|
      && (m.docstring == "" ==> f.description == className + "." + m.name)
  {
    ParamInfosKept(m.signature.value, m.hintsResolve, m.docstring, |m.signature.value|);
  }

  predicate DistinctMemberNames(ms: seq<Member>) {
    forall i, j :: 0 <= i < j < |ms| ==> ms[i].name != ms[j].name
  }

  predicate DistinctFullNames(fs: seq<FunctionInfo>) {
    forall i, j :: 0 <= i < j < |fs| ==> fs[i].fullName != fs[j].fullName
  }

  /** Within one module, distinct member names give distinct tool names. */
  lemma {:induction false} EmittedDistinct(moduleName: string, className: string, ms: seq<Member>)
    requires DistinctMemberNames(ms)
    ensures DistinctFullNames(Emitted(Stepper(moduleName, className), ms))
  {
    if |ms| > 0 {
      var init := ms[..|ms| - 1];
      var last := ms[|ms| - 1];
      EmittedDistinct(moduleName, className, init);
      var prev := Emitted(Stepper(moduleName, className), init);
      var step := StepOf(moduleName, className, last);
      if step.Emit? {
        var f := step.info;
        assert f.methodName == last.name && f.fullName == FullName(moduleName, last.name);
        EmittedSelected(moduleName, className, init);
        forall i | 0 <= i < |prev| ensures prev[i].fullName != f.fullName {
          assert prev[i] in prev;
          var j :| 0 <= j < |init| && init[j].name == prev[i].methodName && StepOf(moduleName, className, init[j]) == Emit(prev[i]);
          assert ms[j] == init[j];
          if prev[i].fullName == f.fullName {
            FullNameInjective(moduleName, prev[i].methodName, f.methodName);
          }
        }
        AppendDistinct(prev, f);
      }
    }
  }

  lemma AppendDistinct(prev: seq<FunctionInfo>, f: FunctionInfo)
    requires DistinctFullNames(prev)
    requires forall i :: 0 <= i < |prev| ==> prev[i].fullName != f.fullName
    ensures DistinctFullNames(prev + [f])
  {
    var fs := prev + [f];
    forall i, j | 0 <= i < j < |fs| ensures fs[i].fullName != fs[j].fullName {
      assert fs[i] == prev[i];
      if j < |prev| {
        assert fs[j] == prev[j];
      }
    }
  }

  /** Tool names of one module determine the method. */
  lemma FullNameInjective(moduleName: string, a: string, b: string)
    requires FullName(moduleName, a) == FullName(moduleName, b)
    ensures a == b
  {
    var n := |moduleName| + 1;
    assert a == FullName(moduleName, a)[n..];
    assert b == FullName(moduleName, b)[n..];
  }

  /** Across modules the naming is not injective: "mast_catalogs" exposing
      "query_region" and "mast" exposing "catalogs_query_region" would both
      be called "mast_catalogs_query_region". */
  lemma FullNameCollision()
    ensures FullName("mast", "catalogs_query_region") == FullName("mast_catalogs", "query_region")
    ensures "catalogs_query_region" != "query_region"
  {
  }

  /** `dir()` lists each name once, so one module's tool names are
      distinct. */
  lemma IntrospectClassDistinct(resolve: Resolver, moduleName: string, classPath: string)
    requires resolve(classPath).Ok? ==> DistinctMemberNames(resolve(classPath).value.members)
    ensures DistinctFullNames(IntrospectClassSpec(resolve, moduleName, classPath))
  {
    if resolve(classPath).Ok? {
      var ms := resolve(classPath).value.members;
      var a := FirstAbort(Stepper(moduleName, ClassName(classPath)), ms);
      IntrospectClassEmits(resolve, moduleName, classPath);
      EmittedDistinct(moduleName, ClassName(classPath), ms[..a]);
    }
  }

  // ------------------------------------------------------------ all modules

  /** Each configured module with what `introspect_class` gives for it. */
  function Introspected(resolve: Resolver, modules: seq<(string, string)>): seq<(string, seq<FunctionInfo>)> {
    seq(|modules|, j requires 0 <= j < |modules| => (modules[j].0, IntrospectClassSpec(resolve, modules[j].0, modules[j].1)))
  }

  /** The entries of `found[..k]` with a non-empty list, in order. */
  function NonEmpty(found: seq<(string, seq<FunctionInfo>)>, k: nat): seq<(string, seq<FunctionInfo>)>
    requires k <= |found|
  {
    if k == 0 then []
    else
      var prev := NonEmpty(found, k - 1);
      if |found[k - 1].1| > 0 then prev + [found[k - 1]] else prev
  }

  /** `discover_all_functions()` as a value. */
  function Discover(resolve: Resolver): seq<(string, seq<FunctionInfo>)> {
    var found := Introspected(resolve, Modules);
    NonEmpty(found, |found|)
  }

  /** `discover_all_functions` */
  method DiscoverAllFunctions(resolve: Resolver) returns (all: seq<(string, seq<FunctionInfo>)>)
    ensures all == Discover(resolve)
  {
    var modules := Modules;
    ghost var found := Introspected(resolve, modules);
    all := [];
    for k := 0 to |modules|
      invariant all == NonEmpty(found, k)
    {
      var (moduleName, classPath) := modules[k];
      var functions := IntrospectClass(resolve, moduleName, classPath);
      assert found[k] == (moduleName, functions);
      if |functions| > 0 {
        all := all + [(moduleName, functions)];
      }
    }
  }

  /** Discovery keeps exactly the modules whose introspection found
      something: every kept entry is one of them, and none of them is
      dropped. */
  lemma {:induction false} NonEmptyExactly(found: seq<(string, seq<FunctionInfo>)>, k: nat)
    requires k <= |found|
    ensures forall e :: e in NonEmpty(found, k) <==> e in found[..k] && |e.1| > 0
  {
    if k > 0 {
      NonEmptyExactly(found, k - 1);
      assert found[..k] == found[..k - 1] + [found[k - 1]];
    }
  }

  /** The discovered modules are configured modules with a non-empty list of
      functions, each list being what introspection gives for that module,
      and no module with functions is missing. */
  lemma DiscoverEntries(resolve: Resolver)
    ensures forall e | e in Discover(resolve) ::
      |e.1| > 0 && exists j :: 0 <= j < |Modules| && e == (Modules[j].0, IntrospectClassSpec(resolve, Modules[j].0, Modules[j].1))
    ensures forall j | 0 <= j < |Modules| && |IntrospectClassSpec(resolve, Modules[j].0, Modules[j].1)| > 0 ::
      (Modules[j].0, IntrospectClassSpec(resolve, Modules[j].0, Modules[j].1)) in Discover(resolve)
  {
    var found := Introspected(resolve, Modules);
    NonEmptyExactly(found, |found|);
    assert found[..|found|] == found;
    forall e | e in Discover(resolve)
      ensures exists j :: 0 <= j < |Modules| && e == (Modules[j].0, IntrospectClassSpec(resolve, Modules[j].0, Modules[j].1))
    {
      var j :| 0 <= j < |found| && found[j] == e;
    }
    forall j | 0 <= j < |Modules| && |IntrospectClassSpec(resolve, Modules[j].0, Modules[j].1)| > 0
      ensures (Modules[j].0, IntrospectClassSpec(resolve, Modules[j].0, Modules[j].1)) in Discover(resolve)
    {
      assert found[j] in found;
    }
  }

  /** All discovered functions, module by module. */
  function Flatten(all: seq<(string, seq<FunctionInfo>)>): seq<FunctionInfo> {
    if |all| == 0 then [] else all[0].1 + Flatten(all[1..])
  }

  /** The first function whose `field` is `name`: the search loops of
      `get_function_by_name` (by full name) and `get_function_info` (by
      method name) both stop there. */
  function FirstWith(fs: seq<FunctionInfo>, field: FunctionInfo -> string, name: string): (r: Option<FunctionInfo>)
    ensures r.Some? ==> r.value in fs && field(r.value) == name
    ensures r.None? <==> forall f | f in fs :: field(f) != name
  {
    if |fs| == 0 then None
    else if field(fs[0]) == name then Some(fs[0])
    else FirstWith(fs[1..], field, name)
  }

  function FullNameOf(f: FunctionInfo): string {
    f.fullName
  }

  /** `get_function_by_name(full_name)`: rediscover everything and return
      the first function with that name, modules in table order. */
  method GetFunctionByName(resolve: Resolver, fullName: string) returns (r: Option<FunctionInfo>)
    ensures r == FirstWith(Flatten(Discover(resolve)), FullNameOf, fullName)
  {
    var all := DiscoverAllFunctions(resolve);
    r := FindByName(all, fullName);
  }

  /** The nested search loop of `get_function_by_name`. */
  method FindByName(all: seq<(string, seq<FunctionInfo>)>, fullName: string) returns (r: Option<FunctionInfo>)
    ensures r == FirstWith(Flatten(all), FullNameOf, fullName)
  {
    for m := 0 to |all|
      invariant FirstWith(Flatten(all), FullNameOf, fullName) == FirstWith(Flatten(all[m..]), FullNameOf, fullName)
    {
      var fs := all[m].1;
      assert Flatten(all[m..]) == fs + Flatten(all[m + 1..]);
      for q := 0 to |fs|
        invariant FirstWith(Flatten(all), FullNameOf, fullName) == FirstWith(fs[q..] + Flatten(all[m + 1..]), FullNameOf, fullName)
      {
        var rest := fs[q..] + Flatten(all[m + 1..]);
        assert rest[0] == fs[q] && rest[1..] == fs[q + 1..] + Flatten(all[m + 1..]);
        if fs[q].fullName == fullName {
          return Some(fs[q]);
        }
      }
      assert fs[|fs|..] + Flatten(all[m + 1..]) == Flatten(all[m + 1..]);
    }
    return None;
  }

  /** A function is among the discovered ones exactly when some module's
      list holds it. */
  lemma {:induction false} FlattenContains(all: seq<(string, seq<FunctionInfo>)>, f: FunctionInfo)
    ensures f in Flatten(all) <==> exists e :: e in all && f in e.1
  {
    if |all| > 0 {
      FlattenContains(all[1..], f);
      if f in Flatten(all[1..]) {
        var e :| e in all[1..] && f in e.1;
        assert e in all;
      }
      forall e | e in all && f in e.1 ensures f in Flatten(all) {
        if e != all[0] {
          var j :| 0 <= j < |all| && all[j] == e;
          assert all[1..][j - 1] == e;
        }
      }
    }
  }

  /** The prefix test also accepts a prefix's bare stem ("query",
      "cone_search"), not only names that extend it. */
  lemma PrefixStems()
    ensures MatchesPrefix("query") && MatchesPrefix("cone_search") && MatchesPrefix("query_object")
  {
    assert RStripUnderscore(QueryPrefixes[0]) == "query";
    assert RStripUnderscore(QueryPrefixes[7]) == "cone_search";
    assert StartsWith("query_object", QueryPrefixes[0]);
  }
}
