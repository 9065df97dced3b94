/**
 * The context-efficient ADS tools of `ads_tools.py`: field presets, the
 * filter that cuts an ADS result table down to a few fields per paper
 * (shortening abstracts and author lists), the compact query that resolves
 * a preset and filters, and the single-paper lookup.
 *
 * The ADS search itself is not performed: each tool receives its outcome
 * (the result table, `None`, or the exception raised) as a parameter, and
 * whether `astroquery.nasa_ads` could be imported as another.
 */
module AdsCompact {
  import opened Wrappers
  import opened Strings
  import opened Py
  import opened Dicts
  import opened Errors
  import opened Exceptions
  import opened ToolCommon
  import opened TableUtils

  // ---------------------------------------------------------------- presets

  const Minimal: seq<string> := ["bibcode", "title", "first_author", "year", "citation_count"]

  const Standard: seq<string> :=
    ["bibcode", "title", "first_author", "author", "year", "pubdate", "citation_count", "doi", "pub", "abstract"]

  const Extended: seq<string> :=
    ["bibcode", "title", "first_author", "author", "year", "pubdate", "citation_count", "doi", "pub",
     "volume", "page", "keyword", "abstract"]

  /** The preset names, in their order in FieldPresets. */
  const PresetNames: seq<string> := ["minimal", "standard", "extended", "full"]

  /** `FIELD_PRESETS`: "full" has no field list and means every column. */
  const FieldPresets: seq<(string, Option<seq<string>>)> :=
    [("minimal", Some(Minimal)), ("standard", Some(Standard)), ("extended", Some(Extended)), ("full", None)]

  /** The presets nest, minimal within standard within extended, with 5, 10
      and 13 fields; "full" selects no list. */
  lemma PresetsNest()
    ensures |Minimal| == 5 && |Standard| == 10 && |Extended| == 13
    ensures forall f :: f in Minimal ==> f in Standard
    ensures forall f :: f in Standard ==> f in Extended
    ensures Keys(FieldPresets) == PresetNames
    ensures Get(FieldPresets, "minimal") == Some(Some(Minimal))
    ensures Get(FieldPresets, "standard") == Some(Some(Standard))
    ensures Get(FieldPresets, "extended") == Some(Some(Extended))
    ensures Get(FieldPresets, "full") == Some(None)
  {
    GetAt(FieldPresets, 1);
    GetAt(FieldPresets, 2);
    GetAt(FieldPresets, 3);
  }

  // ---------------------------------------------------------------- one cell

  /** `max_authors` is given and non-zero. */
  predicate Capped(maxAuthors: Option<int>) {
    maxAuthors.Some? && maxAuthors.value != 0
  }

  /** The fields whose rule asks for the truth of the cell first: the
      abstract under a positive limit and the authors under a cap. */
  predicate TruthTested(field: string, truncateAbstract: int, maxAuthors: Option<int>) {
    (field == "abstract" && truncateAbstract > 0) || (field == "author" && Capped(maxAuthors))
  }

  /** The entry that stands for the authors left out. */
  function AuthorsNote(extra: int): Value {
    Str("... and " + IntToString(extra) + " more")
  }

  /** `value.item()` for an object with exactly one element. */
  function Item(v: Value): Value {
    match v
    case NdArray(elems) => if |elems| == 1 then ToPython(elems[0]) else v
    case _ => ToPython(v)
  }

  /** The abstract rule: a list gives its first element, and a string
      longer than the limit keeps its first `truncateAbstract` characters
      and gains "...". */
  function AbstractCell(value: Value, truncateAbstract: int): Value
    requires truncateAbstract > 0
  {
    var v := if value.List? then (if |value.items| > 0 then value.items[0] else Str("")) else value;
    if v.Str? && |v.s| > truncateAbstract then Str(v.s[..truncateAbstract] + "...") else v
  }

  /** The author rule: a longer list keeps its first `maxAuthors` entries
      and ends with a note counting the others. */
  function AuthorCell(value: Value, maxAuthors: int): Value {
    if value.List? && |value.items| > maxAuthors then
      List(Prefix(value.items, maxAuthors) + [AuthorsNote(|value.items| - maxAuthors)])
    else value
  }

  /** The remaining rules: numpy values inside lists become text, the
      masked constant None, one-element numpy values Python scalars and
      larger arrays lists. */
  function PlainCell(value: Value): Value {
    if value.List? then
      List(seq(|value.items|, i requires 0 <= i < |value.items| =>
        var x := value.items[i];
        if HasItem(x) then Str(Show(x)) else x))
    else if value.Masked? then NoneValue
    else if HasItem(value) && (!value.NdArray? || |value.elems| == 1) then Item(value)
    else if value.NdArray? then ToPython(value)
    else value
  }

  /** What `filter_ads_result` stores for `field` when the row holds `value`:
      abstracts are shortened and author lists capped when they are truthy,
      and numpy values turned into Python ones. Asking for the truth of the
      cell raises numpy's ValueError for an array of several elements, so
      the abstract and author rules fail exactly on such cells. */
  function CellValue(field: string, value: Value, truncateAbstract: int, maxAuthors: Option<int>): (r: Outcome<Value>)
    ensures r.Err? <==> TruthTested(field, truncateAbstract, maxAuthors) && Ambiguous(value)
    ensures r.Err? ==> r.error == Builtin(ValueError, AmbiguousTruth)
    ensures r.Ok? && !(TruthTested(field, truncateAbstract, maxAuthors) && Truthy(value)) ==> r.value == PlainCell(value)
  {
    if field == "abstract" && truncateAbstract > 0 then
      match Truth(value)
      case Err(e) => Err(e)
      case Ok(present) => Ok(if present then AbstractCell(value, truncateAbstract) else PlainCell(value))
    else if field == "author" && Capped(maxAuthors) then
      match Truth(value)
      case Err(e) => Err(e)
      case Ok(present) => Ok(if present then AuthorCell(value, maxAuthors.value) else PlainCell(value))
    else Ok(PlainCell(value))
  }

  /** A string abstract longer than the limit keeps its first
      `truncateAbstract` characters and gains "...". */
  lemma AbstractTruncated(s: string, truncateAbstract: int, maxAuthors: Option<int>)
    requires 0 < truncateAbstract < |s|
    ensures var r := CellValue("abstract", Str(s), truncateAbstract, maxAuthors);
      r.Ok? && r.value.Str? && |r.value.s| == truncateAbstract + 3
      && StartsWith(r.value.s, s[..truncateAbstract]) && EndsWith(r.value.s, "...")
  {
    var r := s[..truncateAbstract] + "...";
    assert r[..truncateAbstract] == s[..truncateAbstract];
    assert r[|r| - 3..] == "...";
  }

  /** A string abstract within the limit is kept as it is. */
  lemma AbstractShort(s: string, truncateAbstract: int, maxAuthors: Option<int>)
    requires 0 < truncateAbstract && |s| <= truncateAbstract
    ensures CellValue("abstract", Str(s), truncateAbstract, maxAuthors) == Ok(Str(s))
  {
  }

  /** A list-valued abstract is replaced by its first element, itself
      shortened when it is a long string. */
  lemma AbstractList(items: seq<Value>, truncateAbstract: int, maxAuthors: Option<int>)
    requires 0 < truncateAbstract && |items| > 0
    ensures var first := items[0];
      CellValue("abstract", List(items), truncateAbstract, maxAuthors)
        == Ok(if first.Str? && |first.s| > truncateAbstract then Str(first.s[..truncateAbstract] + "...") else first)
  {
  }

  /** A list of more than `max_authors` authors keeps the first ones and
      ends with a note counting the others. */
  lemma AuthorsCapped(items: seq<Value>, truncateAbstract: int, maxAuthors: int)
    requires 0 < maxAuthors < |items|
    ensures var r := CellValue("author", List(items), truncateAbstract, Some(maxAuthors));
      r.Ok? && r.value.List? && |r.value.items| == maxAuthors + 1
      && r.value.items[..maxAuthors] == items[..maxAuthors]
      && r.value.items[maxAuthors] == AuthorsNote(|items| - maxAuthors)
  {
    var r := Prefix(items, maxAuthors) + [AuthorsNote(|items| - maxAuthors)];
    assert r[..maxAuthors] == items[..maxAuthors];
  }

  /** Without a cap, or within it, the author list is left alone. */
  lemma AuthorsKept(items: seq<Value>, truncateAbstract: int, maxAuthors: Option<int>)
    requires |items| > 0
    requires Capped(maxAuthors) && 0 < maxAuthors.value && |items| <= maxAuthors.value
    ensures CellValue("author", List(items), truncateAbstract, maxAuthors) == Ok(List(items))
  {
  }

  /** An abstract or author array of several elements, under a limit or a
      cap, raises numpy's ValueError; a one-element array is judged by its
      element. */
  lemma ArrayCells(field: string, elems: seq<Value>, truncateAbstract: int, maxAuthors: Option<int>)
    requires TruthTested(field, truncateAbstract, maxAuthors)
    ensures |elems| >= 2 ==>
      CellValue(field, NdArray(elems), truncateAbstract, maxAuthors) == Err(Builtin(ValueError, AmbiguousTruth))
    ensures |elems| == 1 && !Ambiguous(elems[0]) && !Truthy(elems[0]) ==>
      CellValue(field, NdArray(elems), truncateAbstract, maxAuthors) == Ok(PlainCell(NdArray(elems)))
  {
  }

  /** Outside the abstract and author rules, numpy scalars become Python
      scalars, the masked constant becomes None, and plain Python scalars
      are kept. */
  lemma OtherCells(field: string, value: Value, truncateAbstract: int, maxAuthors: Option<int>)
    requires field != "abstract" && field != "author"
    ensures value.NpInt? ==> CellValue(field, value, truncateAbstract, maxAuthors) == Ok(Int(value.i))
    ensures value.NpFloat? ==> CellValue(field, value, truncateAbstract, maxAuthors) == Ok(Float(value.d))
    ensures value.NpBool? ==> CellValue(field, value, truncateAbstract, maxAuthors) == Ok(Bool(value.b))
    ensures value.Masked? ==> CellValue(field, value, truncateAbstract, maxAuthors) == Ok(NoneValue)
    ensures value.NoneValue? || value.Bool? || value.Int? || value.Float? || value.Str? ==>
      CellValue(field, value, truncateAbstract, maxAuthors) == Ok(value)
  {
  }

  // ---------------------------------------------------------------- fields

  /** The requested fields present in the result, in requested order; all
      columns when none was requested or none is present. */
  function KeptFields(fields: Option<seq<string>>, available: seq<string>): (kept: seq<string>)
    ensures forall f :: f in kept ==> f in available
  {
    if fields.Some? && |fields.value| > 0 then
      var kept := Filter(fields.value, f => f in available);
      if |kept| > 0 then kept else available
    else available
  }

  predicate Distinct(xs: seq<string>) {
    forall i, j :: 0 <= i < j < |xs| ==> xs[i] != xs[j]
  }

  lemma {:induction false} FilterDistinct(xs: seq<string>, keep: string -> bool)
    requires Distinct(xs)
    ensures Distinct(Filter(xs, keep))
  {
    if |xs| > 0 {
      FilterDistinct(xs[1..], keep);
      var rest := Filter(xs[1..], keep);
      assert forall j :: 0 <= j < |xs[1..]| ==> xs[1..][j] == xs[j + 1];
      assert xs[0] !in rest;
    }
  }

  /** The kept fields are all columns of the result; when a requested field
      is present they are exactly the requested ones present, otherwise all
      columns. Distinct requests over distinct columns stay distinct. */
  lemma KeptFieldsSpec(fields: Option<seq<string>>, available: seq<string>)
    ensures var kept := KeptFields(fields, available);
      (forall f :: f in kept ==> f in available)
      && ((fields.Some? && exists f :: f in fields.value && f in available) ==>
            forall f :: f in kept <==> f in fields.value && f in available)
      && (!(fields.Some? && exists f :: f in fields.value && f in available) ==> kept == available)
      && (Distinct(available) && (fields.None? || Distinct(fields.value)) ==> Distinct(kept))
  {
    var keep := f => f in available;
    if fields.Some? && |fields.value| > 0 {
      var k := Filter(fields.value, keep);
      if |k| > 0 {
        assert k[0] in k;
      }
      if exists f :: f in fields.value && f in available {
        var f :| f in fields.value && f in available;
        assert f in k;
      }
      if Distinct(fields.value) {
        FilterDistinct(fields.value, keep);
      }
    }
  }

  // ---------------------------------------------------------------- records

  /** The converted cells of one row, in kept-field order. */
  function Cells(t: Table, row: nat, kept: seq<string>, truncateAbstract: int, maxAuthors: Option<int>): seq<Outcome<Value>>
    requires forall f :: f in kept ==> f in ColNames(t)
  {
    seq(|kept|, i requires 0 <= i < |kept| => CellValue(kept[i], RowValue(t, row, kept[i]), truncateAbstract, maxAuthors))
  }

  /** The dict built for one row: `paper[field] = value` for each kept
      field, until a cell raises. */
  function Paper(t: Table, row: nat, kept: seq<string>, truncateAbstract: int, maxAuthors: Option<int>)
      : (r: Outcome<seq<(string, Value)>>)
    requires forall f :: f in kept ==> f in ColNames(t)
    ensures r.Err? ==> r.error == Builtin(ValueError, AmbiguousTruth)
  {
    var cells := Cells(t, row, kept, truncateAbstract, maxAuthors);
    CollectError(kept, cells, |kept|);
    Collect(kept, cells, |kept|)
  }

  /** A paper is built exactly when none of its cells raises; it then has
      exactly the kept fields as keys, each holding its cell converted. */
  lemma PaperFields(t: Table, row: nat, kept: seq<string>, truncateAbstract: int, maxAuthors: Option<int>)
    requires forall f :: f in kept ==> f in ColNames(t)
    requires Distinct(kept)
    ensures var p := Paper(t, row, kept, truncateAbstract, maxAuthors);
      (p.Ok? <==> forall i :: 0 <= i < |kept| ==>
                    !(TruthTested(kept[i], truncateAbstract, maxAuthors) && Ambiguous(RowValue(t, row, kept[i]))))
      && (p.Ok? ==>
            Keys(p.value) == kept
            && forall i :: 0 <= i < |kept| ==>
                 CellValue(kept[i], RowValue(t, row, kept[i]), truncateAbstract, maxAuthors).Ok?
                 && Get(p.value, kept[i]) == Some(CellValue(kept[i], RowValue(t, row, kept[i]), truncateAbstract, maxAuthors).value))
  {
    var cells := Cells(t, row, kept, truncateAbstract, maxAuthors);
    CollectAllOk(kept, cells, |kept|);
    if Collect(kept, cells, |kept|).Ok? {
      var p := Collect(kept, cells, |kept|).value;
      CollectKeys(kept, cells, |kept|);
      assert kept[..|kept|] == kept;
      forall i | 0 <= i < |kept|
        ensures cells[i].Ok? && Get(p, kept[i]) == Some(cells[i].value)
      {
        CollectValues(kept, cells, |kept|, i);
      }
    }
  }

  /** `[Dict(paper(i)) for i in range(n)]`: the first row whose paper
      raises aborts the list. */
  function Records(paper: nat -> Outcome<seq<(string, Value)>>, n: nat): (r: Outcome<seq<Value>>)
    ensures r.Ok? ==> |r.value| == n
  {
    if n == 0 then Ok([])
    else match Records(paper, n - 1)
      case Err(e) => Err(e)
      case Ok(done) =>
        match paper(n - 1)
        case Err(e) => Err(e)
        case Ok(p) => Ok(done + [Dict(p)])
  }

  /** The records are built exactly when each row's paper is, and are then
      those papers in row order. */
  lemma {:induction false} RecordsOk(paper: nat -> Outcome<seq<(string, Value)>>, n: nat)
    ensures var r := Records(paper, n);
      (r.Ok? <==> forall i :: 0 <= i < n ==> paper(i).Ok?)
      && (r.Ok? ==> forall i :: 0 <= i < n ==> r.value[i] == Dict(paper(i).value))
  {
    if n > 0 {
      RecordsOk(paper, n - 1);
    }
  }

  /** Failed records fail with the error of one of the rows' papers. */
  lemma {:induction false} RecordsError(paper: nat -> Outcome<seq<(string, Value)>>, n: nat)
    ensures Records(paper, n).Err? ==> exists i :: 0 <= i < n && paper(i) == Err(Records(paper, n).error)
  {
    if n > 0 && Records(paper, n - 1).Err? {
      RecordsError(paper, n - 1);
    }
  }

  /** A row whose paper fails makes every longer list fail with its error. */
  lemma {:induction false} RecordsFailFrom(paper: nat -> Outcome<seq<(string, Value)>>, row: nat, n: nat)
    requires row < n
    requires Records(paper, row).Ok? && paper(row).Err?
    ensures Records(paper, n) == Err(paper(row).error)
    decreases n
  {
    if n > row + 1 {
      RecordsFailFrom(paper, row, n - 1);
    }
  }

  /** Records depend only on the papers of their rows. */
  lemma {:induction false} RecordsSame(paper: nat -> Outcome<seq<(string, Value)>>,
                                       other: nat -> Outcome<seq<(string, Value)>>, n: nat)
    requires forall i :: 0 <= i < n ==> paper(i) == other(i)
    ensures Records(paper, n) == Records(other, n)
  {
    if n > 0 {
      RecordsSame(paper, other, n - 1);
    }
  }

  /** The paper of each row of `t`. */
  function RowPapers(t: Table, kept: seq<string>, truncateAbstract: int, maxAuthors: Option<int>)
      : nat -> Outcome<seq<(string, Value)>>
    requires forall f :: f in kept ==> f in ColNames(t)
  {
    (row: nat) => Paper(t, row, kept, truncateAbstract, maxAuthors)
  }

  /** The records of the first `n` rows; the first row with a cell that
      raises aborts the list, with numpy's ValueError. */
  function Papers(t: Table, kept: seq<string>, truncateAbstract: int, maxAuthors: Option<int>, n: nat)
      : (r: Outcome<seq<Value>>)
    requires forall f :: f in kept ==> f in ColNames(t)
    ensures r.Ok? ==> |r.value| == n
    ensures r.Err? ==> r.error == Builtin(ValueError, AmbiguousTruth)
  {
    RecordsError(RowPapers(t, kept, truncateAbstract, maxAuthors), n);
    Records(RowPapers(t, kept, truncateAbstract, maxAuthors), n)
  }

  /** The records of the first rows are built exactly when each of those
      rows' papers is, and are then those papers in row order. */
  lemma PapersOk(t: Table, kept: seq<string>, truncateAbstract: int, maxAuthors: Option<int>, n: nat)
    requires forall f :: f in kept ==> f in ColNames(t)
    ensures var r := Papers(t, kept, truncateAbstract, maxAuthors, n);
      (r.Ok? <==> forall i :: 0 <= i < n ==> Paper(t, i, kept, truncateAbstract, maxAuthors).Ok?)
      && (r.Ok? ==> forall i :: 0 <= i < n ==> r.value[i] == Dict(Paper(t, i, kept, truncateAbstract, maxAuthors).value))
  {
    var paper := RowPapers(t, kept, truncateAbstract, maxAuthors);
    RecordsOk(paper, n);
    forall i | 0 <= i < n ensures paper(i) == Paper(t, i, kept, truncateAbstract, maxAuthors) { }
  }

  // ---------------------------------------------------------------- filter_ads_result

  const NoResults: Value := Dict([("count", Int(0)), ("results", List([])), ("message", Str("No results found"))])

  /** `if max_results and len(result) > max_results` */
  predicate Truncates(n: nat, maxResults: Option<int>) {
    maxResults.Some? && maxResults.value != 0 && n > maxResults.value
  }

  /** The number of rows left of `n` once `max_results` is applied. */
  function Shown(n: nat, maxResults: Option<int>): (k: nat)
    ensures k <= n
  {
    if Truncates(n, maxResults) then SliceEnd(n, maxResults.value) else n
  }

  /** The result `filter_ads_result` returns or raises. */
  function Filtered(result: Option<Table>, fields: Option<seq<string>>, maxResults: Option<int>,
                    truncateAbstract: int, maxAuthors: Option<int>): (r: Outcome<Value>)
    ensures r.Ok? ==> r.value.Dict? && r.value.entries != []
    ensures r.Err? ==> r.error == Builtin(ValueError, AmbiguousTruth)
  {
    if NoRows(result) then Ok(NoResults)
    else
      var truncated := Truncates(NRows(result.value), maxResults);
      var t := if truncated then TableSlice(result.value, maxResults.value) else result.value;
      var kept := KeptFields(fields, ColNames(t));
      KeptFieldsSpec(fields, ColNames(t));
      match Papers(t, kept, truncateAbstract, maxAuthors, NRows(t))
      case Err(e) => Err(e)
      case Ok(papers) => Ok(Summary(papers, truncated, NRows(t), kept))
  }

  /** The dict returned around the records of `shown` rows. */
  function Summary(papers: seq<Value>, truncated: bool, shown: nat, kept: seq<string>): Value {
    Dict([("count", Int(|papers|)),
          ("total_found", if truncated then Str(NatToString(shown) + "+") else Int(shown)),
          ("truncated", Bool(truncated)),
          ("results", List(papers)),
          ("fields", StrList(kept))])
  }

  /** A summary has its five keys in order, counts its records, and reports
      the truncation flag, the total and the kept fields. */
  lemma SummaryFields(papers: seq<Value>, truncated: bool, shown: nat, kept: seq<string>)
    ensures var es := Summary(papers, truncated, shown, kept).entries;
      Keys(es) == ["count", "total_found", "truncated", "results", "fields"]
      && ResultsOf(Summary(papers, truncated, shown, kept)) == papers
      && Get(es, "count") == Some(Int(|papers|))
      && Get(es, "total_found") == Some(if truncated then Str(NatToString(shown) + "+") else Int(shown))
      && Get(es, "truncated") == Some(Bool(truncated))
      && Get(es, "fields") == Some(StrList(kept))
  {
    var es := Summary(papers, truncated, shown, kept).entries;
    GetAt(es, 1);
    GetAt(es, 2);
    GetAt(es, 3);
    GetAt(es, 4);
  }

  /** The row loop of `filter_ads_result`. */
  method PapersOf(t: Table, kept: seq<string>, truncateAbstract: int, maxAuthors: Option<int>)
      returns (results: Outcome<seq<Value>>)
    requires forall f :: f in kept ==> f in ColNames(t)
    ensures results == Papers(t, kept, truncateAbstract, maxAuthors, NRows(t))
  {
    var done: seq<Value> := [];
    for row := 0 to NRows(t)
      invariant Papers(t, kept, truncateAbstract, maxAuthors, row) == Ok(done)
    {
      var paper := PaperOfRow(t, row, kept, truncateAbstract, maxAuthors);
      if paper.Err? {
        RecordsFailFrom(RowPapers(t, kept, truncateAbstract, maxAuthors), row, NRows(t));
        return Err(paper.error);
      }
      done := done + [Dict(paper.value)];
    }
    return Ok(done);
  }

  /** The inner loop of `filter_ads_result`: one row's dict. */
  method PaperOfRow(t: Table, row: nat, kept: seq<string>, truncateAbstract: int, maxAuthors: Option<int>)
      returns (paper: Outcome<seq<(string, Value)>>)
    requires forall f :: f in kept ==> f in ColNames(t)
    ensures paper == Paper(t, row, kept, truncateAbstract, maxAuthors)
  {
    ghost var cells := Cells(t, row, kept, truncateAbstract, maxAuthors);
    var done: seq<(string, Value)> := [];
    for j := 0 to |kept|
      invariant Collect(kept, cells, j) == Ok(done)
    {
      var value := RowValue(t, row, kept[j]);
      var cell := CellValue(kept[j], value, truncateAbstract, maxAuthors);
      assert cells[j] == cell;
      if cell.Err? {
        CollectFails(kept, cells, j + 1, |kept|);
        return Err(cell.error);
      }
      done := Set(done, kept[j], cell.value);
    }
    return Ok(done);
  }

  method FilterAdsResult(result: Option<Table>, fields: Option<seq<string>>, maxResults: Option<int>,
                         truncateAbstract: int, maxAuthors: Option<int>) returns (r: Outcome<Value>)
    ensures r == Filtered(result, fields, maxResults, truncateAbstract, maxAuthors)
  {
    if result.None? || NRows(result.value) == 0 {
      return Ok(NoResults);
    }
    var t := result.value;
    var truncated := false;
    if maxResults.Some? && maxResults.value != 0 && NRows(t) > maxResults.value {
      t := TableSlice(t, maxResults.value);
      truncated := true;
    }
    var kept := KeptFields(fields, ColNames(t));
    KeptFieldsSpec(fields, ColNames(t));
    var results := PapersOf(t, kept, truncateAbstract, maxAuthors);
    if results.Err? {
      return Err(results.error);
    }
    r := Ok(Summary(results.value, truncated, NRows(t), kept));
  }

  /** The records of a filtered result (none when it has no "results" list). */
  function ResultsOf(r: Value): seq<Value> {
    if r.Dict? && Get(r.entries, "results").Some? && Get(r.entries, "results").value.List?
    then Get(r.entries, "results").value.items else []
  }

  /** Looking a column up depends only on the column names. */
  lemma {:induction false} FindColumnNames(t: Table, u: Table, name: string, from: nat)
    requires ColNames(t) == ColNames(u) && from <= |t.columns|
    requires forall j :: 0 <= j < from ==> t.columns[j].name != name
    ensures FindColumnFrom(t, name, from) == FindColumnFrom(u, name, from)
    decreases |t.columns| - from
  {
    assert |t.columns| == |ColNames(t)| == |u.columns|;
    if from < |t.columns| {
      assert t.columns[from].name == ColNames(t)[from] == u.columns[from].name;
      if t.columns[from].name != name {
        forall j | 0 <= j < from + 1 ensures u.columns[j].name != name {
          assert u.columns[j].name == ColNames(u)[j] == t.columns[j].name;
        }
        FindColumnNames(t, u, name, from + 1);
      }
    }
  }

  /** Cutting a table to its first rows leaves the cells of those rows. */
  lemma SliceRowValue(t: Table, m: int, row: nat, name: string)
    requires name in ColNames(t) && row < SliceEnd(NRows(t), m)
    ensures name in ColNames(TableSlice(t, m))
    ensures RowValue(TableSlice(t, m), row, name) == RowValue(t, row, name)
  {
    FindColumnNames(TableSlice(t, m), t, name, 0);
  }

  /** The papers of a cut table are those of the first rows of the table. */
  lemma SlicedPapers(t: Table, m: int, kept: seq<string>, truncateAbstract: int, maxAuthors: Option<int>, n: nat)
    requires forall f :: f in kept ==> f in ColNames(t)
    requires n <= NRows(TableSlice(t, m))
    ensures var s := TableSlice(t, m);
      (forall f :: f in kept ==> f in ColNames(s))
      && Papers(s, kept, truncateAbstract, maxAuthors, n) == Papers(t, kept, truncateAbstract, maxAuthors, n)
  {
    var s := TableSlice(t, m);
    forall i | 0 <= i < n
      ensures Paper(s, i, kept, truncateAbstract, maxAuthors) == Paper(t, i, kept, truncateAbstract, maxAuthors)
    {
      forall j | 0 <= j < |kept|
        ensures RowValue(s, i, kept[j]) == RowValue(t, i, kept[j])
      {
        SliceRowValue(t, m, i, kept[j]);
      }
      assert Cells(s, i, kept, truncateAbstract, maxAuthors) == Cells(t, i, kept, truncateAbstract, maxAuthors);
    }
    RecordsSame(RowPapers(s, kept, truncateAbstract, maxAuthors), RowPapers(t, kept, truncateAbstract, maxAuthors), n);
  }

  /** A non-empty result is the summary of the records of its first
      `Shown` rows, or the failure of the first of them that raises. */
  lemma FilteredPapers(t: Table, fields: Option<seq<string>>, maxResults: Option<int>,
                       truncateAbstract: int, maxAuthors: Option<int>)
    requires NRows(t) > 0
    ensures var kept := KeptFields(fields, ColNames(t));
      var n := Shown(NRows(t), maxResults);
      Filtered(Some(t), fields, maxResults, truncateAbstract, maxAuthors)
        == match Papers(t, kept, truncateAbstract, maxAuthors, n)
           case Err(e) => Err(e)
           case Ok(papers) => Ok(Summary(papers, Truncates(NRows(t), maxResults), n, kept))
  {
    var kept := KeptFields(fields, ColNames(t));
    var n := Shown(NRows(t), maxResults);
    if Truncates(NRows(t), maxResults) {
      SlicedPapers(t, maxResults.value, kept, truncateAbstract, maxAuthors, n);
    }
  }

  /** A non-empty result is built exactly when the papers of its first
      `Shown` rows are. It then has five keys: the count equals the number
      of records, each record is the dict of the same row of the input,
      and the kept fields are echoed. */
  lemma FilteredRecords(t: Table, fields: Option<seq<string>>, maxResults: Option<int>,
                        truncateAbstract: int, maxAuthors: Option<int>)
    requires NRows(t) > 0
    ensures var r := Filtered(Some(t), fields, maxResults, truncateAbstract, maxAuthors);
      var kept := KeptFields(fields, ColNames(t));
      var n := Shown(NRows(t), maxResults);
      (r.Ok? <==> forall i :: 0 <= i < n ==> Paper(t, i, kept, truncateAbstract, maxAuthors).Ok?)
      && (r.Ok? ==>
            var rs := ResultsOf(r.value);
            Keys(r.value.entries) == ["count", "total_found", "truncated", "results", "fields"]
            && |rs| == n
            && Get(r.value.entries, "count") == Some(Int(|rs|))
            && Get(r.value.entries, "fields") == Some(StrList(kept))
            && forall i :: 0 <= i < |rs| ==> rs[i] == Dict(Paper(t, i, kept, truncateAbstract, maxAuthors).value))
  {
    var kept := KeptFields(fields, ColNames(t));
    var n := Shown(NRows(t), maxResults);
    FilteredPapers(t, fields, maxResults, truncateAbstract, maxAuthors);
    PapersOk(t, kept, truncateAbstract, maxAuthors, n);
    var ps := Papers(t, kept, truncateAbstract, maxAuthors, n);
    if ps.Ok? {
      SummaryFields(ps.value, Truncates(NRows(t), maxResults), n, kept);
    }
  }

  /** A row's paper is built exactly when none of its abstract or author
      cells under a limit or cap holds an array of several elements. */
  lemma PaperOk(t: Table, row: nat, kept: seq<string>, truncateAbstract: int, maxAuthors: Option<int>)
    requires forall f :: f in kept ==> f in ColNames(t)
    ensures Paper(t, row, kept, truncateAbstract, maxAuthors).Ok? <==>
      forall j :: 0 <= j < |kept| ==>
        !(TruthTested(kept[j], truncateAbstract, maxAuthors) && Ambiguous(RowValue(t, row, kept[j])))
  {
    var cells := Cells(t, row, kept, truncateAbstract, maxAuthors);
    CollectAllOk(kept, cells, |kept|);
    forall j | 0 <= j < |kept|
      ensures cells[j].Ok? <==> !(TruthTested(kept[j], truncateAbstract, maxAuthors) && Ambiguous(RowValue(t, row, kept[j])))
    {
      assert cells[j] == CellValue(kept[j], RowValue(t, row, kept[j]), truncateAbstract, maxAuthors);
    }
  }

  /** A non-empty result fails exactly when, among its first `Shown` rows,
      an abstract under a limit or an author list under a cap holds an
      array of several elements. */
  lemma FilteredFails(t: Table, fields: Option<seq<string>>, maxResults: Option<int>,
                      truncateAbstract: int, maxAuthors: Option<int>)
    requires NRows(t) > 0
    ensures var kept := KeptFields(fields, ColNames(t));
      Filtered(Some(t), fields, maxResults, truncateAbstract, maxAuthors).Err? <==>
        exists i, j :: 0 <= i < Shown(NRows(t), maxResults) && 0 <= j < |kept|
          && TruthTested(kept[j], truncateAbstract, maxAuthors) && Ambiguous(RowValue(t, i, kept[j]))
  {
    var kept := KeptFields(fields, ColNames(t));
    var n := Shown(NRows(t), maxResults);
    FilteredRecords(t, fields, maxResults, truncateAbstract, maxAuthors);
    if Filtered(Some(t), fields, maxResults, truncateAbstract, maxAuthors).Err? {
      var i :| 0 <= i < n && Paper(t, i, kept, truncateAbstract, maxAuthors).Err?;
      PaperOk(t, i, kept, truncateAbstract, maxAuthors);
      var j :| 0 <= j < |kept| && TruthTested(kept[j], truncateAbstract, maxAuthors) && Ambiguous(RowValue(t, i, kept[j]));
    } else {
      forall i, j | 0 <= i < n && 0 <= j < |kept|
        ensures !(TruthTested(kept[j], truncateAbstract, maxAuthors) && Ambiguous(RowValue(t, i, kept[j])))
      {
        PaperOk(t, i, kept, truncateAbstract, maxAuthors);
      }
    }
  }

  /** A result is truncated exactly when `max_results` is non-zero and
      smaller than the row count. It keeps the `Shown` rows: a positive
      limit then leaves that many records and reports "<limit>+" as total;
      without truncation every row is a record and the total is the row
      count. */
  lemma FilteredTruncation(t: Table, fields: Option<seq<string>>, maxResults: Option<int>,
                           truncateAbstract: int, maxAuthors: Option<int>)
    requires NRows(t) > 0
    requires Filtered(Some(t), fields, maxResults, truncateAbstract, maxAuthors).Ok?
    ensures var r := Filtered(Some(t), fields, maxResults, truncateAbstract, maxAuthors).value;
      var rs := ResultsOf(r);
      Get(r.entries, "truncated") == Some(Bool(maxResults.Some? && maxResults.value != 0 && NRows(t) > maxResults.value))
      && |rs| == Shown(NRows(t), maxResults)
      && (maxResults.Some? && 0 < maxResults.value < NRows(t) ==>
            |rs| == maxResults.value && Get(r.entries, "total_found") == Some(Str(NatToString(maxResults.value) + "+")))
      && (!Truncates(NRows(t), maxResults) ==>
            |rs| == NRows(t) && Get(r.entries, "total_found") == Some(Int(NRows(t))))
  {
    var kept := KeptFields(fields, ColNames(t));
    var n := Shown(NRows(t), maxResults);
    FilteredPapers(t, fields, maxResults, truncateAbstract, maxAuthors);
    var ps := Papers(t, kept, truncateAbstract, maxAuthors, n);
    SummaryFields(ps.value, Truncates(NRows(t), maxResults), n, kept);
  }

  // ---------------------------------------------------------------- query_ads_compact

  /** The `fields` argument: a preset name or an explicit list. */
  datatype FieldChoice = Preset(name: string) | Custom(names: seq<string>)

  /** The error raised for a preset name that is not in FieldPresets. */
  function PresetError(name: string): MCPError {
    MCPError(Validation, "Invalid field preset: " + name, "ads_compact", true,
      "Use one of: " + Join(", ", PresetNames), [])
  }

  /** The field list a choice resolves to (None for every column). */
  function FieldList(fields: FieldChoice): Outcome<Option<seq<string>>> {
    match fields
    case Preset(name) =>
      (match Get(FieldPresets, name)
       case Some(list) => Ok(list)
       case None => Err(Mcp(PresetError(name))))
    case Custom(names) => Ok(Some(names))
  }

  /** The label echoed as "preset". */
  function PresetLabel(fields: FieldChoice): string {
    if fields.Preset? then fields.name else "custom"
  }

  /** The handlers of `query_ads_compact`: an ImportError means the ADS
      module is missing; anything else, an MCPError included, is a failed
      query. */
  function CompactFailure(query: string, e: Exception): MCPError {
    if e.Builtin? && e.cls == ImportError then
      MCPError(ServiceFailure, "ADS module not available: " + ExceptionText(e), "ads_compact", false,
        "Install astroquery with ADS support", [])
    else Wrapped(e, "ADS query failed: ", "ads_compact", "Check query syntax and try again", [("query", Str(query))])
  }

  /** `query_ads_compact(query, fields, max_results)`: `importFailure` is the
      message of the ImportError raised by importing the ADS module, if
      any; `response` is the outcome of the ADS search. */
  function QueryAdsCompact(query: string, fields: FieldChoice, maxResults: int,
                           importFailure: Option<string>, response: Outcome<Option<Table>>): (r: Outcome<Value>)
    ensures r.Err? ==> r.error.Mcp? && r.error.err.code == ServiceFailure && r.error.err.service == "ads_compact"
  {
    if importFailure.Some? then Err(Mcp(CompactFailure(query, Builtin(ImportError, importFailure.value))))
    else
      match FieldList(fields)
      case Err(e) => Err(Mcp(CompactFailure(query, e)))
      case Ok(fieldList) =>
        match response
        case Err(e) => Err(Mcp(CompactFailure(query, e)))
        case Ok(result) =>
          match Filtered(result, fieldList, Some(maxResults), 200, Some(10))
          case Err(e) => Err(Mcp(CompactFailure(query, e)))
          case Ok(filtered) =>
            Ok(Dict([("success", Bool(true)), ("query", Str(query)), ("preset", Str(PresetLabel(fields)))] + filtered.entries))
  }

  /** An unknown preset is not reported as the VALIDATION_ERROR raised for
      it: the generic handler wraps that error into a recoverable
      SERVICE_ERROR whose message carries its text. */
  lemma UnknownPresetRewrapped(query: string, name: string, maxResults: int, response: Outcome<Option<Table>>)
    requires Get(FieldPresets, name).None?
    ensures var text := ToString(PresetError(name));
      QueryAdsCompact(query, Preset(name), maxResults, None, response)
        == Err(Mcp(MCPError(ServiceFailure, "ADS query failed: " + text, "ads_compact", true,
                            "Check query syntax and try again", [("query", Str(query)), ("error", Str(text))])))
  {
    var text := ToString(PresetError(name));
    assert FieldList(Preset(name)) == Err(Mcp(PresetError(name)));
    assert [("query", Str(query))] + [("error", Str(text))] == [("query", Str(query)), ("error", Str(text))];
  }

  /** A missing ADS module is reported as not recoverable, whatever the
      preset. */
  lemma ImportFailureFirst(query: string, fields: FieldChoice, maxResults: int, message: string,
                           response: Outcome<Option<Table>>)
    ensures var r := QueryAdsCompact(query, fields, maxResults, Some(message), response);
      r.Err? && !r.error.err.recoverable && r.error.err.message == "ADS module not available: " + message
  {
  }

  /** The compact query succeeds exactly when the module imports, the
      fields resolve, the search returns and its filtering raises nothing;
      the reply then starts with success, the query and the preset as given
      ("custom" for a list), followed by the filtered result. */
  lemma CompactSuccess(query: string, fields: FieldChoice, maxResults: int,
                       importFailure: Option<string>, response: Outcome<Option<Table>>)
    ensures var r := QueryAdsCompact(query, fields, maxResults, importFailure, response);
      r.Ok? <==>
        importFailure.None? && response.Ok? && (fields.Preset? ==> Get(FieldPresets, fields.name).Some?)
        && Filtered(response.value, FieldList(fields).value, Some(maxResults), 200, Some(10)).Ok?
    ensures var r := QueryAdsCompact(query, fields, maxResults, importFailure, response);
      r.Ok? ==>
        r.value.Dict? && |r.value.entries| > 3
        && r.value.entries[..3] == [("success", Bool(true)), ("query", Str(query)), ("preset", Str(PresetLabel(fields)))]
        && Ok(Dict(r.value.entries[3..]))
             == Filtered(response.value, FieldList(fields).value, Some(maxResults), 200, Some(10))
  {
    var r := QueryAdsCompact(query, fields, maxResults, importFailure, response);
    if r.Ok? {
      var filtered := Filtered(response.value, FieldList(fields).value, Some(maxResults), 200, Some(10)).value;
      assert r.value.entries[3..] == filtered.entries;
    }
  }

  /** A search whose shown rows hold an abstract or author array of several
      elements fails: numpy's ValueError is wrapped into a recoverable
      SERVICE_ERROR, "ADS query failed: " followed by numpy's message. */
  lemma CompactAmbiguous(query: string, fields: FieldChoice, maxResults: int, t: Table, row: nat, j: nat)
    requires FieldList(fields).Ok? && NRows(t) > 0
    requires var kept := KeptFields(FieldList(fields).value, ColNames(t));
      row < Shown(NRows(t), Some(maxResults)) && j < |kept| && kept[j] in ["abstract", "author"]
      && RowValue(t, row, kept[j]).NdArray? && |RowValue(t, row, kept[j]).elems| >= 2
    ensures var r := QueryAdsCompact(query, fields, maxResults, None, Ok(Some(t)));
      r.Err? && r.error.err.code == ServiceFailure && r.error.err.recoverable
      && r.error.err.message == "ADS query failed: " + AmbiguousTruth
  {
    FilteredFails(t, FieldList(fields).value, Some(maxResults), 200, Some(10));
  }

  // ---------------------------------------------------------------- get_paper_details

  /** `get_paper_details(bibcode, fields)`: `response` is the outcome of the
      ADS search for "bibcode:" followed by the bibcode. */
  function GetPaperDetails(bibcode: string, fields: Option<seq<string>>,
                           importFailure: Option<string>, response: Outcome<Option<Table>>): (r: Outcome<Value>)
    ensures r.Err? ==> r.error.Mcp? && r.error.err.code == ServiceFailure && r.error.err.recoverable
  {
    var failed := (e: Exception) =>
      Err(Mcp(Wrapped(e, "Failed to get paper details: ", "ads_details", "Check bibcode format", [("bibcode", Str(bibcode))])));
    if importFailure.Some? then failed(Builtin(ImportError, importFailure.value))
    else
      match response
      case Err(e) => failed(e)
      case Ok(result) =>
        if NoRows(result) then Ok(Dict([("success", Bool(false)), ("error", Str("Paper not found: " + bibcode))]))
        else
          match Filtered(result, fields, Some(1), 0, None)
          case Err(e) => failed(e)
          case Ok(filtered) => Ok(Dict([("success", Bool(true)), ("bibcode", Str(bibcode))] + filtered.entries))
  }

  /** A bibcode with no match is a reply with success false, not an error. */
  lemma PaperNotFound(bibcode: string, fields: Option<seq<string>>, result: Option<Table>)
    requires NoRows(result)
    ensures GetPaperDetails(bibcode, fields, None, Ok(result))
      == Ok(Dict([("success", Bool(false)), ("error", Str("Paper not found: " + bibcode))]))
  {
  }

  /** A found paper is reported as the single record of the first row, with
      its abstract whole, truncated exactly when the search matched more
      than one row. */
  lemma PaperDetailsFirstRow(bibcode: string, fields: Option<seq<string>>, t: Table)
    requires NRows(t) > 0
    ensures var r := GetPaperDetails(bibcode, fields, None, Ok(Some(t)));
      var filtered := Filtered(Some(t), fields, Some(1), 0, None);
      var kept := KeptFields(fields, ColNames(t));
      filtered.Ok? && r.Ok? && r.value.entries == [("success", Bool(true)), ("bibcode", Str(bibcode))] + filtered.value.entries
      && (forall f :: f in kept ==> f in ColNames(t))
      && Paper(t, 0, kept, 0, None).Ok?
      && ResultsOf(filtered.value) == [Dict(Paper(t, 0, kept, 0, None).value)]
      && Get(filtered.value.entries, "truncated") == Some(Bool(NRows(t) > 1))
  {
    FilteredFails(t, fields, Some(1), 0, None);
    FilteredRecords(t, fields, Some(1), 0, None);
    FilteredTruncation(t, fields, Some(1), 0, None);
  }

  /** With no abstract limit and no author cap, text and lists of plain
      values pass through the paper details unchanged. */
  lemma DetailsKeepText(field: string, value: Value)
    requires value.Str? || (value.List? && forall i :: 0 <= i < |value.items| ==> !HasItem(value.items[i]))
    ensures CellValue(field, value, 0, None) == Ok(value)
  {
    if value.List? {
      assert PlainCell(value).items == value.items;
    }
  }
}
