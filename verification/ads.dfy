/**
 * The ADS literature tools of `tools/ads.py`: paginated search, a single
 * record, the link set of a paper and the choice of a full-text link.
 *
 * Every tool first requires the ADS token (`require_token("ads")`), which
 * is read from the configuration and the environment given as parameters.
 * The ADS query itself is not performed: `response` is the outcome of the
 * query (after the retry loop) for the request the tool builds.
 */
module Ads {
  import opened Wrappers
  import opened Strings
  import opened Py
  import opened Dicts
  import opened Errors
  import opened Exceptions
  import opened Config
  import opened Auth
  import opened ToolCommon

  /** `DEFAULT_FIELDS` */
  const DefaultFields: seq<string> :=
    ["bibcode", "title", "author", "abstract", "pubdate", "pub", "doi", "citation_count", "keyword", "identifier"]

  // ---------------------------------------------------------------- request

  /** The query settings a search hands to ADS: `NROWS`, `START`, `SORT` and
      `ADS_FIELDS`, with the clamped page echoed back. */
  datatype SearchRequest = SearchRequest(query: string, page: int, rows: int, start: int, sort: string, fields: seq<string>)

  function Min(a: int, b: int): int { if a <= b then a else b }
  function Max(a: int, b: int): int { if a >= b then a else b }

  function SearchRequestOf(query: string, page: int, rowsPerPage: int, sort: string,
                           fields: Option<seq<string>>): SearchRequest {
    var rows := Min(rowsPerPage, 1000);
    var p := Max(1, page);
    SearchRequest(query, p, rows, (p - 1) * rows, sort, fields.GetOr(DefaultFields))
  }

  /** At most 1000 rows per page, pages from 1, and the start of the page
      is the number of rows on earlier pages; it is never negative when the
      page size is not. Without a field list the default fields are asked
      for. */
  lemma SearchRequestBounds(query: string, page: int, rowsPerPage: int, sort: string, fields: Option<seq<string>>)
    ensures var r := SearchRequestOf(query, page, rowsPerPage, sort, fields);
      r.rows <= 1000 && (rowsPerPage <= 1000 ==> r.rows == rowsPerPage)
      && r.page >= 1 && (page >= 1 ==> r.page == page)
      && r.start == (r.page - 1) * r.rows
      && (rowsPerPage >= 0 ==> r.start >= 0)
      && r.fields == (if fields.None? then DefaultFields else fields.value)
  {
    var r := SearchRequestOf(query, page, rowsPerPage, sort, fields);
    if rowsPerPage >= 0 {
      assert r.page - 1 >= 0 && r.rows >= 0;
    }
  }

  /** Nothing bounds the page size from below: a negative size gives a
      negative start from the second page on. */
  lemma NegativePageSize()
    ensures SearchRequestOf("q", 2, -1, "date desc", None).start == -1
  {
  }

  // ---------------------------------------------------------------- rows

  /** `row.get(key)`: the cell, or None without that column. */
  function Field(row: Row, key: string): Value {
    GetOr(row, key, NoneValue)
  }

  /** `v[0]` */
  function First(v: Value): Outcome<Value> {
    match v
    case List(items) =>
      if |items| > 0 then Ok(items[0]) else Err(Builtin(OtherException("IndexError"), "list index out of range"))
    case NdArray(elems) =>
      if |elems| > 0 then Ok(elems[0])
      else Err(Builtin(OtherException("IndexError"), "index 0 is out of bounds for axis 0 with size 0"))
    case Str(s) =>
      if |s| > 0 then Ok(Str([s[0]])) else Err(Builtin(OtherException("IndexError"), "string index out of range"))
    case _ => Err(Builtin(TypeError, "'" + TypeName(v) + "' object is not subscriptable"))
  }

  /** `list(v)` */
  function Elements(v: Value): Outcome<seq<Value>> {
    match v
    case List(items) => Ok(items)
    case NdArray(elems) => Ok(elems)
    case Str(s) => Ok(seq(|s|, i requires 0 <= i < |s| => Str([s[i]])))
    case Bytes(bs) => Ok(seq(|bs|, i requires 0 <= i < |bs| => Int(bs[i] as int)))
    case Dict(es) => Ok(seq(|es|, i requires 0 <= i < |es| => Str(es[i].0)))
    case _ => Err(Builtin(TypeError, "'" + TypeName(v) + "' object is not iterable"))
  }

  /** `str(row.get(key, [""])[0]) if row.get(key) else missing` */
  function FirstText(row: Row, key: string, missing: Value): Outcome<Value> {
    var v := Field(row, key);
    match Truth(v)
    case Err(e) => Err(e)
    case Ok(present) =>
      if !present then Ok(missing)
      else match First(v)
        case Ok(x) => Ok(Str(Show(x)))
        case Err(e) => Err(e)
  }

  /** `list(row.get(key, [])) if row.get(key) else []` */
  function Items(row: Row, key: string): Outcome<Value> {
    var v := Field(row, key);
    match Truth(v)
    case Err(e) => Err(e)
    case Ok(present) =>
      if !present then Ok(List([]))
      else match Elements(v)
        case Ok(xs) => Ok(List(xs))
        case Err(e) => Err(e)
  }

  /** `str(row.get(key, "")) if row.get(key) else None` */
  function Text(row: Row, key: string): Outcome<Value> {
    var v := Field(row, key);
    match Truth(v)
    case Err(e) => Err(e)
    case Ok(present) => Ok(if present then Str(Show(v)) else NoneValue)
  }

  /** `int(row.get(key, 0)) if row.get(key) else 0` */
  function Count(row: Row, key: string): Outcome<Value> {
    var v := Field(row, key);
    match Truth(v)
    case Err(e) => Err(e)
    case Ok(present) =>
      if !present then Ok(Int(0))
      else match ToolCommon.AsInt(v)
        case Ok(n) => Ok(Int(n))
        case Err(e) => Err(e)
  }

  /** The keys of a paper record, in order. */
  const PaperKeys: seq<string> :=
    ["bibcode", "title", "authors", "abstract", "pub_date", "journal", "doi", "citation_count", "keywords"]

  /** The values of a paper record, in the order Python evaluates them;
      `bibcodeDefault` stands in for a missing bibcode column. */
  function PaperValues(row: Row, bibcodeDefault: string): (vs: seq<Outcome<Value>>)
    ensures |vs| == |PaperKeys|
  {
    [Ok(Str(Show(GetOr(row, "bibcode", Str(bibcodeDefault))))),
     FirstText(row, "title", Str("")),
     Items(row, "author"),
     Text(row, "abstract"),
     Text(row, "pubdate"),
     Text(row, "pub"),
     FirstText(row, "doi", NoneValue),
     Count(row, "citation_count"),
     Items(row, "keyword")]
  }

  /** The paper dict `search_papers` builds for one row. */
  function SearchPaper(row: Row): Outcome<Value> {
    match Collect(PaperKeys, PaperValues(row, ""), |PaperKeys|)
    case Ok(es) => Ok(Dict(es))
    case Err(e) => Err(e)
  }

  lemma PaperKeysDistinct()
    ensures forall i, j :: 0 <= i < j < |PaperKeys| ==> PaperKeys[i] != PaperKeys[j]
  {
  }

  /** A converted paper has the nine record keys, in order, each holding
      its converted value. */
  lemma SearchPaperShape(row: Row)
    requires SearchPaper(row).Ok?
    ensures var p := SearchPaper(row).value;
      p.Dict? && Keys(p.entries) == PaperKeys
      && forall i :: 0 <= i < |PaperKeys| ==>
           PaperValues(row, "")[i].Ok? && Get(p.entries, PaperKeys[i]) == Some(PaperValues(row, "")[i].value)
  {
    var vals := PaperValues(row, "");
    PaperKeysDistinct();
    CollectKeys(PaperKeys, vals, |PaperKeys|);
    assert PaperKeys[..|PaperKeys|] == PaperKeys;
    forall i | 0 <= i < |PaperKeys|
      ensures vals[i].Ok? && Get(SearchPaper(row).value.entries, PaperKeys[i]) == Some(vals[i].value)
    {
      CollectValues(PaperKeys, vals, |PaperKeys|, i);
    }
  }

  /** A column the row does not have reads as missing: empty title and
      lists, a zero count, and no text. */
  lemma MissingColumn(row: Row, key: string, missing: Value)
    requires !HasKey(row, key)
    ensures FirstText(row, key, missing) == Ok(missing)
    ensures Items(row, key) == Ok(List([]))
    ensures Text(row, key) == Ok(NoneValue)
    ensures Count(row, key) == Ok(Int(0))
  {
    GetFinds(row, key);
  }

  /** A text cell is read as its first character where a list is expected,
      and a list cell as its first element. */
  lemma FirstOfCell(row: Row, key: string, missing: Value)
    ensures Field(row, key) == Str("") ==> FirstText(row, key, missing) == Ok(missing)
    ensures forall s :: Field(row, key) == Str(s) && s != "" ==> FirstText(row, key, missing) == Ok(Str([s[0]]))
    ensures forall xs :: Field(row, key) == List(xs) && xs != [] ==> FirstText(row, key, missing) == Ok(Str(Show(xs[0])))
  {
  }

  /** A cell holding a numpy array of two or more elements has no truth
      value: each reader raises numpy's ValueError, while a one-element
      array is read when its element is truthy. */
  lemma ArrayCell(row: Row, key: string, missing: Value)
    requires Field(row, key).NdArray?
    ensures var n := |Field(row, key).elems|;
      var ambiguous := Err(Builtin(ValueError, AmbiguousTruth));
      (n >= 2 ==>
         FirstText(row, key, missing) == ambiguous && Items(row, key) == ambiguous
         && Text(row, key) == ambiguous && Count(row, key) == ambiguous)
      && (n == 1 && !Ambiguous(Field(row, key).elems[0]) ==>
            Items(row, key) == Ok(List(if Truthy(Field(row, key).elems[0]) then Field(row, key).elems else [])))
  {
  }

  /** A row whose title reads and whose author cell is an array of two or
      more names cannot be converted: `search_papers` raises numpy's
      ValueError for it. */
  lemma AmbiguousAuthors(row: Row)
    requires FirstText(row, "title", Str("")).Ok?
    requires Field(row, "author").NdArray? && |Field(row, "author").elems| >= 2
    ensures SearchPaper(row) == Err(Builtin(ValueError, AmbiguousTruth))
  {
    var vals := PaperValues(row, "");
    ArrayCell(row, "author", NoneValue);
    assert vals[1].Ok? && vals[2] == Items(row, "author");
    CollectAllOk(PaperKeys, vals, 2);
    CollectFails(PaperKeys, vals, 3, |PaperKeys|);
  }

  // ---------------------------------------------------------------- search_papers

  /** The handler around a search: an MCPError passes, anything else becomes
      a recoverable SERVICE_ERROR. */
  function SearchFailure(query: string, e: Exception): Exception {
    Rewrap(e, "ADS search failed: ", "ads", "Check query syntax or try again later", [("query", Str(query))])
  }

  /** The reply for a page of converted papers out of `total` rows. */
  function PageReply(req: SearchRequest, total: nat, papers: seq<Value>): Value {
    Dict([("success", Bool(true)), ("service", Str("ads")),
          ("query", Dict([("query", Str(req.query)), ("page", Int(req.page)),
                          ("rows_per_page", Int(req.rows)), ("sort", Str(req.sort))])),
          ("total_count", Int(total)), ("returned_count", Int(|papers|)),
          ("data", List(papers)), ("truncated", Bool(|papers| == req.rows))])
  }

  /** What `search_papers` returns or raises once the token is there, for
      the request `req`, the outcome of the query and the row converter
      `convert`. */
  function SearchReplyWith(req: SearchRequest, response: Outcome<Option<Table>>, convert: Row -> Outcome<Value>): Outcome<Value> {
    match response
    case Err(e) => Err(SearchFailure(req.query, e))
    case Ok(result) =>
      if NoRows(result) then
        Ok(Dict([("success", Bool(true)), ("service", Str("ads")),
                 ("query", Dict([("query", Str(req.query)), ("page", Int(req.page)), ("rows_per_page", Int(req.rows))])),
                 ("total_count", Int(0)), ("returned_count", Int(0)), ("data", List([]))]))
      else
        var t := result.value;
        match MapRows(t, convert, NRows(t))
        case Err(e) => Err(SearchFailure(req.query, e))
        case Ok(papers) => Ok(PageReply(req, NRows(t), papers))
  }

  /** The reply with the paper conversion of `search_papers`. */
  function SearchReply(req: SearchRequest, response: Outcome<Option<Table>>): Outcome<Value> {
    SearchReplyWith(req, response, SearchPaper)
  }

  /** `search_papers(query, page, rows_per_page, sort, fields)` */
  function SearchPapers(cfg: ServiceConfig, env: Env, query: string, page: int, rowsPerPage: int, sort: string,
                        fields: Option<seq<string>>, response: Outcome<Option<Table>>): Outcome<Value>
  {
    match RequireToken(cfg, env, "ads")
    case Err(e) => Err(e)
    case Ok(_) => SearchReply(SearchRequestOf(query, page, rowsPerPage, sort, fields), response)
  }

  /** Without a usable token nothing is searched: the AUTHENTICATION_ERROR
      of `require_token` is raised whatever the response. */
  lemma SearchNeedsToken(cfg: ServiceConfig, env: Env, query: string, page: int, rowsPerPage: int, sort: string,
                         fields: Option<seq<string>>, response: Outcome<Option<Table>>)
    requires RequireToken(cfg, env, "ads").Err?
    ensures var r := SearchPapers(cfg, env, query, page, rowsPerPage, sort, fields, response);
      r.Err? && r.error.Mcp? && r.error.err.code == Authentication && !r.error.err.recoverable
  {
  }

  /** An empty result is a success with zero counts and no data. */
  lemma SearchEmpty(req: SearchRequest, result: Option<Table>, convert: Row -> Outcome<Value>)
    requires NoRows(result)
    ensures var r := SearchReplyWith(req, Ok(result), convert);
      r.Ok? && r.value.Dict?
      && Get(r.value.entries, "total_count") == Some(Int(0))
      && Get(r.value.entries, "returned_count") == Some(Int(0))
      && Get(r.value.entries, "data") == Some(List([]))
  {
    var r := SearchReplyWith(req, Ok(result), convert);
    GetAt(r.value.entries, 3);
    GetAt(r.value.entries, 4);
    GetAt(r.value.entries, 5);
  }

  /** The counts, data and truncation flag of a page reply. */
  lemma PageReplyFields(req: SearchRequest, total: nat, papers: seq<Value>)
    ensures var es := PageReply(req, total, papers).entries;
      Get(es, "total_count") == Some(Int(total))
      && Get(es, "returned_count") == Some(Int(|papers|))
      && Get(es, "data") == Some(List(papers))
      && Get(es, "truncated") == Some(Bool(|papers| == req.rows))
  {
    var es := PageReply(req, total, papers).entries;
    GetAt(es, 3);
    GetAt(es, 4);
    GetAt(es, 5);
    GetAt(es, 6);
  }

  /** A non-empty result whose rows all convert returns one converted paper
      per row, in row order, and is marked truncated exactly when the page
      came back full. */
  lemma SearchCounts(req: SearchRequest, t: Table, convert: Row -> Outcome<Value>)
    requires NRows(t) > 0
    requires forall i :: 0 <= i < NRows(t) ==> convert(RowOf(t, i)).Ok?
    ensures var r := SearchReplyWith(req, Ok(Some(t)), convert);
      r.Ok? && r.value.Dict? &&
      var es := r.value.entries;
      Get(es, "total_count") == Some(Int(NRows(t)))
      && Get(es, "returned_count") == Some(Int(NRows(t)))
      && Get(es, "truncated") == Some(Bool(NRows(t) == req.rows))
      && Get(es, "data").Some? && Get(es, "data").value.List?
      && var papers := Get(es, "data").value.items;
         |papers| == NRows(t) && forall i :: 0 <= i < NRows(t) ==> convert(RowOf(t, i)) == Ok(papers[i])
  {
    MapRowsOk(t, convert, NRows(t));
    var papers := MapRows(t, convert, NRows(t)).value;
    assert SearchReplyWith(req, Ok(Some(t)), convert) == Ok(PageReply(req, NRows(t), papers));
    PageReplyFields(req, NRows(t), papers);
  }

  /** A row that fails to convert makes the whole search fail, re-wrapped as
      for any other failure. */
  lemma SearchRowFails(req: SearchRequest, t: Table, convert: Row -> Outcome<Value>, row: nat)
    requires row < NRows(t)
    requires forall i :: 0 <= i < row ==> convert(RowOf(t, i)).Ok?
    requires convert(RowOf(t, row)).Err?
    ensures SearchReplyWith(req, Ok(Some(t)), convert) == Err(SearchFailure(req.query, convert(RowOf(t, row)).error))
  {
    MapRowsOk(t, convert, row);
    MapRowsFailFrom(t, convert, row, NRows(t));
  }

  /** An author cell of several array elements in the first row, whose
      title reads, fails the whole search with numpy's ValueError wrapped
      into a recoverable SERVICE_ERROR. */
  lemma AmbiguousAuthorsFail(req: SearchRequest, t: Table)
    requires NRows(t) > 0
    requires FirstText(RowOf(t, 0), "title", Str("")).Ok?
    requires Field(RowOf(t, 0), "author").NdArray? && |Field(RowOf(t, 0), "author").elems| >= 2
    ensures var r := SearchReply(req, Ok(Some(t)));
      r.Err? && r.error.Mcp? && r.error.err.code == ServiceFailure && r.error.err.recoverable
      && r.error.err.message == "ADS search failed: " + AmbiguousTruth
  {
    AmbiguousAuthors(RowOf(t, 0));
    SearchRowFails(req, t, SearchPaper, 0);
  }

  /** An MCPError from the query passes unchanged; any other failure is
      reported as a recoverable SERVICE_ERROR of the "ads" service. */
  lemma SearchFailures(req: SearchRequest, e: Exception)
    ensures var r := SearchReply(req, Err(e));
      r.Err? && (e.Mcp? ==> r.error == e)
      && (e.Builtin? ==> r.error.Mcp? && r.error.err.code == ServiceFailure && r.error.err.recoverable
                         && r.error.err.message == "ADS search failed: " + e.text)
  {
  }

  // ---------------------------------------------------------------- get_record

  /** The ADS query for one bibcode. */
  function BibcodeQuery(bibcode: string): string {
    "bibcode:" + bibcode
  }

  /** The error for a bibcode ADS does not know. */
  function BibcodeMissing(bibcode: string): MCPError {
    MCPError(BibcodeNotFound, "Bibcode not found: " + bibcode, "ads", false, "Check the bibcode format",
      [("bibcode", Str(bibcode))])
  }

  const RecordKeys: seq<string> := PaperKeys + ["identifiers"]

  /** The record of the first row; the bibcode asked for stands in for a
      missing bibcode column. */
  function Record(row: Row, bibcode: string): Outcome<Value> {
    match Collect(RecordKeys, PaperValues(row, bibcode) + [Items(row, "identifier")], |RecordKeys|)
    case Ok(es) => Ok(Dict(es))
    case Err(e) => Err(e)
  }

  /** `get_record(bibcode, fields)`: `response` answers the query
      BibcodeQuery(bibcode) for the given fields (DefaultFields when
      None); the field list only shapes that request. */
  function GetRecord(cfg: ServiceConfig, env: Env, bibcode: string, response: Outcome<Option<Table>>): Outcome<Value> {
    match RequireToken(cfg, env, "ads")
    case Err(e) => Err(e)
    case Ok(_) =>
      var failed := (e: Exception) =>
        Rewrap(e, "ADS query failed: ", "ads", "Try again later", [("bibcode", Str(bibcode))]);
      match response
      case Err(e) => Err(failed(e))
      case Ok(result) =>
        if NoRows(result) then Err(Mcp(BibcodeMissing(bibcode)))
        else match Record(RowOf(result.value, 0), bibcode)
          case Ok(r) => Ok(r)
          case Err(e) => Err(failed(e))
  }

  /** An empty answer is BIBCODE_NOT_FOUND, not recoverable, and is not
      re-wrapped by the generic handler. */
  lemma RecordNotFound(cfg: ServiceConfig, env: Env, bibcode: string, result: Option<Table>)
    requires RequireToken(cfg, env, "ads").Ok? && NoRows(result)
    ensures var r := GetRecord(cfg, env, bibcode, Ok(result));
      r.Err? && r.error.Mcp? && r.error.err.code == BibcodeNotFound && !r.error.err.recoverable
      && r.error.err.message == "Bibcode not found: " + bibcode
  {
  }

  /** A found record has the nine paper keys followed by "identifiers". */
  lemma RecordShape(row: Row, bibcode: string)
    requires Record(row, bibcode).Ok?
    ensures Record(row, bibcode).value.Dict? && Keys(Record(row, bibcode).value.entries) == RecordKeys
  {
    var vals := PaperValues(row, bibcode) + [Items(row, "identifier")];
    assert forall i, j :: 0 <= i < j < |RecordKeys| ==> RecordKeys[i] != RecordKeys[j];
    CollectKeys(RecordKeys, vals, |RecordKeys|);
    assert RecordKeys[..|RecordKeys|] == RecordKeys;
  }

  // ---------------------------------------------------------------- get_links

  /** The links of a paper before filtering; "arxiv" is None unless the
      bibcode mentions arXiv. */
  function AllLinks(bibcode: string): seq<(string, Option<string>)> {
    [("abstract", Some("https://ui.adsabs.harvard.edu/abs/" + bibcode + "/abstract")),
     ("citations", Some("https://ui.adsabs.harvard.edu/abs/" + bibcode + "/citations")),
     ("references", Some("https://ui.adsabs.harvard.edu/abs/" + bibcode + "/references")),
     ("ads_pdf", Some("https://ui.adsabs.harvard.edu/link_gateway/" + bibcode + "/EPRINT_PDF")),
     ("arxiv", if Contains(bibcode, "arXiv") then Some("https://arxiv.org/abs/" + bibcode) else None)]
  }

  /** `{k: v for k, v in links.items() if k == link_type and v is not None}` */
  function OnlyType(links: seq<(string, Option<string>)>, linkType: string): (r: seq<(string, Option<string>)>)
    ensures forall i :: 0 <= i < |r| ==> r[i].0 == linkType && r[i].1.Some?
  {
    if |links| == 0 then []
    else (if links[0].0 == linkType && links[0].1.Some? then [links[0]] else []) + OnlyType(links[1..], linkType)
  }

  /** `{k: v for k, v in links.items() if v is not None}` */
  function Present(links: seq<(string, Option<string>)>): (r: seq<(string, string)>)
    ensures |r| <= |links|
  {
    if |links| == 0 then []
    else (if links[0].1.Some? then [(links[0].0, links[0].1.value)] else []) + Present(links[1..])
  }

  /** The links reported for `link_type` (no filter when None or empty). */
  function LinksFor(bibcode: string, linkType: Option<string>): seq<(string, string)> {
    var links := AllLinks(bibcode);
    Present(if linkType.Some? && linkType.value != "" then OnlyType(links, linkType.value) else links)
  }

  function StrDict(es: seq<(string, string)>): Value {
    Dict(seq(|es|, i requires 0 <= i < |es| => (es[i].0, Str(es[i].1))))
  }

  /** `get_links(bibcode, link_type)` */
  function GetLinks(cfg: ServiceConfig, env: Env, bibcode: string, linkType: Option<string>,
                    response: Outcome<Option<Table>>): Outcome<Value> {
    match RequireToken(cfg, env, "ads")
    case Err(e) => Err(e)
    case Ok(_) =>
      match response
      case Err(e) => Err(Rewrap(e, "Failed to get links: ", "ads", "Try again later", [("bibcode", Str(bibcode))]))
      case Ok(result) =>
        if NoRows(result) then Err(Mcp(BibcodeMissing(bibcode)))
        else Ok(Dict([("bibcode", Str(bibcode)), ("links", StrDict(LinksFor(bibcode, linkType)))]))
  }

  /** Unfiltered, the abstract, citations, references and ADS PDF links are
      always there, and the arXiv link exactly when the bibcode mentions
      arXiv. */
  lemma UnfilteredLinks(bibcode: string, linkType: Option<string>)
    requires linkType.None? || linkType.value == ""
    ensures var links := LinksFor(bibcode, linkType);
      Keys(links) == ["abstract", "citations", "references", "ads_pdf"] + (if Contains(bibcode, "arXiv") then ["arxiv"] else [])
      && links[0].1 == "https://ui.adsabs.harvard.edu/abs/" + bibcode + "/abstract"
      && links[3].1 == "https://ui.adsabs.harvard.edu/link_gateway/" + bibcode + "/EPRINT_PDF"
  {
    var all := AllLinks(bibcode);
    var tail := if Contains(bibcode, "arXiv") then [("arxiv", all[4].1.value)] else [];
    assert Present(all[4..]) == tail by {
      assert all[4..][1..] == [];
    }
    assert Present(all[3..]) == [("ads_pdf", all[3].1.value)] + tail by {
      assert all[3..][1..] == all[4..];
    }
    assert Present(all[2..]) == [("references", all[2].1.value), ("ads_pdf", all[3].1.value)] + tail by {
      assert all[2..][1..] == all[3..];
    }
    assert Present(all[1..]) == [("citations", all[1].1.value), ("references", all[2].1.value), ("ads_pdf", all[3].1.value)] + tail by {
      assert all[1..][1..] == all[2..];
    }
  }

  /** On links with distinct names, keeping one link type leaves at most
      one link, and leaves it exactly when it is present and not None. */
  lemma {:induction false} OnlyTypeAtMostOne(links: seq<(string, Option<string>)>, linkType: string)
    requires UniqueKeys(links)
    ensures var r := OnlyType(links, linkType);
      |r| <= 1
      && (|r| == 1 <==> Get(links, linkType).Some? && Get(links, linkType).value.Some?)
      && (|r| == 1 ==> r[0] == (linkType, Get(links, linkType).value))
  {
    if |links| > 0 {
      var rest := links[1..];
      assert UniqueKeys(rest) by {
        forall i, j | 0 <= i < j < |rest| ensures rest[i].0 != rest[j].0 {
          assert rest[i] == links[i + 1] && rest[j] == links[j + 1];
        }
      }
      OnlyTypeAtMostOne(rest, linkType);
      if links[0].0 == linkType {
        assert !HasKey(rest, linkType) by {
          forall i | 0 <= i < |rest| ensures rest[i].0 != linkType {
            assert rest[i] == links[i + 1];
          }
        }
        GetFinds(rest, linkType);
        assert |OnlyType(rest, linkType)| == 0;
      }
    }
  }

  /** Filtering by a link type leaves at most that one link, and leaves it
      exactly when the paper has it. */
  lemma FilteredLinks(bibcode: string, linkType: string)
    requires linkType != ""
    ensures var links := LinksFor(bibcode, Some(linkType));
      |links| <= 1
      && (|links| == 1 <==> Get(AllLinks(bibcode), linkType).Some? && Get(AllLinks(bibcode), linkType).value.Some?)
      && (|links| == 1 ==> links[0] == (linkType, Get(AllLinks(bibcode), linkType).value.value))
  {
    var all := AllLinks(bibcode);
    assert UniqueKeys(all);
    OnlyTypeAtMostOne(all, linkType);
    var only := OnlyType(all, linkType);
    if |only| == 1 {
      assert only[1..] == [];
    }
  }

  // ---------------------------------------------------------------- get_fulltext

  /** The (url, source) chosen for a preferred format, if any. */
  function Pick(preferFormat: string, links: seq<(string, string)>): Option<(string, string)> {
    if preferFormat == "pdf" then
      if HasKey(links, "ads_pdf") then Some((Get(links, "ads_pdf").GetOr(""), "ads"))
      else if HasKey(links, "arxiv") then Some((ReplaceAll(Get(links, "arxiv").GetOr(""), "/abs/", "/pdf/") + ".pdf", "arxiv"))
      else None
    else if HasKey(links, "abstract") then Some((Get(links, "abstract").GetOr(""), "ads"))
    else None
  }

  /** The reply of `get_fulltext` for the links found. */
  function Fulltext(bibcode: string, preferFormat: string, links: seq<(string, string)>): Value {
    var base := [("bibcode", Str(bibcode)), ("format", Str(preferFormat))];
    match Pick(preferFormat, links)
    case Some((url, source)) => Dict(base + [("url", Str(url)), ("source", Str(source))])
    case None => Dict(base + [("error", Str("Full text not available")), ("available_links", StrDict(links))])
  }

  /** `get_fulltext(bibcode, prefer_format)`: the links come from an
      unfiltered `get_links`, whose errors propagate. */
  function GetFulltext(cfg: ServiceConfig, env: Env, bibcode: string, preferFormat: string,
                       response: Outcome<Option<Table>>): Outcome<Value> {
    match GetLinks(cfg, env, bibcode, None, response)
    case Err(e) => Err(e)
    case Ok(_) => Ok(Fulltext(bibcode, preferFormat, LinksFor(bibcode, None)))
  }

  /** For any set of links, the reply names an error exactly when the
      preferred format has no link: for "pdf" neither the ADS PDF nor an
      arXiv link, otherwise no abstract page. An arXiv link is turned into
      its PDF address. */
  lemma FulltextChoice(bibcode: string, preferFormat: string, links: seq<(string, string)>)
    ensures var r := Fulltext(bibcode, preferFormat, links);
      HasKey(r.entries, "url") != HasKey(r.entries, "error")
      && (HasKey(r.entries, "error") <==>
            if preferFormat == "pdf" then !HasKey(links, "ads_pdf") && !HasKey(links, "arxiv")
            else !HasKey(links, "abstract"))
    ensures preferFormat == "pdf" && !HasKey(links, "ads_pdf") && Get(links, "arxiv").Some? ==>
      Get(Fulltext(bibcode, preferFormat, links).entries, "url")
        == Some(Str(ReplaceAll(Get(links, "arxiv").value, "/abs/", "/pdf/") + ".pdf"))
  {
    GetFinds(links, "arxiv");
    var r := Fulltext(bibcode, preferFormat, links);
    var es := r.entries;
    assert Keys(es)[2] == es[2].0 && Keys(es)[3] == es[3].0;
    if Pick(preferFormat, links).Some? {
      assert HasKey(es, "url");
      GetAt(es, 2);
      assert !HasKey(es, "error") by {
        assert forall i :: 0 <= i < |es| ==> es[i].0 != "error";
      }
    } else {
      assert HasKey(es, "error");
      assert !HasKey(es, "url") by {
        assert forall i :: 0 <= i < |es| ==> es[i].0 != "url";
      }
    }
  }

  /** After a successful `get_links`, the full text is always found: the
      ADS PDF link for "pdf", the abstract page otherwise. */
  lemma FulltextAlwaysFound(cfg: ServiceConfig, env: Env, bibcode: string, preferFormat: string,
                            response: Outcome<Option<Table>>)
    requires GetFulltext(cfg, env, bibcode, preferFormat, response).Ok?
    ensures var r := GetFulltext(cfg, env, bibcode, preferFormat, response).value;
      r.Dict? && !HasKey(r.entries, "error")
      && Get(r.entries, "url") == Some(Str(
           if preferFormat == "pdf" then "https://ui.adsabs.harvard.edu/link_gateway/" + bibcode + "/EPRINT_PDF"
           else "https://ui.adsabs.harvard.edu/abs/" + bibcode + "/abstract"))
  {
    var links := LinksFor(bibcode, None);
    UnfilteredLinks(bibcode, None);
    assert Keys(links)[0] == "abstract" && Keys(links)[3] == "ads_pdf";
    assert HasKey(links, "abstract") && HasKey(links, "ads_pdf");
    GetAt(links, 3);
    FulltextChoice(bibcode, preferFormat, links);
    var es := Fulltext(bibcode, preferFormat, links).entries;
    GetAt(es, 2);
  }
}
