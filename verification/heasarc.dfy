/**
 * The HEASARC tools of `tools/heasarc.py`: the mission and column
 * listings, the positional search with its optional field list and record
 * tagging, the TAP delegation, and the data links built from the catalog
 * name. Each remote query is a parameter carrying its outcome.
 */
module Heasarc {
  import opened Wrappers
  import opened Strings
  import opened Py
  import opened Dicts
  import opened Errors
  import opened Exceptions
  import opened Config
  import opened ToolCommon
  import opened TableUtils
  import opened CoordUtils
  import opened Archive
  import Vo

  // ---------------------------------------------------------------- list_catalogs

  function CatalogList(records: seq<Value>): Value {
    Dict([("success", Bool(true)), ("service", Str("heasarc")), ("catalog_count", Int(|records|)),
          ("catalogs", List(records))])
  }

  /** `list_catalogs()`: `catalogs` is the outcome of the mission list.
      Every exception, an MCPError included, is wrapped. */
  function ListCatalogs(catalogs: Outcome<Option<Table>>): Outcome<Value> {
    var fail := (e: Exception) => Mcp(Wrapped(e, "Failed to list HEASARC catalogs: ", "heasarc", "Try again later", []));
    match catalogs
    case Err(e) => Err(fail(e))
    case Ok(None) => Ok(CatalogList([]))
    case Ok(Some(t)) =>
      match Records(Some(t))
      case Err(e) => Err(fail(e))
      case Ok(records) => Ok(CatalogList(records))
  }

  /** Any failure is a recoverable SERVICE_ERROR, even one that already was
      an MCPError; a list gives one record per row and catalog_count is
      their number. */
  lemma ListCatalogsReply(catalogs: Outcome<Option<Table>>)
    ensures var r := ListCatalogs(catalogs);
      (r.Err? ==> r.error.Mcp? && r.error.err.code == ServiceFailure && r.error.err.recoverable)
      && (catalogs.Err? ==> r.Err?)
      && (catalogs == Ok(None) ==> r == Ok(CatalogList([])))
      && (catalogs.Ok? && catalogs.value.Some? && DistinctNames(catalogs.value.value.columns) && r.Ok? ==>
            r.value.entries[2] == ("catalog_count", Int(NRows(catalogs.value.value)))
            && r.value.entries[3].1.List? && |r.value.entries[3].1.items| == NRows(catalogs.value.value))
  {
    if catalogs.Ok? && catalogs.value.Some? && DistinctNames(catalogs.value.value.columns) && Records(catalogs.value).Ok? {
      RecordsShape(catalogs.value.value, Records(catalogs.value).value);
    }
  }

  // ---------------------------------------------------------------- list_columns

  function CatalogMissing(catalog: string): MCPError {
    MCPError(CatalogNotFound, "Catalog not found: " + catalog, "heasarc", false,
      "Use heasarc_list_catalogs to see available catalogs", [("catalog", Str(catalog))])
  }

  function ColumnList(catalog: string, columns: Outcome<Option<Table>>): Outcome<Value> {
    match columns
    case Err(e) => Err(e)
    case Ok(None) => Err(Mcp(CatalogMissing(catalog)))
    case Ok(Some(t)) =>
      match Records(Some(t))
      case Err(e) => Err(e)
      case Ok(records) =>
        Ok(Dict([("success", Bool(true)), ("service", Str("heasarc")), ("catalog", Str(catalog)),
                 ("column_count", Int(|records|)), ("columns", List(records))]))
  }

  /** `list_columns(catalog)`: `columns` is the outcome of the column query. */
  function ListColumns(catalog: string, columns: Outcome<Option<Table>>): Outcome<Value> {
    Guard(ColumnList(catalog, columns), "Failed to get columns: ", "heasarc", "Check catalog name",
      [("catalog", Str(catalog))])
  }

  /** No column table raises CATALOG_NOT_FOUND, not recoverable, and it
      leaves the tool unchanged; a table gives one record per column row. */
  lemma ColumnsReply(catalog: string, columns: Outcome<Option<Table>>)
    ensures var r := ListColumns(catalog, columns);
      (columns == Ok(None) ==>
         r == Err(Mcp(CatalogMissing(catalog))) && r.error.err.code == CatalogNotFound && !r.error.err.recoverable)
      && (columns.Ok? && columns.value.Some? && DistinctNames(columns.value.value.columns) && r.Ok? ==>
            r.value.entries[3] == ("column_count", Int(NRows(columns.value.value)))
            && r.value.entries[4].1.List? && |r.value.entries[4].1.items| == NRows(columns.value.value))
      && (columns.Err? ==> r.Err? && (columns.error.Mcp? ==> r == Err(columns.error)))
  {
    if columns.Ok? && columns.value.Some? && DistinctNames(columns.value.value.columns) && Records(columns.value).Ok? {
      RecordsShape(columns.value.value, Records(columns.value).value);
    }
  }

  // ---------------------------------------------------------------- query_region

  /** The search arguments: mission, position and radius in arcminutes, and
      the comma-joined field list when columns are given and not empty. */
  function RegionKwargs(catalog: string, ra: Double, dec: Double, radius: Double, columns: Option<seq<string>>): Kwargs {
    [("mission", Str(catalog)), ("position", Sky(SkyCoord(ra, dec, "icrs"))), ("radius", Quantity(radius, "arcmin"))]
    + (if columns.Some? && |columns.value| > 0 then [("fields", Str(Join(",", columns.value)))] else [])
  }

  lemma RegionKwargsSpec(catalog: string, ra: Double, dec: Double, radius: Double, columns: Option<seq<string>>)
    ensures var kw := RegionKwargs(catalog, ra, dec, radius, columns);
      Get(kw, "mission") == Some(Str(catalog))
      && Get(kw, "position") == Some(Sky(SkyCoord(ra, dec, "icrs")))
      && Get(kw, "radius") == Some(Quantity(radius, "arcmin"))
      && (HasKey(kw, "fields") <==> columns.Some? && |columns.value| > 0)
      && (columns.Some? && |columns.value| > 0 ==> Get(kw, "fields") == Some(Str(Join(",", columns.value))))
  {
    var kw := RegionKwargs(catalog, ra, dec, radius, columns);
    HasKeyKeys(kw, "fields");
    GetAt(kw, 1);
    GetAt(kw, 2);
    if columns.Some? && |columns.value| > 0 {
      GetAt(kw, 3);
    }
  }

  /** `query_region(catalog, ra, dec, radius, columns)`: `run` gives the
      outcome of the search for the arguments it is sent. */
  function QueryRegion(catalog: string, ra: Double, dec: Double, radius: Double, columns: Option<seq<string>>,
                       run: Kwargs -> Outcome<Option<Table>>): Outcome<Value> {
    match ValidateCoordinates(ra, dec)
    case Err(e) => Err(e)
    case Ok(_) =>
      Guard(Search("heasarc", CatalogEcho(catalog, ra, dec, radius), run(RegionKwargs(catalog, ra, dec, radius, columns)),
          ArchiveTag("HEASARC", catalog)),
        "HEASARC query failed: ", "heasarc", "Check catalog name and coordinates",
        [("catalog", Str(catalog)), ("ra", Float(ra)), ("dec", Float(dec))])
  }

  /** Coordinates are checked before the search is sent; a result with rows
      gives one record per row, each tagged with HEASARC and the catalog. */
  lemma RegionReply(catalog: string, ra: Double, dec: Double, radius: Double, columns: Option<seq<string>>,
                    run: Kwargs -> Outcome<Option<Table>>, run': Kwargs -> Outcome<Option<Table>>)
    ensures ValidateCoordinates(ra, dec).Err? ==>
      QueryRegion(catalog, ra, dec, radius, columns, run) == Err(ValidateCoordinates(ra, dec).error)
      && QueryRegion(catalog, ra, dec, radius, columns, run') == QueryRegion(catalog, ra, dec, radius, columns, run)
    ensures var res := run(RegionKwargs(catalog, ra, dec, radius, columns));
      var r := QueryRegion(catalog, ra, dec, radius, columns, run);
      ValidateCoordinates(ra, dec).Ok? && res.Ok? && res.value.Some? && NRows(res.value.value) > 0
      && DistinctNames(res.value.value.columns) && r.Ok? ==>
        Get(r.value.entries, "total_count") == Some(Int(NRows(res.value.value)))
        && Get(r.value.entries, "data") == Some(List(Tagged(Records(res.value).value, ArchiveTag("HEASARC", catalog))))
  {
    var res := run(RegionKwargs(catalog, ra, dec, radius, columns));
    if ValidateCoordinates(ra, dec).Ok? && res.Ok? && res.value.Some? && DistinctNames(res.value.value.columns) {
      if Listing("heasarc", CatalogEcho(catalog, ra, dec, radius), res.value, ArchiveTag("HEASARC", catalog)).Ok? {
        ListingCounts("heasarc", CatalogEcho(catalog, ra, dec, radius), res.value, ArchiveTag("HEASARC", catalog));
      }
    }
  }

  // ---------------------------------------------------------------- query_tap

  /** `query_tap(query)`: a synchronous TAP query of the "heasarc" service
      with the default row limit. */
  function QueryTap(cfg: ServiceConfig, query: string, sync: Outcome<Option<Table>>,
                    job: Outcome<Vo.AsyncJob>): Outcome<Value> {
    Vo.TapQuery(cfg, "heasarc", query, false, 10000, sync, job)
  }

  /** The query never submits a job: it is the synchronous page of the
      resolved "heasarc" TAP service. */
  lemma QueryTapSync(cfg: ServiceConfig, query: string, sync: Outcome<Option<Table>>,
                     job: Outcome<Vo.AsyncJob>, job': Outcome<Vo.AsyncJob>)
    ensures QueryTap(cfg, query, sync, job) == QueryTap(cfg, query, sync, job')
    ensures QueryTap(cfg, query, sync, job)
      == Vo.TapReply(Vo.ResolveServiceUrl(cfg, "heasarc", "tap"), query, false, 10000, sync)
  {
  }

  /** The "heasarc" TAP service is the configured endpoint of that name, or
      the HEASARC Xamin service when none is configured. */
  lemma HeasarcTapUrl(cfg: ServiceConfig)
    ensures var url := Vo.ResolveServiceUrl(cfg, "heasarc", "tap");
      (HasKey(cfg.endpoints.tap, "heasarc") ==> Some(url) == Get(cfg.endpoints.tap, "heasarc"))
      && (!HasKey(cfg.endpoints.tap, "heasarc") ==> url == "https://heasarc.gsfc.nasa.gov/xamin/vo/tap")
  {
    assert "heasarc"[..4][1] != "http"[1];
    assert Vo.Endpoints(cfg, "tap") == cfg.endpoints.tap;
    GetFinds(cfg.endpoints.tap, "heasarc");
    assert Lower("heasarc") == "heasarc";
    assert Vo.Aliases[2].0 == "heasarc" && Vo.Aliases[0].0 != "heasarc" && Vo.Aliases[1].0 != "heasarc";
    GetAt(Vo.Aliases, 2);
  }

  // ---------------------------------------------------------------- get_data_links

  const FtpBase := "https://heasarc.gsfc.nasa.gov/FTP"

  /** The missions with a download area, by catalog-name prefix. */
  const MissionPrefixes: seq<string> := ["xmm", "chandra", "swift", "fermi"]

  /** The download area of the mission at `m` in MissionPrefixes. */
  function MissionUrl(m: nat, obsid: string): string
    requires m < |MissionPrefixes|
  {
    [FtpBase + "/xmm/data/rev0/" + obsid,
     "https://cda.harvard.edu/chaser/startViewer.do?obsid=" + obsid,
     FtpBase + "/swift/data/obs",
     "https://fermi.gsfc.nasa.gov/cgi-bin/ssc/LAT/LATDataQuery.cgi"][m]
  }

  /** The first prefix, from `from` on, that `s` starts with. */
  function FirstPrefix(s: string, prefixes: seq<string>, from: nat): (r: Option<nat>)
    requires from <= |prefixes|
    decreases |prefixes| - from
    ensures r.Some? ==> from <= r.value < |prefixes| && StartsWith(s, prefixes[r.value])
                        && forall j :: from <= j < r.value ==> !StartsWith(s, prefixes[j])
    ensures r.None? ==> forall j :: from <= j < |prefixes| ==> !StartsWith(s, prefixes[j])
  {
    if from == |prefixes| then None
    else if StartsWith(s, prefixes[from]) then Some(from)
    else FirstPrefix(s, prefixes, from + 1)
  }

  function BrowseUrl(obsid: string, catalog: string): string {
    "https://heasarc.gsfc.nasa.gov/cgi-bin/W3Browse/w3query.pl?tablehead=" + catalog + "&Entry=" + obsid
  }

  /** The links: the ids and the browse page, and the download area of the
      first mission whose prefix the lower-cased catalog name has. */
  function DataLinks(obsid: string, catalog: string): Kwargs {
    [("obsid", Str(obsid)), ("catalog", Str(catalog)), ("browse_url", Str(BrowseUrl(obsid, catalog)))]
    + match FirstPrefix(Lower(catalog), MissionPrefixes, 0)
      case None => []
      case Some(m) => [("data_url", Str(MissionUrl(m, obsid)))]
  }

  function LinksReply(obsid: string, catalog: string, links: Kwargs): Value {
    Dict([("success", Bool(true)), ("service", Str("heasarc")), ("obsid", Str(obsid)), ("catalog", Str(catalog)),
          ("links", Dict(links))])
  }

  /** `get_data_links(obsid, catalog)`: the links dict and its if/elif
      chain of prefix tests. */
  method GetDataLinks(obsid: string, catalog: string) returns (reply: Value)
    ensures reply == LinksReply(obsid, catalog, DataLinks(obsid, catalog))
  {
    var links: Kwargs := [("obsid", Str(obsid)), ("catalog", Str(catalog)), ("browse_url", Str(BrowseUrl(obsid, catalog)))];
    HasKeyKeys(links, "data_url");
    var lowered := Lower(catalog);
    var m := FirstPrefix(lowered, MissionPrefixes, 0);
    assert MissionPrefixes[0] == "xmm" && MissionPrefixes[1] == "chandra";
    assert MissionPrefixes[2] == "swift" && MissionPrefixes[3] == "fermi";
    if StartsWith(lowered, "xmm") {
      SetAbsent(links, "data_url", Str(FtpBase + "/xmm/data/rev0/" + obsid));
      links := Set(links, "data_url", Str(FtpBase + "/xmm/data/rev0/" + obsid));
      assert m == Some(0);
      assert links == DataLinks(obsid, catalog);
    } else if StartsWith(lowered, "chandra") {
      SetAbsent(links, "data_url", Str("https://cda.harvard.edu/chaser/startViewer.do?obsid=" + obsid));
      links := Set(links, "data_url", Str("https://cda.harvard.edu/chaser/startViewer.do?obsid=" + obsid));
      assert m == Some(1);
      assert links == DataLinks(obsid, catalog);
    } else if StartsWith(lowered, "swift") {
      SetAbsent(links, "data_url", Str(FtpBase + "/swift/data/obs"));
      links := Set(links, "data_url", Str(FtpBase + "/swift/data/obs"));
      assert m == Some(2);
      assert links == DataLinks(obsid, catalog);
    } else if StartsWith(lowered, "fermi") {
      SetAbsent(links, "data_url", Str("https://fermi.gsfc.nasa.gov/cgi-bin/ssc/LAT/LATDataQuery.cgi"));
      links := Set(links, "data_url", Str("https://fermi.gsfc.nasa.gov/cgi-bin/ssc/LAT/LATDataQuery.cgi"));
      assert m == Some(3);
      assert links == DataLinks(obsid, catalog);
    } else {
      assert m == None;
      assert links == DataLinks(obsid, catalog);
    }
    reply := LinksReply(obsid, catalog, links);
  }

  /** The links always hold the obsid, the catalog and the browse page. */
  lemma DataLinksFixed(obsid: string, catalog: string)
    ensures var links := DataLinks(obsid, catalog);
      Get(links, "obsid") == Some(Str(obsid)) && Get(links, "catalog") == Some(Str(catalog))
      && Get(links, "browse_url") == Some(Str(BrowseUrl(obsid, catalog)))
  {
    var links := DataLinks(obsid, catalog);
    GetAt(links, 1);
    GetAt(links, 2);
  }

  /** The links hold a data_url exactly when the lower-cased catalog name
      starts with a known mission, and then it is the first such mission's
      download area. */
  lemma DataUrlSpec(obsid: string, catalog: string)
    ensures var links := DataLinks(obsid, catalog);
      var known := exists i :: 0 <= i < |MissionPrefixes| && StartsWith(Lower(catalog), MissionPrefixes[i]);
      (HasKey(links, "data_url") <==> known)
      && forall i :: 0 <= i < |MissionPrefixes| && StartsWith(Lower(catalog), MissionPrefixes[i])
           && (forall j :: 0 <= j < i ==> !StartsWith(Lower(catalog), MissionPrefixes[j]))
           ==> Get(links, "data_url") == Some(Str(MissionUrl(i, obsid)))
  {
    var links := DataLinks(obsid, catalog);
    var m := FirstPrefix(Lower(catalog), MissionPrefixes, 0);
    HasKeyKeys(links, "data_url");
    if m.Some? {
      GetAt(links, 3);
      forall i | 0 <= i < |MissionPrefixes| && StartsWith(Lower(catalog), MissionPrefixes[i])
                 && (forall j :: 0 <= j < i ==> !StartsWith(Lower(catalog), MissionPrefixes[j]))
        ensures Get(links, "data_url") == Some(Str(MissionUrl(i, obsid)))
      {
        assert i == m.value;
      }
    }
  }
}
