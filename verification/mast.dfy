/**
 * The MAST tools of `tools/mast.py`: observation searches by position and
 * by criteria with their record tagging, the product list, the download
 * URLs, and the catalog search.
 *
 * Each remote query is a parameter carrying its outcome; building a table
 * from the product records and the minimum-recommended-products filter are
 * astroquery code and parameters too.
 */
module Mast {
  import opened Wrappers
  import opened Strings
  import opened Py
  import opened Dicts
  import opened Errors
  import opened Exceptions
  import opened ToolCommon
  import opened TableUtils
  import opened CoordUtils
  import opened Archive

  // ---------------------------------------------------------------- tagging

  /** The proprietary flag: true unless dataRights is "PUBLIC". A record
      without dataRights is flagged false when `flagMissing` and left
      alone otherwise. */
  function Proprietary(rec: Value, flagMissing: bool): Value {
    if rec.Dict? && HasKey(rec.entries, "dataRights") then
      SetField(rec, "proprietary", Bool(Get(rec.entries, "dataRights") != Some(Str("PUBLIC"))))
    else if flagMissing then SetField(rec, "proprietary", Bool(false))
    else rec
  }

  /** The MAST tagging: `query_region` flags every record, `query_criteria`
      only those with dataRights. */
  function MastTag(flagMissing: bool): Value -> Value {
    rec => Proprietary(SetField(rec, "archive", Str("MAST")), flagMissing)
  }

  /** The flag follows dataRights, and every other field is kept. */
  lemma ProprietaryFields(rec: Value, flagMissing: bool, k: string)
    requires rec.Dict?
    ensures var t := Proprietary(rec, flagMissing);
      t.Dict?
      && (HasKey(rec.entries, "dataRights") ==>
            Get(t.entries, "proprietary") == Some(Bool(Get(rec.entries, "dataRights") != Some(Str("PUBLIC")))))
      && (!HasKey(rec.entries, "dataRights") && flagMissing ==> Get(t.entries, "proprietary") == Some(Bool(false)))
      && (!HasKey(rec.entries, "dataRights") && !flagMissing ==> t == rec)
      && (k != "proprietary" ==> Get(t.entries, k) == Get(rec.entries, k))
  {
    GetFinds(rec.entries, "dataRights");
    if HasKey(rec.entries, "dataRights") || flagMissing {
      var flag := if HasKey(rec.entries, "dataRights") then Bool(Get(rec.entries, "dataRights") != Some(Str("PUBLIC")))
                  else Bool(false);
      GetSet(rec.entries, "proprietary", flag, k);
      GetSet(rec.entries, "proprietary", flag, "proprietary");
    }
  }

  /** A tagged record names MAST, carries the proprietary flag as the
      search asks, and keeps every other field. */
  lemma MastTagFields(flagMissing: bool, rec: Value, k: string)
    requires rec.Dict?
    ensures var t := MastTag(flagMissing)(rec);
      t.Dict? && Get(t.entries, "archive") == Some(Str("MAST"))
      && (HasKey(rec.entries, "dataRights") ==>
            Get(t.entries, "proprietary") == Some(Bool(Get(rec.entries, "dataRights") != Some(Str("PUBLIC")))))
      && (!HasKey(rec.entries, "dataRights") && flagMissing ==> Get(t.entries, "proprietary") == Some(Bool(false)))
      && (!HasKey(rec.entries, "dataRights") && !flagMissing ==>
            Get(t.entries, "proprietary") == Get(rec.entries, "proprietary"))
      && (k != "archive" && k != "proprietary" ==> Get(t.entries, k) == Get(rec.entries, k))
  {
    var r1 := SetField(rec, "archive", Str("MAST"));
    GetSet(rec.entries, "archive", Str("MAST"), "dataRights");
    GetFinds(rec.entries, "dataRights");
    GetFinds(r1.entries, "dataRights");
    GetSet(rec.entries, "archive", Str("MAST"), k);
    GetSet(rec.entries, "archive", Str("MAST"), "archive");
    GetSet(rec.entries, "archive", Str("MAST"), "proprietary");
    ProprietaryFields(r1, flagMissing, k);
    ProprietaryFields(r1, flagMissing, "archive");
  }

  // ---------------------------------------------------------------- query_region

  /** `query_region(ra, dec, radius)`: `result` is the outcome of the
      observation search. */
  function QueryRegion(ra: Double, dec: Double, radius: Double, result: Outcome<Option<Table>>): Outcome<Value> {
    match ValidateCoordinates(ra, dec)
    case Err(e) => Err(e)
    case Ok(_) =>
      Guard(Search("mast", Dict([("ra", Float(ra)), ("dec", Float(dec)), ("radius", Float(radius))]), result, MastTag(true)),
        "MAST query failed: ", "mast", "Check coordinates and try again", [("ra", Float(ra)), ("dec", Float(dec))])
  }

  // ---------------------------------------------------------------- query_criteria

  function CriteriaArgs(obsCollection: Option<string>, instrumentName: Option<string>, proposalPi: Option<string>,
                        targetName: Option<string>): seq<(string, Option<string>)> {
    [("obs_collection", obsCollection), ("instrument_name", instrumentName), ("proposal_pi", proposalPi),
     ("target_name", targetName)]
  }

  /** The four conditional insertions of `query_criteria`. */
  method BuildCriteria(obsCollection: Option<string>, instrumentName: Option<string>, proposalPi: Option<string>,
                       targetName: Option<string>) returns (criteria: Kwargs)
    ensures criteria == GivenArgs(CriteriaArgs(obsCollection, instrumentName, proposalPi, targetName))
  {
    criteria := [];
    criteria := InsertGiven(criteria, "obs_collection", obsCollection, [], []);
    assert [] + [("obs_collection", obsCollection)] == [("obs_collection", obsCollection)];
    criteria := InsertGiven(criteria, "instrument_name", instrumentName, [], [("obs_collection", obsCollection)]);
    assert [("obs_collection", obsCollection)] + [("instrument_name", instrumentName)]
      == [("obs_collection", obsCollection), ("instrument_name", instrumentName)];
    criteria := InsertGiven(criteria, "proposal_pi", proposalPi, [],
      [("obs_collection", obsCollection), ("instrument_name", instrumentName)]);
    assert [("obs_collection", obsCollection), ("instrument_name", instrumentName)] + [("proposal_pi", proposalPi)]
      == [("obs_collection", obsCollection), ("instrument_name", instrumentName), ("proposal_pi", proposalPi)];
    criteria := InsertGiven(criteria, "target_name", targetName, [],
      [("obs_collection", obsCollection), ("instrument_name", instrumentName), ("proposal_pi", proposalPi)]);
    assert [("obs_collection", obsCollection), ("instrument_name", instrumentName), ("proposal_pi", proposalPi)]
      + [("target_name", targetName)] == CriteriaArgs(obsCollection, instrumentName, proposalPi, targetName);
    assert [] + GivenArgs(CriteriaArgs(obsCollection, instrumentName, proposalPi, targetName))
      == GivenArgs(CriteriaArgs(obsCollection, instrumentName, proposalPi, targetName));
  }

  const NoCriteria: MCPError :=
    MCPError(Validation, "At least one search criterion required", "mast", false,
      "Provide obs_collection, instrument_name, proposal_pi, or target_name", [])

  /** `query_criteria(...)`: `run` gives the outcome of the search for the
      criteria it is sent. */
  function QueryCriteria(obsCollection: Option<string>, instrumentName: Option<string>, proposalPi: Option<string>,
                         targetName: Option<string>, run: Kwargs -> Outcome<Option<Table>>): Outcome<Value> {
    var criteria := GivenArgs(CriteriaArgs(obsCollection, instrumentName, proposalPi, targetName));
    if |criteria| == 0 then Err(Mcp(NoCriteria))
    else
      Guard(Search("mast", Dict(criteria), run(criteria), MastTag(false)),
        "MAST query failed: ", "mast", "Check criteria values", [("criteria", Dict(criteria))])
  }

  /** With no truthy argument the tool raises VALIDATION_ERROR, not
      recoverable, without querying; otherwise the search is sent the
      given criteria. */
  lemma CriteriaRequired(obsCollection: Option<string>, instrumentName: Option<string>, proposalPi: Option<string>,
                         targetName: Option<string>, run: Kwargs -> Outcome<Option<Table>>,
                         run': Kwargs -> Outcome<Option<Table>>)
    ensures var r := QueryCriteria(obsCollection, instrumentName, proposalPi, targetName, run);
      var criteria := GivenArgs(CriteriaArgs(obsCollection, instrumentName, proposalPi, targetName));
      (!Given(obsCollection) && !Given(instrumentName) && !Given(proposalPi) && !Given(targetName) ==>
         r == Err(Mcp(NoCriteria)) && r.error.err.code == Validation && !r.error.err.recoverable
         && r == QueryCriteria(obsCollection, instrumentName, proposalPi, targetName, run'))
      && (Given(obsCollection) || Given(instrumentName) || Given(proposalPi) || Given(targetName) ==>
            |criteria| > 0 && (run(criteria) == run'(criteria) ==>
              r == QueryCriteria(obsCollection, instrumentName, proposalPi, targetName, run')))
  {
    var args := CriteriaArgs(obsCollection, instrumentName, proposalPi, targetName);
    GivenArgsSpec(args, "");
    assert args[0].1 == obsCollection && args[1].1 == instrumentName;
    assert args[2].1 == proposalPi && args[3].1 == targetName;
  }

  // ---------------------------------------------------------------- get_product_list

  function ProductReply(obsIds: seq<string>, records: seq<Value>): Value {
    Dict([("success", Bool(true)), ("service", Str("mast")), ("obs_ids", StrList(obsIds)),
          ("product_count", Int(|records|)), ("products", List(records))])
  }

  /** The products of the observations: none when the observation search or
      the product list comes back empty. `productsOf` gives the outcome of
      the product list for the observation table. */
  function Products(obsIds: seq<string>, observations: Outcome<Option<Table>>,
                    productsOf: Table -> Outcome<Option<Table>>): Outcome<Value> {
    match observations
    case Err(e) => Err(e)
    case Ok(obs) =>
      if NoRows(obs) then Ok(ProductReply(obsIds, []))
      else match productsOf(obs.value)
        case Err(e) => Err(e)
        case Ok(products) =>
          if NoRows(products) then Ok(ProductReply(obsIds, []))
          else match Records(products)
            case Err(e) => Err(e)
            case Ok(records) => Ok(ProductReply(obsIds, records))
  }

  /** `get_product_list(obs_ids)`: `observations` is the outcome of the
      search for the ids. */
  function GetProductList(obsIds: seq<string>, observations: Outcome<Option<Table>>,
                          productsOf: Table -> Outcome<Option<Table>>): Outcome<Value> {
    if |obsIds| == 0 then
      Err(Mcp(MCPError(Validation, "At least one observation ID required", "mast", false,
        "Provide obs_ids from query results", [])))
    else
      Guard(Products(obsIds, observations, productsOf), "Failed to get products: ", "mast", "Check observation IDs",
        [("obs_ids", StrList(obsIds))])
  }

  /** No ids is a VALIDATION_ERROR, not recoverable; an empty observation
      search gives no products without asking for them; otherwise the
      product count is the number of product rows. */
  lemma ProductCounts(obsIds: seq<string>, observations: Outcome<Option<Table>>,
                      productsOf: Table -> Outcome<Option<Table>>, productsOf': Table -> Outcome<Option<Table>>)
    ensures var r := GetProductList(obsIds, observations, productsOf);
      (|obsIds| == 0 ==> r.Err? && r.error.Mcp? && r.error.err.code == Validation && !r.error.err.recoverable)
      && (|obsIds| > 0 && observations.Ok? && NoRows(observations.value) ==>
            r == Ok(ProductReply(obsIds, [])) && r == GetProductList(obsIds, observations, productsOf'))
      && (|obsIds| > 0 && observations.Ok? && !NoRows(observations.value)
          && productsOf(observations.value.value).Ok? && productsOf(observations.value.value).value.Some?
          && DistinctNames(productsOf(observations.value.value).value.value.columns)
          && r.Ok? ==>
            Get(r.value.entries, "product_count") == Some(Int(NRows(productsOf(observations.value.value).value.value))))
  {
    if |obsIds| > 0 && observations.Ok? && !NoRows(observations.value) {
      var p := productsOf(observations.value.value);
      if p.Ok? && p.value.Some? && !NoRows(p.value) && Records(p.value).Ok? && DistinctNames(p.value.value.columns) {
        RecordsShape(p.value.value, Records(p.value).value);
        GetAt(ProductReply(obsIds, Records(p.value).value).entries, 3);
      }
      GetAt(ProductReply(obsIds, []).entries, 3);
    }
  }

  // ---------------------------------------------------------------- get_download_urls

  const DownloadPrefix := "https://mast.stsci.edu/api/v0.1/Download/file?uri="

  /** `int(row["size"])` when the size is truthy, else None. */
  function UrlSize(row: Row): Outcome<Value> {
    var size := Get(row, "size");
    if size.Some? && Truthy(size.value) then
      match AsInt(size.value)
      case Ok(n) => Ok(Int(n))
      case Err(e) => Err(e)
    else Ok(NoneValue)
  }

  function UrlBase(row: Row, size: Value): Row {
    [("product_filename", Str(Show(GetOr(row, "productFilename", Str(""))))),
     ("product_type", Str(Show(GetOr(row, "productType", Str(""))))),
     ("size", size)]
  }

  /** The URL entry of a product row: its file name and type as text, its
      size, and the download URL when the row has a truthy dataURI. */
  function UrlInfo(row: Row): Outcome<Value> {
    match UrlSize(row)
    case Err(e) => Err(e)
    case Ok(size) =>
      var uri := Get(row, "dataURI");
      if uri.Some? && Truthy(uri.value) then
        Ok(Dict(Set(UrlBase(row, size), "access_url", Str(DownloadPrefix + Show(uri.value)))))
      else Ok(Dict(UrlBase(row, size)))
  }

  /** The entry fails only on a truthy size `int()` rejects; its size is
      None exactly when the row's size is missing or falsy; it has an
      access_url, the MAST download prefix before the URI, exactly when the
      row's dataURI is truthy. */
  lemma UrlInfoFields(row: Row)
    ensures var r := UrlInfo(row);
      var uri := Get(row, "dataURI");
      var size := Get(row, "size");
      (r.Err? <==> size.Some? && Truthy(size.value) && AsInt(size.value).Err?)
      && (r.Ok? ==>
            r.value.Dict?
            && Keys(r.value.entries) == ["product_filename", "product_type", "size"]
                 + (if uri.Some? && Truthy(uri.value) then ["access_url"] else [])
            && (r.value.entries[2] == ("size", NoneValue) <==> !(size.Some? && Truthy(size.value)))
            && (uri.Some? && Truthy(uri.value) ==>
                  r.value.entries[3] == ("access_url", Str(DownloadPrefix + Show(uri.value)))))
  {
    var uri := Get(row, "dataURI");
    if UrlSize(row).Ok? && uri.Some? && Truthy(uri.value) {
      var base := UrlBase(row, UrlSize(row).value);
      assert "access_url" !in Keys(base);
      HasKeyKeys(base, "access_url");
      SetAbsent(base, "access_url", Str(DownloadPrefix + Show(uri.value)));
    }
  }

  /** `get_download_urls(product_list, mrp_only)`: `asTable` builds the
      table from the product records and `filterMrp` keeps the minimum
      recommended products; every failure is wrapped. */
  function GetDownloadUrls(productList: seq<Value>, mrpOnly: bool, asTable: seq<Value> -> Outcome<Table>,
                           filterMrp: Table -> Outcome<Table>): Outcome<Value> {
    if |productList| == 0 then
      Ok(Dict([("success", Bool(true)), ("service", Str("mast")), ("url_count", Int(0)), ("urls", List([]))]))
    else
      var fail := (e: Exception) => Mcp(Wrapped(e, "Failed to get download URLs: ", "mast", "Check product list format", []));
      match asTable(productList)
      case Err(e) => Err(fail(e))
      case Ok(t) =>
        match (if mrpOnly then filterMrp(t) else Ok(t))
        case Err(e) => Err(fail(e))
        case Ok(products) =>
          match MapRows(products, UrlInfo, NRows(products))
          case Err(e) => Err(fail(e))
          case Ok(urls) =>
            Ok(Dict([("success", Bool(true)), ("service", Str("mast")), ("mrp_only", Bool(mrpOnly)),
                     ("url_count", Int(|urls|)), ("urls", List(urls))]))
  }

  /** url_count is the number of URL entries: zero for an empty list, and
      otherwise one per product row, each that row's entry. */
  lemma DownloadUrlsCount(productList: seq<Value>, mrpOnly: bool, asTable: seq<Value> -> Outcome<Table>,
                          filterMrp: Table -> Outcome<Table>)
    requires GetDownloadUrls(productList, mrpOnly, asTable, filterMrp).Ok?
    ensures var es := GetDownloadUrls(productList, mrpOnly, asTable, filterMrp).value.entries;
      (|productList| == 0 ==> es[2] == ("url_count", Int(0)) && es[3] == ("urls", List([])))
      && (|productList| > 0 ==>
            var products := if mrpOnly then filterMrp(asTable(productList).value).value else asTable(productList).value;
            es[3] == ("url_count", Int(NRows(products)))
            && es[4].1.List? && |es[4].1.items| == NRows(products)
            && forall i :: 0 <= i < NRows(products) ==> UrlInfo(RowOf(products, i)) == Ok(es[4].1.items[i]))
  {
    if |productList| > 0 {
      var products := if mrpOnly then filterMrp(asTable(productList).value).value else asTable(productList).value;
      MapRowsOk(products, UrlInfo, NRows(products));
    }
  }

  // ---------------------------------------------------------------- catalog_query

  /** `catalog_query(catalog, ra, dec, radius)`: the records are returned
      untagged. */
  function CatalogQuery(catalog: string, ra: Double, dec: Double, radius: Double,
                        result: Outcome<Option<Table>>): Outcome<Value> {
    match ValidateCoordinates(ra, dec)
    case Err(e) => Err(e)
    case Ok(_) =>
      Guard(Search("mast", CatalogEcho(catalog, ra, dec, radius), result, Same),
        "MAST catalog query failed: ", "mast", "Check catalog name and coordinates",
        [("catalog", Str(catalog)), ("ra", Float(ra)), ("dec", Float(dec))])
  }

  /** Coordinates are checked before either positional search, whatever the
      search would have given. */
  lemma MastValidatesFirst(catalog: string, ra: Double, dec: Double, radius: Double, result: Outcome<Option<Table>>)
    requires ValidateCoordinates(ra, dec).Err?
    ensures QueryRegion(ra, dec, radius, result) == Err(ValidateCoordinates(ra, dec).error)
    ensures CatalogQuery(catalog, ra, dec, radius, result) == Err(ValidateCoordinates(ra, dec).error)
  {
  }

  /** A region result with rows counts them and tags every record. */
  lemma RegionTagged(ra: Double, dec: Double, radius: Double, t: Table)
    requires ValidateCoordinates(ra, dec).Ok? && DistinctNames(t.columns) && NRows(t) > 0
    requires Records(Some(t)).Ok?
    ensures var r := QueryRegion(ra, dec, radius, Ok(Some(t)));
      r.Ok? && Get(r.value.entries, "total_count") == Some(Int(NRows(t)))
      && Get(r.value.entries, "data") == Some(List(Tagged(Records(Some(t)).value, MastTag(true))))
  {
    ListingCounts("mast", Dict([("ra", Float(ra)), ("dec", Float(dec)), ("radius", Float(radius))]), Some(t), MastTag(true));
  }

  /** A search failure that is not an MCPError becomes a recoverable
      SERVICE_ERROR naming the error, with the position in its details; an
      MCPError passes unchanged. */
  lemma RegionFailure(ra: Double, dec: Double, radius: Double, e: Exception)
    requires ValidateCoordinates(ra, dec).Ok?
    ensures e.Mcp? ==> QueryRegion(ra, dec, radius, Err(e)) == Err(e)
    ensures e.Builtin? ==>
      var r := QueryRegion(ra, dec, radius, Err(e));
      r.Err? && r.error.Mcp? && r.error.err.code == ServiceFailure && r.error.err.recoverable
      && r.error.err.service == "mast" && r.error.err.message == "MAST query failed: " + ExceptionText(e)
      && r.error.err.details == [("ra", Float(ra)), ("dec", Float(dec)), ("error", Str(ExceptionText(e)))]
  {
  }
}
