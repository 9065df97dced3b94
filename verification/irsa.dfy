/**
 * The IRSA tools of `tools/irsa.py`: the catalog listing with its keyword
 * filter, the positional search with its optional column list and record
 * tagging, and the image links built for WISE, 2MASS or any other
 * mission. Each remote query is a parameter carrying its outcome.
 */
module Irsa {
  import opened Wrappers
  import opened Strings
  import opened Py
  import opened Dicts
  import opened Errors
  import opened Exceptions
  import opened ToolCommon
  import opened TableUtils
  import opened CoordUtils
  import opened Archive

  // ---------------------------------------------------------------- list_catalogs

  /** A catalog is listed when there is no filter, or when the lower-cased
      filter occurs in its lower-cased name or description text. */
  predicate Selected(filter: Option<string>, name: string, desc: Value) {
    !Given(filter)
    || Contains(Lower(name), Lower(filter.value))
    || Contains(Lower(Show(desc)), Lower(filter.value))
  }

  /** The entry of a listed catalog; a falsy description shows as "". */
  function CatalogEntry(name: string, desc: Value): Value {
    Dict([("name", Str(name)), ("description", Str(if Truthy(desc) then Show(desc) else ""))])
  }

  /** The selection test of a filter, as a function of a catalog. */
  function Keeps(filter: Option<string>): ((string, Value)) -> bool {
    (c: (string, Value)) => Selected(filter, c.0, c.1)
  }

  function EntryOf(c: (string, Value)): Value {
    CatalogEntry(c.0, c.1)
  }

  /** The entries of the kept items, in order. */
  function Kept<X>(xs: seq<X>, keep: X -> bool, entry: X -> Value): seq<Value> {
    if |xs| == 0 then []
    else Kept(xs[..|xs| - 1], keep, entry) + (if keep(xs[|xs| - 1]) then [entry(xs[|xs| - 1])] else [])
  }

  /** The entries of the selected catalogs, in the catalogs' order. */
  function Selection(catalogs: seq<(string, Value)>, filter: Option<string>): seq<Value> {
    Kept(catalogs, Keeps(filter), EntryOf)
  }

  /** The loop over `catalogs.items()` that skips unselected catalogs. */
  method SelectCatalogs(catalogs: seq<(string, Value)>, filter: Option<string>) returns (catalogList: seq<Value>)
    ensures catalogList == Selection(catalogs, filter)
  {
    catalogList := [];
    for i := 0 to |catalogs|
      invariant catalogList == Kept(catalogs[..i], Keeps(filter), EntryOf)
    {
      assert catalogs[..i + 1][..i] == catalogs[..i];
      var (name, desc) := catalogs[i];
      if Given(filter) && !Contains(Lower(name), Lower(filter.value))
         && !Contains(Lower(Show(desc)), Lower(filter.value)) {
        continue;
      }
      catalogList := catalogList + [CatalogEntry(name, desc)];
    }
    assert catalogs[..|catalogs|] == catalogs;
  }

  /** Keeping everything keeps every entry in order; otherwise the result
      holds exactly the entries of the kept items. */
  lemma {:induction false} KeptSpec<X>(xs: seq<X>, keep: X -> bool, entry: X -> Value)
    ensures |Kept(xs, keep, entry)| <= |xs|
    ensures (forall i :: 0 <= i < |xs| ==> keep(xs[i])) ==>
      (|Kept(xs, keep, entry)| == |xs| && forall i :: 0 <= i < |xs| ==> Kept(xs, keep, entry)[i] == entry(xs[i]))
    ensures forall v :: v in Kept(xs, keep, entry) ==> exists i :: 0 <= i < |xs| && keep(xs[i]) && v == entry(xs[i])
    ensures forall i :: 0 <= i < |xs| && keep(xs[i]) ==> entry(xs[i]) in Kept(xs, keep, entry)
  {
    if |xs| > 0 {
      var init := xs[..|xs| - 1];
      var last := xs[|xs| - 1];
      KeptSpec(init, keep, entry);
      forall v | v in Kept(xs, keep, entry)
        ensures exists i :: 0 <= i < |xs| && keep(xs[i]) && v == entry(xs[i])
      {
        if v in Kept(init, keep, entry) {
          var i :| 0 <= i < |init| && keep(init[i]) && v == entry(init[i]);
          assert xs[i] == init[i];
        } else {
          assert keep(last) && v == entry(last);
        }
      }
      forall i | 0 <= i < |xs| && keep(xs[i]) ensures entry(xs[i]) in Kept(xs, keep, entry) {
        if i < |init| {
          assert xs[i] == init[i];
        }
      }
      if forall i :: 0 <= i < |xs| ==> keep(xs[i]) {
        assert forall i :: 0 <= i < |init| ==> keep(init[i]) by {
          forall i | 0 <= i < |init| ensures keep(init[i]) {
            assert init[i] == xs[i];
          }
        }
        forall i | 0 <= i < |xs| ensures Kept(xs, keep, entry)[i] == entry(xs[i]) {
          if i < |init| {
            assert xs[i] == init[i];
          }
        }
      }
    }
  }

  /** Without a filter every catalog is listed, in order; with one, the
      listing holds exactly the entries of the selected catalogs. */
  lemma SelectionSpec(catalogs: seq<(string, Value)>, filter: Option<string>)
    ensures |Selection(catalogs, filter)| <= |catalogs|
    ensures !Given(filter) ==>
      (|Selection(catalogs, filter)| == |catalogs|
       && forall i :: 0 <= i < |catalogs| ==> Selection(catalogs, filter)[i] == CatalogEntry(catalogs[i].0, catalogs[i].1))
    ensures forall x :: x in Selection(catalogs, filter) ==>
      exists i :: 0 <= i < |catalogs| && Selected(filter, catalogs[i].0, catalogs[i].1)
                  && x == CatalogEntry(catalogs[i].0, catalogs[i].1)
    ensures forall i :: 0 <= i < |catalogs| && Selected(filter, catalogs[i].0, catalogs[i].1) ==>
      CatalogEntry(catalogs[i].0, catalogs[i].1) in Selection(catalogs, filter)
  {
    KeptSpec(catalogs, Keeps(filter), EntryOf);
  }

  function CatalogReply(filter: Option<string>, entries: seq<Value>): Value {
    Dict([("success", Bool(true)), ("service", Str("irsa")), ("filter", OptStr(filter)),
          ("catalog_count", Int(|entries|)), ("catalogs", List(entries))])
  }

  /** `list_catalogs(filter)`: `catalogs` is the outcome of the catalog
      list, names with descriptions. Every exception is wrapped. */
  function ListCatalogs(filter: Option<string>, catalogs: Outcome<Option<seq<(string, Value)>>>): Outcome<Value> {
    match catalogs
    case Err(e) =>
      Err(Mcp(Wrapped(e, "Failed to list IRSA catalogs: ", "irsa", "Try again later", [("filter", OptStr(filter))])))
    case Ok(None) =>
      Ok(Dict([("success", Bool(true)), ("service", Str("irsa")), ("catalog_count", Int(0)), ("catalogs", List([]))]))
    case Ok(Some(cats)) => Ok(CatalogReply(filter, Selection(cats, filter)))
  }

  /** catalog_count is the number of listed catalogs: all of them without
      a filter. A failure, an MCPError included, is a recoverable
      SERVICE_ERROR that records the filter. */
  lemma ListCatalogsReply(filter: Option<string>, catalogs: Outcome<Option<seq<(string, Value)>>>)
    ensures var r := ListCatalogs(filter, catalogs);
      (catalogs.Err? ==>
         r.Err? && r.error.Mcp? && r.error.err.code == ServiceFailure && r.error.err.recoverable
         && Get(r.error.err.details, "filter") == Some(OptStr(filter)))
      && (catalogs.Ok? && catalogs.value.Some? ==>
            r.Ok? && r.value.entries[3].1.Int? && r.value.entries[3].1.i <= |catalogs.value.value|
            && (!Given(filter) ==> r.value.entries[3] == ("catalog_count", Int(|catalogs.value.value|))))
  {
    if catalogs.Ok? && catalogs.value.Some? {
      SelectionSpec(catalogs.value.value, filter);
    }
  }

  // ---------------------------------------------------------------- query_region

  /** The search arguments: catalog, position and radius in arcminutes, and
      the column list when it is given and not empty. */
  function RegionKwargs(catalog: string, ra: Double, dec: Double, radius: Double, columns: Option<seq<string>>): Kwargs {
    [("catalog", Str(catalog)), ("coordinates", Sky(SkyCoord(ra, dec, "icrs"))), ("radius", Quantity(radius, "arcmin"))]
    + (if columns.Some? && |columns.value| > 0 then [("columns", StrList(columns.value))] else [])
  }

  lemma RegionKwargsSpec(catalog: string, ra: Double, dec: Double, radius: Double, columns: Option<seq<string>>)
    ensures var kw := RegionKwargs(catalog, ra, dec, radius, columns);
      Get(kw, "catalog") == Some(Str(catalog))
      && Get(kw, "coordinates") == Some(Sky(SkyCoord(ra, dec, "icrs")))
      && Get(kw, "radius") == Some(Quantity(radius, "arcmin"))
      && (HasKey(kw, "columns") <==> columns.Some? && |columns.value| > 0)
      && (columns.Some? && |columns.value| > 0 ==> Get(kw, "columns") == Some(StrList(columns.value)))
  {
    var kw := RegionKwargs(catalog, ra, dec, radius, columns);
    HasKeyKeys(kw, "columns");
    GetAt(kw, 1);
    GetAt(kw, 2);
    if columns.Some? && |columns.value| > 0 {
      GetAt(kw, 3);
    }
  }

  /** `query_region(catalog, ra, dec, radius, columns)`: `run` gives the
      outcome of the search for the arguments it is sent. */
  function QueryRegion(catalog: string, ra: Double, dec: Double, radius: Double, columns: Option<seq<string>>,
                       run: Kwargs -> Outcome<Option<Table>>): Outcome<Value> {
    match ValidateCoordinates(ra, dec)
    case Err(e) => Err(e)
    case Ok(_) =>
      Guard(Search("irsa", CatalogEcho(catalog, ra, dec, radius), run(RegionKwargs(catalog, ra, dec, radius, columns)),
          ArchiveTag("IRSA", catalog)),
        "IRSA query failed: ", "irsa", "Check catalog name and coordinates",
        [("catalog", Str(catalog)), ("ra", Float(ra)), ("dec", Float(dec))])
  }

  /** Coordinates are checked before the search is sent; a result with rows
      gives one record per row, each tagged with IRSA and the catalog. */
  lemma RegionReply(catalog: string, ra: Double, dec: Double, radius: Double, columns: Option<seq<string>>,
                    run: Kwargs -> Outcome<Option<Table>>, run': Kwargs -> Outcome<Option<Table>>)
    ensures ValidateCoordinates(ra, dec).Err? ==>
      QueryRegion(catalog, ra, dec, radius, columns, run) == Err(ValidateCoordinates(ra, dec).error)
      && QueryRegion(catalog, ra, dec, radius, columns, run') == QueryRegion(catalog, ra, dec, radius, columns, run)
    ensures var res := run(RegionKwargs(catalog, ra, dec, radius, columns));
      var r := QueryRegion(catalog, ra, dec, radius, columns, run);
      ValidateCoordinates(ra, dec).Ok? && res.Ok? && res.value.Some? && NRows(res.value.value) > 0
      && DistinctNames(res.value.value.columns) && r.Ok? ==>
        Get(r.value.entries, "total_count") == Some(Int(NRows(res.value.value)))
        && Get(r.value.entries, "data") == Some(List(Tagged(Records(res.value).value, ArchiveTag("IRSA", catalog))))
  {
    var res := run(RegionKwargs(catalog, ra, dec, radius, columns));
    if ValidateCoordinates(ra, dec).Ok? && res.Ok? && res.value.Some? && DistinctNames(res.value.value.columns) {
      if Listing("irsa", CatalogEcho(catalog, ra, dec, radius), res.value, ArchiveTag("IRSA", catalog)).Ok? {
        ListingCounts("irsa", CatalogEcho(catalog, ra, dec, radius), res.value, ArchiveTag("IRSA", catalog));
      }
    }
  }

  // ---------------------------------------------------------------- get_images

  const WiseBands: seq<string> := ["w1", "w2", "w3", "w4"]
  const TwoMassBands: seq<string> := ["j", "h", "k"]

  predicate IsWise(mission: string) {
    Contains(Lower(mission), "wise") || Contains(Lower(mission), "allwise")
  }

  predicate IsTwoMass(mission: string) {
    Contains(Lower(mission), "2mass")
  }

  /** The three image URLs of a position: the WISE and 2MASS cutouts and
      the finder chart of the mission. */
  datatype ImageUrls = ImageUrls(wise: string, twoMass: string, finder: string)

  /** The URLs, with the position and the cutout size (the radius times 60)
      written as Python writes floats. */
  function Urls(mission: string, ra: Double, dec: Double, radius: Double): ImageUrls {
    var place := ShowDouble(ra) + "+" + ShowDouble(dec);
    var size := ShowDouble(Scale(radius, 60.0));
    ImageUrls(
      "https://irsa.ipac.caltech.edu/cgi-bin/Cutouts/nph-cutouts?mission=WISE&min_size=1&max_size=3600&units=arcsec&locstr="
      + place + "&mode=PI&ntable_cutouts=1&cutouttbl1=allwise-multiband&size=" + size,
      "https://irsa.ipac.caltech.edu/cgi-bin/Cutouts/nph-cutouts?mission=2MASS&min_size=1&max_size=3600&units=arcsec&locstr="
      + place + "&mode=PI&ntable_cutouts=1&size=" + size,
      "https://irsa.ipac.caltech.edu/cgi-bin/finder_chart/nph-finder?locstr=" + place + "&survey=" + mission + "&mode=PI")
  }

  function BandImage(survey: string, band: string, url: string): Value {
    Dict([("mission", Str(survey)), ("band", Str(band)), ("access_url", Str(url)), ("format", Str("fits"))])
  }

  /** The finder chart offered for any other mission. */
  function FinderImage(mission: string, url: string): Value {
    Dict([("mission", Str(mission)), ("access_url", Str(url)), ("format", Str("html"))])
  }

  /** The images: one per WISE band for a WISE mission, then one per 2MASS
      band for a 2MASS mission, and the finder chart when neither. */
  function Images(mission: string, urls: ImageUrls): seq<Value> {
    var wise := if IsWise(mission) then
      seq(|WiseBands|, i requires 0 <= i < |WiseBands| => BandImage("WISE", WiseBands[i], urls.wise))
      else [];
    var twoMass := if IsTwoMass(mission) then
      seq(|TwoMassBands|, i requires 0 <= i < |TwoMassBands| => BandImage("2MASS", TwoMassBands[i], urls.twoMass))
      else [];
    if |wise + twoMass| == 0 then [FinderImage(mission, urls.finder)] else wise + twoMass
  }

  /** The two band loops and the fallback of `get_images`. */
  method CollectImages(mission: string, urls: ImageUrls) returns (images: seq<Value>)
    ensures images == Images(mission, urls)
  {
    images := [];
    if IsWise(mission) {
      for i := 0 to |WiseBands|
        invariant images == seq(i, j requires 0 <= j < i => BandImage("WISE", WiseBands[j], urls.wise))
      {
        images := images + [BandImage("WISE", WiseBands[i], urls.wise)];
      }
    }
    var wise := images;
    if IsTwoMass(mission) {
      for i := 0 to |TwoMassBands|
        invariant images == wise + seq(i, j requires 0 <= j < i => BandImage("2MASS", TwoMassBands[j], urls.twoMass))
      {
        images := images + [BandImage("2MASS", TwoMassBands[i], urls.twoMass)];
      }
    } else {
      assert images == wise + [];
    }
    if |images| == 0 {
      images := images + [FinderImage(mission, urls.finder)];
    }
  }

  /** At least one image: four WISE bands first for a WISE mission, then
      three 2MASS bands for a 2MASS mission, and otherwise the single
      finder chart for the mission as given. */
  lemma ImagesSpec(mission: string, urls: ImageUrls)
    ensures var imgs := Images(mission, urls);
      var w := if IsWise(mission) then 4 else 0;
      |imgs| >= 1
      && (IsWise(mission) || IsTwoMass(mission) ==> |imgs| == w + (if IsTwoMass(mission) then 3 else 0))
      && (IsWise(mission) ==> forall i :: 0 <= i < 4 ==> imgs[i] == BandImage("WISE", WiseBands[i], urls.wise))
      && (IsTwoMass(mission) ==>
            forall i :: 0 <= i < 3 ==> imgs[w + i] == BandImage("2MASS", TwoMassBands[i], urls.twoMass))
      && (!IsWise(mission) && !IsTwoMass(mission) ==> imgs == [FinderImage(mission, urls.finder)])
  {
  }

  /** The handler of `get_images`: a failure inside its `try` block (only
      the import of the IRSA module can fail there) becomes a recoverable
      SERVICE_ERROR. */
  function ImageFailure(mission: string, ra: Double, dec: Double, e: Exception): MCPError {
    Wrapped(e, "IRSA image query failed: ", "irsa", "Check mission name and coordinates",
      [("mission", Str(mission)), ("ra", Float(ra)), ("dec", Float(dec))])
  }

  /** The reply of `get_images` for the given image URLs; `importFailure` is
      the message of the ImportError raised by importing the IRSA module,
      if any. */
  function ImageReply(mission: string, ra: Double, dec: Double, radius: Double, importFailure: Option<string>,
                      urls: ImageUrls): Outcome<Value> {
    match ValidateCoordinates(ra, dec)
    case Err(e) => Err(e)
    case Ok(_) =>
      if importFailure.Some? then Err(Mcp(ImageFailure(mission, ra, dec, Builtin(ImportError, importFailure.value))))
      else Ok(Found("irsa", Dict([("mission", Str(mission)), ("ra", Float(ra)), ("dec", Float(dec)), ("radius", Float(radius))]),
               Images(mission, urls)))
  }

  /** `get_images(mission, ra, dec, radius)`: nothing is queried, and the
      images are listed as a search reply. */
  function GetImages(mission: string, ra: Double, dec: Double, radius: Double, importFailure: Option<string>)
      : Outcome<Value> {
    ImageReply(mission, ra, dec, radius, importFailure, Urls(mission, ra, dec, radius))
  }

  /** The tool fails exactly when the coordinates are invalid, with their
      error, or else when the IRSA module cannot be imported, with a
      recoverable SERVICE_ERROR naming the import error; otherwise both
      counts are the number of images, never zero. Stated for any URLs, and
      so for those of the position. */
  lemma ImagesReply(mission: string, ra: Double, dec: Double, radius: Double, importFailure: Option<string>,
                    urls: ImageUrls)
    ensures var r := ImageReply(mission, ra, dec, radius, importFailure, urls);
      (r.Err? <==> ValidateCoordinates(ra, dec).Err? || importFailure.Some?)
      && (ValidateCoordinates(ra, dec).Err? ==> r.error == ValidateCoordinates(ra, dec).error)
      && (ValidateCoordinates(ra, dec).Ok? && importFailure.Some? ==>
            r.error.Mcp? && r.error.err.code == ServiceFailure && r.error.err.recoverable
            && r.error.err.message == "IRSA image query failed: " + importFailure.value)
      && (r.Ok? ==>
            var n := |Images(mission, urls)|;
            n >= 1 && Get(r.value.entries, "total_count") == Some(Int(n))
            && Get(r.value.entries, "returned_count") == Some(Int(n)))
  {
    ImagesSpec(mission, urls);
  }
}
