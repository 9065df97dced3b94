/**
 * The static service catalogue (tools/discovery.py): which services exist,
 * which tools each offers and what those tools look like, plus the three
 * lookups an orchestrating agent uses over it.
 */
module Discovery {
  import opened Wrappers
  import opened Strings
  import opened Py
  import opened Dicts
  import opened Exceptions
  import opened Config
  import opened Auth
  import opened ToolCommon

  /** `ServiceInfo` (models/results.py) */
  datatype ServiceInfo = ServiceInfo(name: string, description: string, category: string,
                                     requiresAuth: bool, tools: seq<string>)

  /** `ToolParameter` without its free-text description; `default` is None
      when the record does not set one. */
  datatype ToolParameter = ToolParameter(name: string, typeName: string, required: bool, default: Value)

  /** `ToolSignature` without its free-text description, returns text and
      example. */
  datatype ToolSignature = ToolSignature(name: string, service: string, parameters: seq<ToolParameter>)

  /** `SERVICES` (tools/discovery.py:8-108) */
  const Services: seq<(string, ServiceInfo)> := [
    ("ads", ServiceInfo("ads", "NASA Astrophysics Data System - literature search and bibliographic data",
      "literature", true,
      ["ads_search_papers", "ads_get_record", "ads_get_links", "ads_get_fulltext"])),
    ("simbad", ServiceInfo("simbad", "SIMBAD astronomical database - object resolution and crossmatch",
      "resolver", false,
      ["simbad_resolve_name", "simbad_query_region", "simbad_get_object_info"])),
    ("vo", ServiceInfo("vo", "Virtual Observatory protocols - TAP, SIA, SSA queries",
      "vo", false,
      ["vo_tap_query", "vo_tap_list_tables", "vo_tap_table_schema", "vo_sia_search", "vo_ssa_search", "vo_discover_services"])),
    ("heasarc", ServiceInfo("heasarc", "HEASARC - High Energy Astrophysics archive",
      "archive", false,
      ["heasarc_list_catalogs", "heasarc_list_columns", "heasarc_query_region", "heasarc_query_tap", "heasarc_get_data_links"])),
    ("irsa", ServiceInfo("irsa", "IRSA - Infrared Science Archive",
      "archive", false,
      ["irsa_list_catalogs", "irsa_query_region", "irsa_get_images"])),
    ("mast", ServiceInfo("mast", "MAST - Mikulski Archive for Space Telescopes",
      "archive", false,
      ["mast_query_region", "mast_query_criteria", "mast_get_product_list", "mast_get_download_urls", "mast_catalog_query"])),
    ("nea", ServiceInfo("nea", "NASA Exoplanet Archive - exoplanet data",
      "archive", false,
      ["nea_query_criteria", "nea_query_object", "nea_query_region", "nea_list_tables"])),
    ("gcn", ServiceInfo("gcn", "GCN - Gamma-ray Coordinates Network alerts",
      "alerts", false,
      ["gcn_fetch_circular", "gcn_search_circulars", "gcn_fetch_notice", "gcn_parse_localization", "gcn_crossmatch_vo"]))]

  /** tools/discovery.py:112-221 */
  const AdsSignatures: seq<(string, ToolSignature)> := [
    ("ads_search_papers", ToolSignature("ads_search_papers", "ads", [
        ToolParameter("query", "str", true, NoneValue),
        ToolParameter("page", "int", false, Int(1)),
        ToolParameter("rows_per_page", "int", false, Int(100)),
        ToolParameter("sort", "str", false, Str("date desc")),
        ToolParameter("fields", "list[str]", false, NoneValue)])),
    ("ads_get_record", ToolSignature("ads_get_record", "ads", [
        ToolParameter("bibcode", "str", true, NoneValue),
        ToolParameter("fields", "list[str]", false, NoneValue)])),
    ("ads_get_links", ToolSignature("ads_get_links", "ads", [
        ToolParameter("bibcode", "str", true, NoneValue),
        ToolParameter("link_type", "str", false, NoneValue)])),
    ("ads_get_fulltext", ToolSignature("ads_get_fulltext", "ads", [
        ToolParameter("bibcode", "str", true, NoneValue),
        ToolParameter("prefer_format", "str", false, Str("pdf"))]))]

  /** tools/discovery.py:222-307 */
  const SimbadSignatures: seq<(string, ToolSignature)> := [
    ("simbad_resolve_name", ToolSignature("simbad_resolve_name", "simbad", [
        ToolParameter("name", "str", true, NoneValue),
        ToolParameter("include_ids", "bool", false, Bool(false))])),
    ("simbad_query_region", ToolSignature("simbad_query_region", "simbad", [
        ToolParameter("ra", "float", true, NoneValue),
        ToolParameter("dec", "float", true, NoneValue),
        ToolParameter("radius", "float", true, NoneValue),
        ToolParameter("radius_unit", "str", false, Str("arcmin")),
        ToolParameter("limit", "int", false, Int(100))])),
    ("simbad_get_object_info", ToolSignature("simbad_get_object_info", "simbad", [
        ToolParameter("name", "str", true, NoneValue),
        ToolParameter("fields", "list[str]", false, NoneValue)]))]

  /** tools/discovery.py:308-481 */
  const VoSignatures: seq<(string, ToolSignature)> := [
    ("vo_tap_query", ToolSignature("vo_tap_query", "vo", [
        ToolParameter("service_url", "str", true, NoneValue),
        ToolParameter("query", "str", true, NoneValue),
        ToolParameter("async_mode", "bool", false, Bool(false)),
        ToolParameter("max_rows", "int", false, Int(10000))])),
    ("vo_tap_list_tables", ToolSignature("vo_tap_list_tables", "vo", [
        ToolParameter("service_url", "str", true, NoneValue)])),
    ("vo_tap_table_schema", ToolSignature("vo_tap_table_schema", "vo", [
        ToolParameter("service_url", "str", true, NoneValue),
        ToolParameter("table_name", "str", true, NoneValue)])),
    ("vo_sia_search", ToolSignature("vo_sia_search", "vo", [
        ToolParameter("service_url", "str", true, NoneValue),
        ToolParameter("ra", "float", true, NoneValue),
        ToolParameter("dec", "float", true, NoneValue),
        ToolParameter("radius", "float", true, NoneValue),
        ToolParameter("format", "str", false, NoneValue)])),
    ("vo_ssa_search", ToolSignature("vo_ssa_search", "vo", [
        ToolParameter("service_url", "str", true, NoneValue),
        ToolParameter("ra", "float", true, NoneValue),
        ToolParameter("dec", "float", true, NoneValue),
        ToolParameter("radius", "float", true, NoneValue),
        ToolParameter("band", "tuple", false, NoneValue)])),
    ("vo_discover_services", ToolSignature("vo_discover_services", "vo", [
        ToolParameter("resource_type", "str", true, NoneValue),
        ToolParameter("keywords", "str", false, NoneValue)]))]

  /** tools/discovery.py:482-589 */
  const HeasarcSignatures: seq<(string, ToolSignature)> := [
    ("heasarc_list_catalogs", ToolSignature("heasarc_list_catalogs", "heasarc", [
        ToolParameter("master", "bool", false, Bool(true))])),
    ("heasarc_list_columns", ToolSignature("heasarc_list_columns", "heasarc", [
        ToolParameter("catalog", "str", true, NoneValue)])),
    ("heasarc_query_region", ToolSignature("heasarc_query_region", "heasarc", [
        ToolParameter("catalog", "str", true, NoneValue),
        ToolParameter("ra", "float", true, NoneValue),
        ToolParameter("dec", "float", true, NoneValue),
        ToolParameter("radius", "float", true, NoneValue),
        ToolParameter("columns", "list[str]", false, NoneValue)])),
    ("heasarc_query_tap", ToolSignature("heasarc_query_tap", "heasarc", [
        ToolParameter("query", "str", true, NoneValue)])),
    ("heasarc_get_data_links", ToolSignature("heasarc_get_data_links", "heasarc", [
        ToolParameter("obsid", "str", true, NoneValue),
        ToolParameter("catalog", "str", true, NoneValue)]))]

  /** tools/discovery.py:590-679 */
  const IrsaSignatures: seq<(string, ToolSignature)> := [
    ("irsa_list_catalogs", ToolSignature("irsa_list_catalogs", "irsa", [
        ToolParameter("filter", "str", false, NoneValue)])),
    ("irsa_query_region", ToolSignature("irsa_query_region", "irsa", [
        ToolParameter("catalog", "str", true, NoneValue),
        ToolParameter("ra", "float", true, NoneValue),
        ToolParameter("dec", "float", true, NoneValue),
        ToolParameter("radius", "float", true, NoneValue),
        ToolParameter("columns", "list[str]", false, NoneValue)])),
    ("irsa_get_images", ToolSignature("irsa_get_images", "irsa", [
        ToolParameter("mission", "str", true, NoneValue),
        ToolParameter("ra", "float", true, NoneValue),
        ToolParameter("dec", "float", true, NoneValue),
        ToolParameter("radius", "float", true, NoneValue)]))]

  /** tools/discovery.py:680-814 */
  const MastSignatures: seq<(string, ToolSignature)> := [
    ("mast_query_region", ToolSignature("mast_query_region", "mast", [
        ToolParameter("ra", "float", true, NoneValue),
        ToolParameter("dec", "float", true, NoneValue),
        ToolParameter("radius", "float", true, NoneValue)])),
    ("mast_query_criteria", ToolSignature("mast_query_criteria", "mast", [
        ToolParameter("obs_collection", "str", false, NoneValue),
        ToolParameter("instrument_name", "str", false, NoneValue),
        ToolParameter("proposal_pi", "str", false, NoneValue),
        ToolParameter("target_name", "str", false, NoneValue)])),
    ("mast_get_product_list", ToolSignature("mast_get_product_list", "mast", [
        ToolParameter("obs_ids", "list[str]", true, NoneValue)])),
    ("mast_get_download_urls", ToolSignature("mast_get_download_urls", "mast", [
        ToolParameter("product_list", "list", true, NoneValue),
        ToolParameter("mrp_only", "bool", false, Bool(false))])),
    ("mast_catalog_query", ToolSignature("mast_catalog_query", "mast", [
        ToolParameter("catalog", "str", true, NoneValue),
        ToolParameter("ra", "float", true, NoneValue),
        ToolParameter("dec", "float", true, NoneValue),
        ToolParameter("radius", "float", true, NoneValue)]))]

  /** tools/discovery.py:815-915 */
  const NeaSignatures: seq<(string, ToolSignature)> := [
    ("nea_query_criteria", ToolSignature("nea_query_criteria", "nea", [
        ToolParameter("table", "str", true, NoneValue),
        ToolParameter("select", "str", false, Str("*")),
        ToolParameter("where", "str", false, NoneValue),
        ToolParameter("order", "str", false, NoneValue)])),
    ("nea_query_object", ToolSignature("nea_query_object", "nea", [
        ToolParameter("object_name", "str", true, NoneValue),
        ToolParameter("table", "str", false, Str("ps"))])),
    ("nea_query_region", ToolSignature("nea_query_region", "nea", [
        ToolParameter("ra", "float", true, NoneValue),
        ToolParameter("dec", "float", true, NoneValue),
        ToolParameter("radius", "float", true, NoneValue),
        ToolParameter("table", "str", false, Str("ps"))])),
    ("nea_list_tables", ToolSignature("nea_list_tables", "nea", []))]

  /** tools/discovery.py:916-1012 */
  const GcnSignatures: seq<(string, ToolSignature)> := [
    ("gcn_fetch_circular", ToolSignature("gcn_fetch_circular", "gcn", [
        ToolParameter("circular_id", "int", true, NoneValue)])),
    ("gcn_search_circulars", ToolSignature("gcn_search_circulars", "gcn", [
        ToolParameter("query", "str", true, NoneValue),
        ToolParameter("event_name", "str", false, NoneValue),
        ToolParameter("limit", "int", false, Int(50))])),
    ("gcn_fetch_notice", ToolSignature("gcn_fetch_notice", "gcn", [
        ToolParameter("notice_id", "str", true, NoneValue),
        ToolParameter("notice_type", "str", false, NoneValue)])),
    ("gcn_parse_localization", ToolSignature("gcn_parse_localization", "gcn", [
        ToolParameter("content", "str", true, NoneValue)])),
    ("gcn_crossmatch_vo", ToolSignature("gcn_crossmatch_vo", "gcn", [
        ToolParameter("localization", "dict", true, NoneValue)]))]

  /** The groups of `TOOL_SIGNATURES`, one per service, in `SERVICES` order. */
  const SignatureGroups: seq<seq<(string, ToolSignature)>> :=
    [AdsSignatures, SimbadSignatures, VoSignatures, HeasarcSignatures,
     IrsaSignatures, MastSignatures, NeaSignatures, GcnSignatures]

  function Flatten<T>(groups: seq<seq<T>>): seq<T> {
    if |groups| == 0 then [] else groups[0] + Flatten(groups[1..])
  }

  /** `TOOL_SIGNATURES` (tools/discovery.py:111-1013) */
  const ToolSignatures: seq<(string, ToolSignature)> := Flatten(SignatureGroups)

  // ------------------------------------------------------------ model_dump

  /** `ServiceInfo.model_dump()`: the fields in declaration order. */
  function ServiceDump(s: ServiceInfo): Value {
    Dict([("name", Str(s.name)), ("description", Str(s.description)), ("category", Str(s.category)),
          ("requires_auth", Bool(s.requiresAuth)), ("tools", StrList(s.tools))])
  }

  function ParameterDump(p: ToolParameter): Value {
    Dict([("name", Str(p.name)), ("type", Str(p.typeName)), ("required", Bool(p.required)), ("default", p.default)])
  }

  /** `ToolSignature.model_dump()`, without the free-text fields. */
  function SignatureDump(s: ToolSignature): Value {
    Dict([("name", Str(s.name)), ("service", Str(s.service)),
          ("parameters", List(seq(|s.parameters|, i requires 0 <= i < |s.parameters| => ParameterDump(s.parameters[i]))))])
  }

  // ------------------------------------------------------------ the catalogue

  /** The services have distinct initials (hence distinct names), and each
      is filed under its own name. */
  lemma ServiceNames()
    ensures |Services| == 8
    ensures forall i :: 0 <= i < |Services| ==> |Services[i].0| > 0 && Services[i].1.name == Services[i].0
    ensures forall i, j :: 0 <= i < j < |Services| ==> Services[i].0[0] != Services[j].0[0]
  {
  }

  /** `SERVICES[s]` for a listed service. */
  lemma {:induction false} ServiceAt(i: nat)
    requires i < |Services|
    ensures Get(Services, Services[i].0) == Some(Services[i].1)
  {
    ServiceNames();
    GetAt(Services, i);
  }

  /** Only ADS requires authentication (tools/discovery.py:13). */
  lemma {:induction false} OnlyAdsRequiresAuth(service: string)
    ensures (Get(Services, service).Some? && Get(Services, service).value.requiresAuth) <==> service == "ads"
  {
    GetFinds(Services, service);
    ServiceNames();
    if Get(Services, service).Some? {
      var i :| 0 <= i < |Services| && Services[i] == (service, Get(Services, service).value);
    }
    if service == "ads" {
      ServiceAt(0);
    }
  }

  /** The signatures of one service: exactly its listed tools, in listing
      order, each filed under the tool's own name, naming the service, and
      named with the service's prefix (`ads_...` for "ads"). */
  predicate GroupFits(service: string, tools: seq<string>, group: seq<(string, ToolSignature)>) {
    |group| == |tools| && forall j :: 0 <= j < |group| ==> EntryFits(service, tools[j], group[j])
  }

  /** One signature entry of a service's tool `t`. */
  predicate EntryFits(service: string, t: string, entry: (string, ToolSignature)) {
    entry.0 == t && entry.1.name == t && entry.1.service == service && StartsWith(t, service + "_")
  }

  /** Every tool a service lists carries the service's prefix and has a
      signature, filed under the tool's name and naming that service. */
  predicate Consistent(services: seq<(string, ServiceInfo)>, table: seq<(string, ToolSignature)>) {
    forall i, t | 0 <= i < |services| && t in services[i].1.tools ::
      StartsWith(t, services[i].0 + "_")
      && Get(table, t).Some? && Get(table, t).value.name == t && Get(table, t).value.service == services[i].0
  }

  /** In a group that fits, a listed tool is found under its own name. */
  lemma {:induction false} GroupLookup(service: string, tools: seq<string>, group: seq<(string, ToolSignature)>, k: nat)
    requires GroupFits(service, tools, group) && k < |tools|
    ensures HasKey(group, tools[k])
    ensures Get(group, tools[k]).Some? && Get(group, tools[k]).value.name == tools[k]
    ensures Get(group, tools[k]).value.service == service
  {
    var t := tools[k];
    assert group[k].0 == t;
    GetFinds(group, t);
    var m :| 0 <= m < |group| && group[m] == (t, Get(group, t).value);
    assert group[m].1.name == tools[m] == t;
  }

  /** A name with another initial is not in a group that fits. */
  lemma OtherPrefix(service: string, tools: seq<string>, group: seq<(string, ToolSignature)>, t: string)
    requires GroupFits(service, tools, group) && |service| > 0 && |t| > 0 && t[0] != service[0]
    ensures !HasKey(group, t)
  {
    forall m | 0 <= m < |group|
      ensures group[m].0 != t
    {
      assert StartsWith(group[m].0, service + "_");
      assert group[m].0[0] == (service + "_")[0] == service[0];
    }
  }

  /** Groups that fit their services, for services with distinct initials,
      flatten into a consistent table. */
  lemma {:induction false} GroupsConsistent(services: seq<(string, ServiceInfo)>, groups: seq<seq<(string, ToolSignature)>>)
    requires |groups| == |services|
    requires forall i :: 0 <= i < |services| ==> |services[i].0| > 0 && GroupFits(services[i].0, services[i].1.tools, groups[i])
    requires forall i, j :: 0 <= i < j < |services| ==> services[i].0[0] != services[j].0[0]
    ensures Consistent(services, Flatten(groups))
  {
    if |services| > 0 {
      var rest := Flatten(groups[1..]);
      assert Flatten(groups) == groups[0] + rest;
      GroupsConsistent(services[1..], groups[1..]);
      forall i, t | 0 <= i < |services| && t in services[i].1.tools
        ensures StartsWith(t, services[i].0 + "_")
        ensures Get(Flatten(groups), t).Some? && Get(Flatten(groups), t).value.name == t
        ensures Get(Flatten(groups), t).value.service == services[i].0
      {
        var tools := services[i].1.tools;
        var k :| 0 <= k < |tools| && tools[k] == t;
        assert groups[i][k].0 == t && StartsWith(t, services[i].0 + "_");
        GroupLookup(services[i].0, tools, groups[i], k);
        GetAppend(groups[0], rest, t);
        if i > 0 {
          assert services[1..][i - 1] == services[i];
          assert t[0] == services[i].0[0];
          OtherPrefix(services[0].0, services[0].1.tools, groups[0], t);
        }
      }
    }
  }

  lemma AdsFits()
    ensures GroupFits("ads", ["ads_search_papers", "ads_get_record", "ads_get_links", "ads_get_fulltext"], AdsSignatures)
  {
    assert "ads_search_papers"[..4] == "ads" + "_";
    assert "ads_get_record"[..4] == "ads" + "_";
    assert "ads_get_links"[..4] == "ads" + "_";
    assert "ads_get_fulltext"[..4] == "ads" + "_";
  }

  lemma SimbadFits()
    ensures GroupFits("simbad", ["simbad_resolve_name", "simbad_query_region", "simbad_get_object_info"], SimbadSignatures)
  {
    assert "simbad_resolve_name"[..7] == "simbad" + "_";
    assert "simbad_query_region"[..7] == "simbad" + "_";
    assert "simbad_get_object_info"[..7] == "simbad" + "_";
  }

  lemma VoFits()
    ensures GroupFits("vo", ["vo_tap_query", "vo_tap_list_tables", "vo_tap_table_schema", "vo_sia_search", "vo_ssa_search", "vo_discover_services"], VoSignatures)
  {
    assert "vo_tap_query"[..3] == "vo" + "_";
    assert "vo_tap_list_tables"[..3] == "vo" + "_";
    assert "vo_tap_table_schema"[..3] == "vo" + "_";
    assert "vo_sia_search"[..3] == "vo" + "_";
    assert "vo_ssa_search"[..3] == "vo" + "_";
    assert "vo_discover_services"[..3] == "vo" + "_";
  }

  lemma HeasarcFits()
    ensures GroupFits("heasarc", ["heasarc_list_catalogs", "heasarc_list_columns", "heasarc_query_region", "heasarc_query_tap", "heasarc_get_data_links"], HeasarcSignatures)
  {
    assert "heasarc_list_catalogs"[..8] == "heasarc" + "_";
    assert "heasarc_list_columns"[..8] == "heasarc" + "_";
    assert "heasarc_query_region"[..8] == "heasarc" + "_";
    assert "heasarc_query_tap"[..8] == "heasarc" + "_";
    assert "heasarc_get_data_links"[..8] == "heasarc" + "_";
  }

  lemma IrsaFits()
    ensures GroupFits("irsa", ["irsa_list_catalogs", "irsa_query_region", "irsa_get_images"], IrsaSignatures)
  {
    assert "irsa_list_catalogs"[..5] == "irsa" + "_";
    assert "irsa_query_region"[..5] == "irsa" + "_";
    assert "irsa_get_images"[..5] == "irsa" + "_";
  }

  lemma MastFits()
    ensures GroupFits("mast", ["mast_query_region", "mast_query_criteria", "mast_get_product_list", "mast_get_download_urls", "mast_catalog_query"], MastSignatures)
  {
    assert "mast_query_region"[..5] == "mast" + "_";
    assert "mast_query_criteria"[..5] == "mast" + "_";
    assert "mast_get_product_list"[..5] == "mast" + "_";
    assert "mast_get_download_urls"[..5] == "mast" + "_";
    assert "mast_catalog_query"[..5] == "mast" + "_";
  }

  lemma NeaFits()
    ensures GroupFits("nea", ["nea_query_criteria", "nea_query_object", "nea_query_region", "nea_list_tables"], NeaSignatures)
  {
    assert "nea_query_criteria"[..4] == "nea" + "_";
    assert "nea_query_object"[..4] == "nea" + "_";
    assert "nea_query_region"[..4] == "nea" + "_";
    assert "nea_list_tables"[..4] == "nea" + "_";
  }

  lemma GcnFits()
    ensures GroupFits("gcn", ["gcn_fetch_circular", "gcn_search_circulars", "gcn_fetch_notice", "gcn_parse_localization", "gcn_crossmatch_vo"], GcnSignatures)
  {
    assert "gcn_fetch_circular"[..4] == "gcn" + "_";
    assert "gcn_search_circulars"[..4] == "gcn" + "_";
    assert "gcn_fetch_notice"[..4] == "gcn" + "_";
    assert "gcn_parse_localization"[..4] == "gcn" + "_";
    assert "gcn_crossmatch_vo"[..4] == "gcn" + "_";
  }

  /** `SERVICES` and `TOOL_SIGNATURES` agree. */
  lemma CatalogueConsistent()
    ensures Consistent(Services, ToolSignatures)
  {
    ServiceNames();
    forall i | 0 <= i < |Services|
      ensures GroupFits(Services[i].0, Services[i].1.tools, SignatureGroups[i])
    {
      if i == 0 {
        AdsFits();
        assert Services[0].0 == "ads" && Services[0].1.tools == ["ads_search_papers", "ads_get_record", "ads_get_links", "ads_get_fulltext"];
        assert SignatureGroups[0] == AdsSignatures;
      }
      else if i == 1 {
        SimbadFits();
        assert Services[1].0 == "simbad" && Services[1].1.tools == ["simbad_resolve_name", "simbad_query_region", "simbad_get_object_info"];
        assert SignatureGroups[1] == SimbadSignatures;
      }
      else if i == 2 {
        VoFits();
        assert Services[2].0 == "vo" && Services[2].1.tools == ["vo_tap_query", "vo_tap_list_tables", "vo_tap_table_schema", "vo_sia_search", "vo_ssa_search", "vo_discover_services"];
        assert SignatureGroups[2] == VoSignatures;
      }
      else if i == 3 {
        HeasarcFits();
        assert Services[3].0 == "heasarc" && Services[3].1.tools == ["heasarc_list_catalogs", "heasarc_list_columns", "heasarc_query_region", "heasarc_query_tap", "heasarc_get_data_links"];
        assert SignatureGroups[3] == HeasarcSignatures;
      }
      else if i == 4 {
        IrsaFits();
        assert Services[4].0 == "irsa" && Services[4].1.tools == ["irsa_list_catalogs", "irsa_query_region", "irsa_get_images"];
        assert SignatureGroups[4] == IrsaSignatures;
      }
      else if i == 5 {
        MastFits();
        assert Services[5].0 == "mast" && Services[5].1.tools == ["mast_query_region", "mast_query_criteria", "mast_get_product_list", "mast_get_download_urls", "mast_catalog_query"];
        assert SignatureGroups[5] == MastSignatures;
      }
      else if i == 6 {
        NeaFits();
        assert Services[6].0 == "nea" && Services[6].1.tools == ["nea_query_criteria", "nea_query_object", "nea_query_region", "nea_list_tables"];
        assert SignatureGroups[6] == NeaSignatures;
      }
      else {
        GcnFits();
        assert Services[7].0 == "gcn" && Services[7].1.tools == ["gcn_fetch_circular", "gcn_search_circulars", "gcn_fetch_notice", "gcn_parse_localization", "gcn_crossmatch_vo"];
        assert SignatureGroups[7] == GcnSignatures;
      }
    }
    GroupsConsistent(Services, SignatureGroups);
  }

  // ------------------------------------------------------------ list_services

  /** `list(SERVICES.values())` */
  function AllServices(): (r: seq<ServiceInfo>)
    ensures |r| == |Services| && forall i :: 0 <= i < |r| ==> r[i] == Services[i].1
  {
    seq(|Services|, i requires 0 <= i < |Services| => Services[i].1)
  }

  /** `[s for s in services if s.category == category]` */
  function InCategory(services: seq<ServiceInfo>, category: string): seq<ServiceInfo> {
    if |services| == 0 then []
    else InCategory(services[..|services| - 1], category)
         + (if services[|services| - 1].category == category then [services[|services| - 1]] else [])
  }

  /** The listing of `services` under `category`: a falsy category keeps
      every service. */
  function ListOf(services: seq<ServiceInfo>, category: Option<string>): (r: seq<Value>)
    ensures |r| <= |services|
  {
    var kept := if category.Some? && category.value != "" then InCategory(services, category.value)
                else services;
    InCategoryAtMost(services, if category.Some? then category.value else "");
    seq(|kept|, i requires 0 <= i < |kept| => ServiceDump(kept[i]))
  }

  /** `list_services(category)` */
  function ListServices(category: Option<string>): seq<Value> {
    ListOf(AllServices(), category)
  }

  lemma {:induction false} InCategoryAtMost(services: seq<ServiceInfo>, category: string)
    ensures |InCategory(services, category)| <= |services|
  {
    if |services| > 0 {
      InCategoryAtMost(services[..|services| - 1], category);
    }
  }

  /** Filtering distributes over concatenation: the kept services stay in
      their original order. */
  lemma {:induction false} InCategoryAppend(a: seq<ServiceInfo>, b: seq<ServiceInfo>, category: string)
    ensures InCategory(a + b, category) == InCategory(a, category) + InCategory(b, category)
    decreases |b|
  {
    if |b| > 0 {
      var b' := b[..|b| - 1];
      assert (a + b)[..|a + b| - 1] == a + b';
      assert (a + b)[|a + b| - 1] == b[|b| - 1];
      InCategoryAppend(a, b', category);
    } else {
      assert a + b == a;
    }
  }

  /** Exactly the services of the category are kept. */
  lemma {:induction false} InCategoryMembers(services: seq<ServiceInfo>, category: string, s: ServiceInfo)
    ensures s in InCategory(services, category) <==> s in services && s.category == category
  {
    if |services| > 0 {
      var init := services[..|services| - 1];
      InCategoryMembers(init, category, s);
      assert services == init + [services[|services| - 1]];
    }
  }

  /** Without a category (or with an empty one) every service is listed,
      in table order. */
  lemma ListServicesAll(category: Option<string>)
    requires category.None? || category.value == ""
    ensures |ListServices(category)| == 8
    ensures forall i :: 0 <= i < 8 ==> ListServices(category)[i] == ServiceDump(Services[i].1)
  {
    ServiceNames();
  }

  /** A category lists the dumps of exactly the services that have it. */
  lemma ListOfCategory(services: seq<ServiceInfo>, category: string)
    requires category != ""
    ensures var r := ListOf(services, Some(category));
      forall v :: v in r <==> exists i :: 0 <= i < |services| && services[i].category == category && v == ServiceDump(services[i])
  {
    var kept := InCategory(services, category);
    var r := ListOf(services, Some(category));
    forall v
      ensures v in r <==> exists i :: 0 <= i < |services| && services[i].category == category && v == ServiceDump(services[i])
    {
      if v in r {
        var k :| 0 <= k < |r| && r[k] == v;
        InCategoryMembers(services, category, kept[k]);
      }
      if exists i :: 0 <= i < |services| && services[i].category == category && v == ServiceDump(services[i]) {
        var i :| 0 <= i < |services| && services[i].category == category && v == ServiceDump(services[i]);
        InCategoryMembers(services, category, services[i]);
        var k :| 0 <= k < |kept| && kept[k] == services[i];
        assert r[k] == v;
      }
    }
  }

  /** `list_services(category)` lists the dumps of exactly the services of
      that category. */
  lemma ListServicesCategory(category: string)
    requires category != ""
    ensures var r := ListServices(Some(category));
      forall v :: v in r <==> exists i :: 0 <= i < |Services| && Services[i].1.category == category && v == ServiceDump(Services[i].1)
  {
    ListOfCategory(AllServices(), category);
  }

  // ------------------------------------------------------------ get_function_signatures

  /** The dumps of those of `tools[..k]` that `table` has, in order. */
  function SignaturesPrefix(tools: seq<string>, table: seq<(string, ToolSignature)>, k: nat): seq<Value>
    requires k <= |tools|
  {
    if k == 0 then []
    else SignaturesPrefix(tools, table, k - 1)
         + match Get(table, tools[k - 1]) case Some(sig) => [SignatureDump(sig)] case None => []
  }

  /** What `get_function_signatures(service)` returns. */
  function SignaturesOf(service: string): seq<Value> {
    match Get(Services, service)
    case None => []
    case Some(info) => SignaturesPrefix(info.tools, ToolSignatures, |info.tools|)
  }

  /** `get_function_signatures(service)` */
  method GetFunctionSignatures(service: string) returns (signatures: seq<Value>)
    ensures signatures == SignaturesOf(service)
  {
    var info := Get(Services, service);
    if info.None? {
      return [];
    }
    var tools := info.value.tools;
    signatures := [];
    for i := 0 to |tools|
      invariant signatures == SignaturesPrefix(tools, ToolSignatures, i)
    {
      var sig := Get(ToolSignatures, tools[i]);
      if sig.Some? {
        signatures := signatures + [SignatureDump(sig.value)];
      }
    }
  }

  /** A tool without a signature is skipped, so at most one entry per tool. */
  lemma {:induction false} SignaturesAtMost(tools: seq<string>, table: seq<(string, ToolSignature)>, k: nat)
    requires k <= |tools|
    ensures |SignaturesPrefix(tools, table, k)| <= k
  {
    if k > 0 {
      SignaturesAtMost(tools, table, k - 1);
    }
  }

  /** When the table has every tool, there is one entry per tool, in the
      tools' order. */
  lemma {:induction false} SignaturesAll(tools: seq<string>, table: seq<(string, ToolSignature)>, k: nat)
    requires k <= |tools|
    requires forall j :: 0 <= j < k ==> Get(table, tools[j]).Some?
    ensures |SignaturesPrefix(tools, table, k)| == k
    ensures forall j :: 0 <= j < k ==> SignaturesPrefix(tools, table, k)[j] == SignatureDump(Get(table, tools[j]).value)
  {
    if k > 0 {
      SignaturesAll(tools, table, k - 1);
    }
  }

  /** An unknown service has no signatures. */
  lemma SignaturesUnknown(service: string)
    requires !HasKey(Services, service)
    ensures SignaturesOf(service) == []
  {
    GetFinds(Services, service);
  }

  /** In a consistent catalogue, the tools of `services[i]` all have
      signatures, so none is skipped. */
  lemma CompleteFor(services: seq<(string, ServiceInfo)>, table: seq<(string, ToolSignature)>, i: nat)
    requires i < |services| && Consistent(services, table)
    ensures var tools := services[i].1.tools;
      |SignaturesPrefix(tools, table, |tools|)| == |tools|
      && forall j :: 0 <= j < |tools| ==>
           Get(table, tools[j]).Some?
           && SignaturesPrefix(tools, table, |tools|)[j] == SignatureDump(Get(table, tools[j]).value)
           && Get(table, tools[j]).value.name == tools[j]
           && Get(table, tools[j]).value.service == services[i].0
  {
    var tools := services[i].1.tools;
    assert forall j :: 0 <= j < |tools| ==> tools[j] in services[i].1.tools;
    SignaturesAll(tools, table, |tools|);
  }

  /** A known service gets one signature per listed tool, in listing order,
      each naming the tool and the service: nothing is dropped. */
  lemma SignaturesComplete(service: string)
    requires Get(Services, service).Some?
    ensures var tools := Get(Services, service).value.tools;
      |SignaturesOf(service)| == |tools|
      && forall j :: 0 <= j < |tools| ==>
           Get(ToolSignatures, tools[j]).Some?
           && SignaturesOf(service)[j] == SignatureDump(Get(ToolSignatures, tools[j]).value)
           && Get(ToolSignatures, tools[j]).value.name == tools[j]
           && Get(ToolSignatures, tools[j]).value.service == service
  {
    var info := Get(Services, service).value;
    GetFinds(Services, service);
    var i :| 0 <= i < |Services| && Services[i] == (service, info);
    CatalogueConsistent();
    CompleteFor(Services, ToolSignatures, i);
  }

  // ------------------------------------------------------------ get_service_status

  /** The first four entries of a known service's status report. */
  function StatusBase(service: string, info: ServiceInfo, available: bool): seq<(string, Value)> {
    [("service", Str(service)), ("available", Bool(available)), ("category", Str(info.category)),
     ("requires_auth", Bool(info.requiresAuth))]
  }

  /** What `get_service_status(service)` returns (or raises) for the
      `SERVICES` entry `found`, given the `check_auth_status()` report.
      Assigning an existing key keeps its position, so `available` stays
      second. */
  function StatusFor(service: string, found: Option<ServiceInfo>, authStatus: seq<(string, Value)>): Outcome<Value> {
    match found
    case None => Ok(Dict([("available", Bool(false)), ("error", Str("Unknown service: " + service))]))
    case Some(info) =>
      if !info.requiresAuth || !HasKey(authStatus, service) then Ok(Dict(StatusBase(service, info, true)))
      else
        var record := Get(authStatus, service).GetOr(NoneValue);
        match Subscript(record, "configured")
        case Err(e) => Err(e)
        case Ok(configured) =>
          if Truthy(configured) then Ok(Dict(StatusBase(service, info, true) + [("auth_configured", configured)]))
          else
            match Subscript(record, "env_var")
            case Err(e) => Err(e)
            case Ok(envVar) =>
              Ok(Dict(StatusBase(service, info, false)
                      + [("auth_configured", configured), ("auth_env_var", envVar),
                         ("error", Str("Missing authentication token"))]))
  }

  function Status(service: string, authStatus: seq<(string, Value)>): Outcome<Value> {
    StatusFor(service, Get(Services, service), authStatus)
  }

  /** The assignments `get_service_status` makes to a report that is
      missing its token. */
  lemma MissingTokenAssignments(service: string, info: ServiceInfo, configured: Value, envVar: Value)
    ensures var r0 := Set(StatusBase(service, info, true), "auth_configured", configured);
      var r1 := Set(r0, "auth_env_var", envVar);
      var r2 := Set(r1, "available", Bool(false));
      Set(r2, "error", Str("Missing authentication token"))
        == StatusBase(service, info, false)
           + [("auth_configured", configured), ("auth_env_var", envVar), ("error", Str("Missing authentication token"))]
  {
    var base := StatusBase(service, info, true);
    ConfiguredAssignment(service, info, configured);
    var r0 := base + [("auth_configured", configured)];
    assert !HasKey(r0, "auth_env_var");
    SetAbsent(r0, "auth_env_var", envVar);
    var r1 := r0 + [("auth_env_var", envVar)];
    SetAt(r1, 1, Bool(false));
    var r2 := StatusBase(service, info, false) + [("auth_configured", configured), ("auth_env_var", envVar)];
    assert r1[1 := ("available", Bool(false))] == r2;
    assert !HasKey(r2, "error");
    SetAbsent(r2, "error", Str("Missing authentication token"));
  }

  /** `result["auth_configured"] = ...` appends to the base report. */
  lemma ConfiguredAssignment(service: string, info: ServiceInfo, configured: Value)
    ensures Set(StatusBase(service, info, true), "auth_configured", configured)
            == StatusBase(service, info, true) + [("auth_configured", configured)]
  {
    assert !HasKey(StatusBase(service, info, true), "auth_configured");
    SetAbsent(StatusBase(service, info, true), "auth_configured", configured);
  }

  /** The `available` entry of a report. */
  lemma ReportAvailable(service: string, info: ServiceInfo, available: bool, extra: seq<(string, Value)>)
    ensures Get(StatusBase(service, info, available) + extra, "available") == Some(Bool(available))
  {
    var base := StatusBase(service, info, available);
    GetAt(base, 1);
    GetFinds(base, "available");
    GetAppend(base, extra, "available");
  }

  /** The `auth_env_var` entry of a report that is missing its token. */
  lemma ReportEnvVar(service: string, info: ServiceInfo, configured: Value, envVar: Value, error: Value)
    ensures Get(StatusBase(service, info, false) + [("auth_configured", configured), ("auth_env_var", envVar), ("error", error)],
                "auth_env_var") == Some(envVar)
  {
    var base := StatusBase(service, info, false);
    var extra := [("auth_configured", configured), ("auth_env_var", envVar), ("error", error)];
    assert !HasKey(base, "auth_env_var");
    GetAppend(base, extra, "auth_env_var");
    GetAt(extra, 1);
  }

  /** The record `check_auth_status()` files for a service. */
  lemma AuthRecordFields(env: Env, service: string, ac: AuthConfig)
    ensures Subscript(StatusOf(env, service, ac), "configured") == Ok(Bool(ac.tokenEnv in env))
    ensures Subscript(StatusOf(env, service, ac), "env_var") == Ok(Str(ac.tokenEnv))
  {
    var es := StatusOf(env, service, ac).entries;
    GetAt(es, 0);
    GetAt(es, 1);
    GetFinds(es, "configured");
    GetFinds(es, "env_var");
  }

  /** `get_service_status(service)` */
  method GetServiceStatus(service: string, cfg: ServiceConfig, env: Env) returns (r: Outcome<Value>)
    ensures r == Status(service, StatusPrefix(cfg.auth, env, |cfg.auth|))
  {
    var found := Get(Services, service);
    if found.None? {
      return Ok(Dict([("available", Bool(false)), ("error", Str("Unknown service: " + service))]));
    }
    var info := found.value;
    var authStatus := CheckAuthStatus(cfg, env);
    var result := StatusBase(service, info, true);
    if info.requiresAuth && HasKey(authStatus, service) {
      GetFinds(authStatus, service);
      var record := Get(authStatus, service).value;
      var configured := Subscript(record, "configured");
      if configured.Err? {
        return Err(configured.error);
      }
      result := Set(result, "auth_configured", configured.value);
      if !Truthy(configured.value) {
        var envVar := Subscript(record, "env_var");
        if envVar.Err? {
          return Err(envVar.error);
        }
        result := Set(result, "auth_env_var", envVar.value);
        result := Set(result, "available", Bool(false));
        result := Set(result, "error", Str("Missing authentication token"));
        MissingTokenAssignments(service, info, configured.value, envVar.value);
      } else {
        ConfiguredAssignment(service, info, configured.value);
      }
    }
    return Ok(Dict(result));
  }

  /** For a service entry `info`, the report says available unless the
      service requires authentication, has an auth entry, and that entry's
      token variable is unset; then it also names the variable. */
  lemma {:induction false} StatusForAvailable(service: string, info: ServiceInfo, auth: seq<(string, AuthConfig)>, env: Env)
    requires UniqueKeys(auth)
    ensures var r := StatusFor(service, Some(info), StatusPrefix(auth, env, |auth|));
      var entry := Get(auth, service);
      var missing := info.requiresAuth && entry.Some? && entry.value.tokenEnv !in env;
      r.Ok? && r.value.Dict?
      && Get(r.value.entries, "available") == Some(Bool(!missing))
      && (missing ==> Get(r.value.entries, "auth_env_var") == Some(Str(entry.value.tokenEnv)))
  {
    var status := StatusPrefix(auth, env, |auth|);
    StatusEntries(auth, env, |auth|);
    assert auth[..|auth|] == auth;
    HasKeyKeys(auth, service);
    HasKeyKeys(status, service);
    GetFinds(auth, service);
    if info.requiresAuth && Get(auth, service).Some? {
      var ac := Get(auth, service).value;
      var i :| 0 <= i < |auth| && auth[i] == (service, ac);
      assert Get(status, service) == Some(StatusOf(env, service, ac));
      AuthRecordFields(env, service, ac);
      if ac.tokenEnv in env {
        ReportAvailable(service, info, true, [("auth_configured", Bool(true))]);
      } else {
        var msg := Str("Missing authentication token");
        ReportAvailable(service, info, false, [("auth_configured", Bool(false)), ("auth_env_var", Str(ac.tokenEnv)), ("error", msg)]);
        ReportEnvVar(service, info, Bool(false), Str(ac.tokenEnv), msg);
      }
    } else {
      ReportAvailable(service, info, true, []);
      assert StatusBase(service, info, true) + [] == StatusBase(service, info, true);
    }
  }

  /** `get_service_status` on a listed service, with the report
      `check_auth_status()` produces. */
  lemma StatusAvailable(service: string, cfg: ServiceConfig, env: Env)
    requires Get(Services, service).Some? && UniqueKeys(cfg.auth)
    ensures var r := Status(service, StatusPrefix(cfg.auth, env, |cfg.auth|));
      var entry := Get(cfg.auth, service);
      var missing := Get(Services, service).value.requiresAuth && entry.Some? && entry.value.tokenEnv !in env;
      r.Ok? && r.value.Dict?
      && Get(r.value.entries, "available") == Some(Bool(!missing))
      && (missing ==> Get(r.value.entries, "auth_env_var") == Some(Str(entry.value.tokenEnv)))
  {
    StatusForAvailable(service, Get(Services, service).value, cfg.auth, env);
  }

  /** The unknown-service report. */
  lemma StatusUnknown(service: string, authStatus: seq<(string, Value)>)
    requires !HasKey(Services, service)
    ensures Status(service, authStatus) == Ok(Dict([("available", Bool(false)), ("error", Str("Unknown service: " + service))]))
  {
    GetFinds(Services, service);
  }
}
