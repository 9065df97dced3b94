/**
 * Coordinate checks and the dispatch of coordinate parsing
 * (utils/coord_utils.py). Building a SkyCoord and resolving a name are
 * astropy calls; their outcomes are parameters.
 */
module CoordUtils {
  import opened Wrappers
  import opened Strings
  import opened Py
  import opened Errors
  import opened Exceptions

  /** `0 <= ra < 360`: false for NaN and the infinities. */
  predicate RaInRange(ra: Double) {
    ra.Finite? && 0.0 <= ra.r < 360.0
  }

  /** `-90 <= dec <= 90` */
  predicate DecInRange(dec: Double) {
    dec.Finite? && -90.0 <= dec.r <= 90.0
  }

  function BadRa(ra: Double): MCPError {
    MCPError(InvalidCoordinates, "RA must be between 0 and 360 degrees, got " + ShowDouble(ra), "coordinates", false,
      "Provide RA in degrees (0-360)", [("ra", Float(ra))])
  }

  function BadDec(dec: Double): MCPError {
    MCPError(InvalidCoordinates, "Dec must be between -90 and 90 degrees, got " + ShowDouble(dec), "coordinates", false,
      "Provide Dec in degrees (-90 to 90)", [("dec", Float(dec))])
  }

  /** `validate_coordinates(ra, dec)`: true, or the error for the first bad
      component, RA first. */
  function ValidateCoordinates(ra: Double, dec: Double): (r: Outcome<bool>)
    ensures r.Ok? <==> RaInRange(ra) && DecInRange(dec)
    ensures r.Ok? ==> r.value
    ensures !RaInRange(ra) ==> r == Err(Mcp(BadRa(ra)))
    ensures RaInRange(ra) && !DecInRange(dec) ==> r == Err(Mcp(BadDec(dec)))
  {
    if !RaInRange(ra) then Err(Mcp(BadRa(ra)))
    else if !DecInRange(dec) then Err(Mcp(BadDec(dec)))
    else Ok(true)
  }

  /** Both range errors are INVALID_COORDINATES, not recoverable, and name
      the offending component in their details. */
  lemma ValidateCoordinatesErrors(ra: Double, dec: Double)
    requires ValidateCoordinates(ra, dec).Err?
    ensures var e := ValidateCoordinates(ra, dec).error;
      e.Mcp? && e.err.code == InvalidCoordinates && !e.err.recoverable && e.err.service == "coordinates"
      && |e.err.details| == 1 && e.err.details[0].0 == (if RaInRange(ra) then "dec" else "ra")
  {
  }

  /** The range edges: 0 and -90/90 are accepted, 360 is not. */
  lemma ValidateCoordinatesEdges()
    ensures ValidateCoordinates(Finite(0.0), Finite(-90.0)).Ok?
    ensures ValidateCoordinates(Finite(359.5), Finite(90.0)).Ok?
    ensures ValidateCoordinates(Finite(360.0), Finite(0.0)).Err?
    ensures ValidateCoordinates(NaN, Finite(0.0)).Err?
  {
  }

  /** `isinstance(x, (int, float))`: a bool is an int, and a numpy
      float64 is a float. */
  predicate IsNumber(v: Value) {
    v.Int? || v.Float? || v.Bool? || v.NpFloat?
  }

  /** `parse_coordinates(ra, dec, frame)`. `degrees` is what astropy gives
      for two numbers read as degrees, `sexagesimal` what it gives for the
      hourangle/degree reading. */
  function ParseCoordinates(ra: Value, dec: Value, degrees: Outcome<SkyCoord>, sexagesimal: Outcome<SkyCoord>): (r: Outcome<SkyCoord>)
    ensures IsNumber(ra) && IsNumber(dec) && degrees.Ok? ==> r == degrees
    ensures !(IsNumber(ra) && IsNumber(dec)) && sexagesimal.Ok? ==> r == sexagesimal
    ensures r.Err? ==> r.error.Mcp? && r.error.err.code == InvalidCoordinates && !r.error.err.recoverable
  {
    var attempt := if IsNumber(ra) && IsNumber(dec) then degrees else sexagesimal;
    if attempt.Ok? then attempt
    else Err(Mcp(MCPError(InvalidCoordinates, "Cannot parse coordinates: ra=" + Show(ra) + ", dec=" + Show(dec),
      "coordinates", false, "Provide RA in degrees (0-360) and Dec in degrees (-90 to 90)",
      [("ra", Str(Show(ra))), ("dec", Str(Show(dec))), ("error", Str(ExceptionText(attempt.error)))])))
  }

  /** `parse_coordinates_flexible(target, ra, dec, frame)`. `resolved` is
      the outcome of `SkyCoord.from_name(target)`. */
  function ParseCoordinatesFlexible(target: Option<string>, ra: Option<Value>, dec: Option<Value>,
    resolved: Outcome<SkyCoord>, degrees: Outcome<SkyCoord>, sexagesimal: Outcome<SkyCoord>): Outcome<SkyCoord>
  {
    if target.Some? && target.value != "" then
      if resolved.Ok? then resolved else Err(Mcp(Unresolvable(target.value, resolved.error)))
    else if ra.Some? && dec.Some? then ParseCoordinates(ra.value, dec.value, degrees, sexagesimal)
    else Err(Mcp(MissingCoordinates()))
  }

  function Unresolvable(target: string, e: Exception): MCPError {
    MCPError(ObjectNotFound, "Cannot resolve target name: " + target, "coordinates", false,
      "Provide explicit RA/Dec coordinates or check the object name",
      [("target", Str(target)), ("error", Str(ExceptionText(e)))])
  }

  function MissingCoordinates(): MCPError {
    MCPError(MissingParameter, "Either target name or RA/Dec coordinates must be provided", "coordinates", false,
      "Provide either 'target' (object name) or both 'ra' and 'dec' parameters", [])
  }

  /** A non-empty target wins and is resolved by name; its failure is a
      non-recoverable OBJECT_NOT_FOUND. */
  lemma FlexibleByName(target: Option<string>, ra: Option<Value>, dec: Option<Value>,
    resolved: Outcome<SkyCoord>, degrees: Outcome<SkyCoord>, sexagesimal: Outcome<SkyCoord>)
    requires target.Some? && target.value != ""
    ensures var r := ParseCoordinatesFlexible(target, ra, dec, resolved, degrees, sexagesimal);
      (r.Ok? <==> resolved.Ok?) && (r.Ok? ==> r == resolved)
      && (r.Err? ==> r.error.Mcp? && r.error.err.code == ObjectNotFound && !r.error.err.recoverable)
  {
  }

  /** Without a target, both coordinates are parsed. */
  lemma FlexibleByCoordinates(target: Option<string>, ra: Option<Value>, dec: Option<Value>,
    resolved: Outcome<SkyCoord>, degrees: Outcome<SkyCoord>, sexagesimal: Outcome<SkyCoord>)
    requires target.None? || target.value == ""
    requires ra.Some? && dec.Some?
    ensures ParseCoordinatesFlexible(target, ra, dec, resolved, degrees, sexagesimal)
      == ParseCoordinates(ra.value, dec.value, degrees, sexagesimal)
  {
  }

  /** Without a target and with a coordinate missing, the call is a
      non-recoverable MISSING_PARAMETER. */
  lemma FlexibleMissing(target: Option<string>, ra: Option<Value>, dec: Option<Value>,
    resolved: Outcome<SkyCoord>, degrees: Outcome<SkyCoord>, sexagesimal: Outcome<SkyCoord>)
    requires target.None? || target.value == ""
    requires ra.None? || dec.None?
    ensures ParseCoordinatesFlexible(target, ra, dec, resolved, degrees, sexagesimal) == Err(Mcp(MissingCoordinates()))
    ensures MissingCoordinates().code == MissingParameter && !MissingCoordinates().recoverable
  {
  }
}
