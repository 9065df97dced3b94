/**
 * The structured error every tool reports: an error code, a message, the
 * service it concerns, whether retrying can help, a suggestion, and a
 * details mapping.
 */
module Errors {
  import opened Wrappers
  import opened Strings
  import opened Py
  import opened Dicts

  datatype ErrorCode =
    | Validation | InvalidCoordinates | InvalidQuery | MissingParameter
    | Authentication | TokenExpired | TokenInvalid
    | NotFound | ObjectNotFound | BibcodeNotFound | CatalogNotFound
    | RateLimit | Timeout
    | ServiceFailure | ServiceUnavailable | Internal

  /** The string value each code carries on the wire. */
  function CodeValue(c: ErrorCode): string {
    match c
    case Validation => "VALIDATION_ERROR"
    case InvalidCoordinates => "INVALID_COORDINATES"
    case InvalidQuery => "INVALID_QUERY"
    case MissingParameter => "MISSING_PARAMETER"
    case Authentication => "AUTHENTICATION_ERROR"
    case TokenExpired => "TOKEN_EXPIRED"
    case TokenInvalid => "TOKEN_INVALID"
    case NotFound => "NOT_FOUND"
    case ObjectNotFound => "OBJECT_NOT_FOUND"
    case BibcodeNotFound => "BIBCODE_NOT_FOUND"
    case CatalogNotFound => "CATALOG_NOT_FOUND"
    case RateLimit => "RATE_LIMIT_ERROR"
    case Timeout => "TIMEOUT_ERROR"
    case ServiceFailure => "SERVICE_ERROR"
    case ServiceUnavailable => "SERVICE_UNAVAILABLE"
    case Internal => "INTERNAL_ERROR"
  }

  const AllCodes: seq<ErrorCode> := [
    Validation, InvalidCoordinates, InvalidQuery, MissingParameter,
    Authentication, TokenExpired, TokenInvalid,
    NotFound, ObjectNotFound, BibcodeNotFound, CatalogNotFound,
    RateLimit, Timeout, ServiceFailure, ServiceUnavailable, Internal]

  /** Reading a code back from its string value (`ErrorCode(s)`). */
  function CodeFromValue(s: string): (r: Option<ErrorCode>)
    ensures r.Some? ==> CodeValue(r.value) == s
    ensures r.None? ==> forall c :: CodeValue(c) != s
  {
    CodeSearch(s, 0)
  }

  function CodeSearch(s: string, from: nat): (r: Option<ErrorCode>)
    requires from <= |AllCodes|
    requires forall i :: 0 <= i < from ==> CodeValue(AllCodes[i]) != s
    ensures r.Some? ==> CodeValue(r.value) == s
    ensures r.None? ==> forall c :: CodeValue(c) != s
    decreases |AllCodes| - from
  {
    if from == |AllCodes| then
      NoSuchCode(s);
      None
    else if CodeValue(AllCodes[from]) == s then Some(AllCodes[from])
    else CodeSearch(s, from + 1)
  }

  lemma AllCodesComplete()
    ensures forall c :: c in AllCodes
  {
    forall c ensures c in AllCodes {
      match c
      case Validation => assert AllCodes[0] == Validation;
      case InvalidCoordinates => assert AllCodes[1] == InvalidCoordinates;
      case InvalidQuery => assert AllCodes[2] == InvalidQuery;
      case MissingParameter => assert AllCodes[3] == MissingParameter;
      case Authentication => assert AllCodes[4] == Authentication;
      case TokenExpired => assert AllCodes[5] == TokenExpired;
      case TokenInvalid => assert AllCodes[6] == TokenInvalid;
      case NotFound => assert AllCodes[7] == NotFound;
      case ObjectNotFound => assert AllCodes[8] == ObjectNotFound;
      case BibcodeNotFound => assert AllCodes[9] == BibcodeNotFound;
      case CatalogNotFound => assert AllCodes[10] == CatalogNotFound;
      case RateLimit => assert AllCodes[11] == RateLimit;
      case Timeout => assert AllCodes[12] == Timeout;
      case ServiceFailure => assert AllCodes[13] == ServiceFailure;
      case ServiceUnavailable => assert AllCodes[14] == ServiceUnavailable;
      case Internal => assert AllCodes[15] == Internal;
    }
  }

  lemma NoSuchCode(s: string)
    requires forall i :: 0 <= i < |AllCodes| ==> CodeValue(AllCodes[i]) != s
    ensures forall c :: CodeValue(c) != s
  {
    AllCodesComplete();
    forall c ensures CodeValue(c) != s {
      assert c in AllCodes;
      var i :| 0 <= i < |AllCodes| && AllCodes[i] == c;
    }
  }

  /** Every code is recovered from its string value. */
  lemma CodeRoundTrip(c: ErrorCode)
    ensures CodeFromValue(CodeValue(c)) == Some(c)
  {
    var r := CodeFromValue(CodeValue(c));
    assert CodeValue(r.value) == CodeValue(c);
    CodeValueInjective(r.value, c);
  }

  lemma CodeValueInjective(a: ErrorCode, b: ErrorCode)
    requires CodeValue(a) == CodeValue(b)
    ensures a == b
  {
    match a
    case Validation => assert CodeValue(b)[0..2] == "VA";
    case InvalidCoordinates => assert CodeValue(b)[0..9] == "INVALID_C";
    case InvalidQuery => assert CodeValue(b)[0..9] == "INVALID_Q";
    case MissingParameter => assert CodeValue(b)[0..2] == "MI";
    case Authentication => assert CodeValue(b)[0..2] == "AU";
    case TokenExpired => assert CodeValue(b)[0..7] == "TOKEN_E";
    case TokenInvalid => assert CodeValue(b)[0..7] == "TOKEN_I";
    case NotFound => assert CodeValue(b)[0..2] == "NO";
    case ObjectNotFound => assert CodeValue(b)[0..2] == "OB";
    case BibcodeNotFound => assert CodeValue(b)[0..2] == "BI";
    case CatalogNotFound => assert CodeValue(b)[0..2] == "CA";
    case RateLimit => assert CodeValue(b)[0..2] == "RA";
    case Timeout => assert CodeValue(b)[0..2] == "TI";
    case ServiceFailure => assert CodeValue(b)[0..9] == "SERVICE_E";
    case ServiceUnavailable => assert CodeValue(b)[0..9] == "SERVICE_U";
    case Internal => assert CodeValue(b)[0..2] == "IN";
  }

  datatype MCPError = MCPError(
    code: ErrorCode,
    message: string,
    service: string,
    recoverable: bool,
    suggestion: string,
    details: seq<(string, Value)>)

  /** `MCPError(code, message, service)` with the record's defaults. */
  function Raise(code: ErrorCode, message: string, service: string): (e: MCPError)
    ensures e.code == code && e.message == message && e.service == service
    ensures e.recoverable && e.suggestion == "" && e.details == []
  {
    MCPError(code, message, service, true, "", [])
  }

  /** `to_dict()`: the seven-key JSON form of the error. */
  function ToDict(e: MCPError): (d: Value)
    ensures d.Dict? && Keys(d.entries) == ["error", "code", "message", "service", "recoverable", "suggestion", "details"]
    ensures Get(d.entries, "error") == Some(Bool(true))
  {
    Dict([
      ("error", Bool(true)),
      ("code", Str(CodeValue(e.code))),
      ("message", Str(e.message)),
      ("service", Str(e.service)),
      ("recoverable", Bool(e.recoverable)),
      ("suggestion", Str(e.suggestion)),
      ("details", Dict(e.details))])
  }

  /** Reads an error record back from its JSON form. */
  function FromDict(d: Value): Option<MCPError> {
    if !d.Dict? then None
    else
      var es := d.entries;
      var code, m, s := Get(es, "code"), Get(es, "message"), Get(es, "service");
      var r, g, det := Get(es, "recoverable"), Get(es, "suggestion"), Get(es, "details");
      if code.Some? && code.value.Str? && CodeFromValue(code.value.s).Some?
         && m.Some? && m.value.Str? && s.Some? && s.value.Str? && r.Some? && r.value.Bool?
         && g.Some? && g.value.Str? && det.Some? && det.value.Dict?
      then Some(MCPError(CodeFromValue(code.value.s).value, m.value.s, s.value.s, r.value.b, g.value.s, det.value.entries))
      else None
  }

  /** `to_dict` loses nothing: the record is recovered from its JSON form. */
  lemma ToDictRoundTrip(e: MCPError)
    ensures FromDict(ToDict(e)) == Some(e)
  {
    var es := ToDict(e).entries;
    GetAt(es, 1);
    GetAt(es, 2);
    GetAt(es, 3);
    GetAt(es, 4);
    GetAt(es, 5);
    GetAt(es, 6);
    CodeRoundTrip(e.code);
  }

  /** `str(error)`: "[CODE] service: message". */
  function ToString(e: MCPError): string {
    "[" + CodeValue(e.code) + "] " + e.service + ": " + e.message
  }

  /** The text up to the first ']' after a leading '['. */
  function Bracketed(s: string): Option<string> {
    if |s| == 0 || s[0] != '[' then None else UpToBracket(s[1..])
  }

  function UpToBracket(s: string): (r: Option<string>)
    ensures r.Some? ==> StartsWith(s, r.value + "]") && !HasChar(r.value, ']')
  {
    if |s| == 0 then None
    else if s[0] == ']' then Some("")
    else
      match UpToBracket(s[1..])
      case Some(t) =>
        assert ([s[0]] + t + "]")[1..] == t + "]";
        assert !HasChar([s[0]] + t, ']');
        Some([s[0]] + t)
      case None => None
  }

  lemma {:induction false} UpToBracketPrefix(w: string, rest: string)
    requires !HasChar(w, ']')
    ensures UpToBracket(w + "]" + rest) == Some(w)
  {
    if |w| > 0 {
      assert w[0] != ']';
      assert [w[0]] + w[1..] == w;
      assert (w + "]" + rest)[1..] == w[1..] + "]" + rest;
      assert !HasChar(w[1..], ']');
      UpToBracketPrefix(w[1..], rest);
    }
  }

  /** The code can be read back from the rendered message, whatever the
      service and message contain. */
  lemma ToStringCode(e: MCPError)
    ensures Bracketed(ToString(e)).Some?
    ensures CodeFromValue(Bracketed(ToString(e)).value) == Some(e.code)
  {
    var c := CodeValue(e.code);
    var s := ToString(e);
    CodeValueNoBracket(e.code);
    assert s[1..] == c + "]" + (" " + e.service + ": " + e.message);
    UpToBracketPrefix(c, " " + e.service + ": " + e.message);
    CodeRoundTrip(e.code);
  }

  lemma CodeValueNoBracket(c: ErrorCode)
    ensures !HasChar(CodeValue(c), ']')
  {
    match c
    case Validation => assert forall i :: 0 <= i < |CodeValue(Validation)| ==> CodeValue(Validation)[i] != ']';
    case InvalidCoordinates => assert forall i :: 0 <= i < |CodeValue(InvalidCoordinates)| ==> CodeValue(InvalidCoordinates)[i] != ']';
    case InvalidQuery => assert forall i :: 0 <= i < |CodeValue(InvalidQuery)| ==> CodeValue(InvalidQuery)[i] != ']';
    case MissingParameter => assert forall i :: 0 <= i < |CodeValue(MissingParameter)| ==> CodeValue(MissingParameter)[i] != ']';
    case Authentication => assert forall i :: 0 <= i < |CodeValue(Authentication)| ==> CodeValue(Authentication)[i] != ']';
    case TokenExpired => assert forall i :: 0 <= i < |CodeValue(TokenExpired)| ==> CodeValue(TokenExpired)[i] != ']';
    case TokenInvalid => assert forall i :: 0 <= i < |CodeValue(TokenInvalid)| ==> CodeValue(TokenInvalid)[i] != ']';
    case NotFound => assert forall i :: 0 <= i < |CodeValue(NotFound)| ==> CodeValue(NotFound)[i] != ']';
    case ObjectNotFound => assert forall i :: 0 <= i < |CodeValue(ObjectNotFound)| ==> CodeValue(ObjectNotFound)[i] != ']';
    case BibcodeNotFound => assert forall i :: 0 <= i < |CodeValue(BibcodeNotFound)| ==> CodeValue(BibcodeNotFound)[i] != ']';
    case CatalogNotFound => assert forall i :: 0 <= i < |CodeValue(CatalogNotFound)| ==> CodeValue(CatalogNotFound)[i] != ']';
    case RateLimit => assert forall i :: 0 <= i < |CodeValue(RateLimit)| ==> CodeValue(RateLimit)[i] != ']';
    case Timeout => assert forall i :: 0 <= i < |CodeValue(Timeout)| ==> CodeValue(Timeout)[i] != ']';
    case ServiceFailure => assert forall i :: 0 <= i < |CodeValue(ServiceFailure)| ==> CodeValue(ServiceFailure)[i] != ']';
    case ServiceUnavailable => assert forall i :: 0 <= i < |CodeValue(ServiceUnavailable)| ==> CodeValue(ServiceUnavailable)[i] != ']';
    case Internal => assert forall i :: 0 <= i < |CodeValue(Internal)| ==> CodeValue(Internal)[i] != ']';
  }

  /** `validation_error(message, service="validation", **details)` */
  function ValidationError(message: string, service: string := "validation", details: seq<(string, Value)> := []): (e: MCPError)
    ensures e.code == Validation && !e.recoverable
    ensures e.message == message && e.service == service && e.details == details
    ensures e.suggestion == "Check input parameters and try again"
  {
    MCPError(Validation, message, service, false, "Check input parameters and try again", details)
  }

  /** `not_found_error(message, service, code=NOT_FOUND, **details)` */
  function NotFoundError(message: string, service: string, code: ErrorCode := NotFound, details: seq<(string, Value)> := []): (e: MCPError)
    ensures e.code == code && !e.recoverable
    ensures e.message == message && e.service == service && e.details == details
    ensures e.suggestion == "Verify the identifier exists or try alternative search terms"
  {
    MCPError(code, message, service, false, "Verify the identifier exists or try alternative search terms", details)
  }

  /** `service_error(message, service, **details)` */
  function ServiceError(message: string, service: string, details: seq<(string, Value)> := []): (e: MCPError)
    ensures e.code == ServiceFailure && e.recoverable
    ensures e.message == message && e.service == service && e.details == details
    ensures e.suggestion == "The service may be temporarily unavailable. Try again later."
  {
    MCPError(ServiceFailure, message, service, true, "The service may be temporarily unavailable. Try again later.", details)
  }
}
