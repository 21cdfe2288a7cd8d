/**
 * HttpRequestHelper: reads query values, header values and four well-known
 * DSS headers out of a request, and forces the request's content type to
 * JSON. A null request is rejected with ArgumentNullException("req")
 * before anything is read or written.
 */
module HttpRequestHelper {
  import opened Wrappers
  import opened DotNet
  import opened Http

  const TouchpointIdKey: string := "TouchpointId"
  const DssCorrelationIdKey: string := "DssCorrelationId"
  const SubcontractorIdKey: string := "SubcontractorId"
  const ApimUrlKey: string := "apimurl"

  /** The exception every operation raises for a null request. */
  const NullRequest: Exception := ArgumentNullException("req")

  /** The first value stored under `key`, when the key is present and its first value is not null. */
  predicate HasFirstValue(m: MultiMap, key: string, v: string)
  {
    key in m && |m[key]| > 0 && m[key][0] == Some(v)
  }

  /** The key is absent, or present with no values or a null first value. */
  predicate LacksFirstValue(m: MultiMap, key: string)
  {
    key !in m || m[key] == [] || m[key][0] == None
  }

  /**
   * Overwrites the request's content type, that is its "Content-Type" header,
   * with the single value application/json; no other header, the query and
   * the body are left as they were.
   */
  method SetContentTypeToApplicationJson(req: Request?) returns (r: Outcome<Exception>)
    modifies req
    ensures req == null ==> r == Fail(NullRequest)
    ensures req != null ==> r == Pass && req.headers == old(req.headers)[ContentTypeHeader := [Some(ApplicationJson)]]
    ensures req != null ==> GetHeader(req, ContentTypeHeader) == Ok(Some(ApplicationJson))
    ensures req != null ==> forall k :: k != ContentTypeHeader ==> GetHeader(req, k) == old(GetHeader(req, k))
    ensures req != null ==> req.body == old(req.body) && req.query == old(req.query)
  {
    if req == null {
      return Fail(NullRequest);
    }
    req.headers := req.headers[ContentTypeHeader := [Some(ApplicationJson)]];
    return Pass;
  }

  /**
   * The guards and the side effect of GetResourceFromRequest: a null request
   * or a null body is rejected before anything changes; otherwise the
   * content type becomes application/json and the body text is what gets
   * deserialised. Reading the stream to its end consumes it: afterwards no
   * text remains to be read.
   */
  method GetResourceFromRequest(req: Request?) returns (r: Result<string, Exception>)
    modifies req
    ensures req == null ==> r == Err(NullRequest)
    ensures req != null && old(req.body) == None ==>
              r == Err(ArgumentNullException("Body")) && req.headers == old(req.headers)
    ensures req != null && old(req.body).Some? ==>
              r == Ok(old(req.body).value) && req.headers == old(req.headers)[ContentTypeHeader := [Some(ApplicationJson)]]
    ensures req != null && old(req.body).Some? ==> req.body == Some("")
    ensures req != null && old(req.body) == None ==> req.body == None
    ensures req != null ==> req.query == old(req.query)
  {
    if req == null {
      return Err(NullRequest);
    }
    if req.body == None {
      return Err(ArgumentNullException("Body"));
    }
    var _ := SetContentTypeToApplicationJson(req);
    var text := req.body.value;
    req.body := Some("");
    return Ok(text);
  }

  /**
   * The first value of query parameter `key`: "" when the key is absent, null
   * when it is present without values; later values are ignored.
   */
  function GetQueryString(req: Request?, key: string): (r: Result<NullableString, Exception>)
    reads req
    ensures req == null <==> r == Err(NullRequest)
    ensures req != null && key !in req.query ==> r == Ok(Some(""))
    ensures req != null && key in req.query && |req.query[key]| > 0 ==> r == Ok(req.query[key][0])
    ensures req != null && key in req.query && req.query[key] == [] ==> r == Ok(None)
  {
    if req == null then Err(NullRequest)
    else if key !in req.query then Ok(Some(""))
    else Ok(FirstOrDefault(req.query[key]))
  }

  /** The first value of header `key`, with the same contract as GetQueryString over the headers. */
  function GetHeader(req: Request?, key: string): (r: Result<NullableString, Exception>)
    reads req
    ensures req == null <==> r == Err(NullRequest)
    ensures req != null && key !in req.headers ==> r == Ok(Some(""))
    ensures req != null && key in req.headers && |req.headers[key]| > 0 ==> r == Ok(req.headers[key][0])
    ensures req != null && key in req.headers && req.headers[key] == [] ==> r == Ok(None)
  {
    if req == null then Err(NullRequest)
    else if key !in req.headers then Ok(Some(""))
    else Ok(FirstOrDefault(req.headers[key]))
  }

  /** A header result with null turned into "", as the fixed-key getters return it. */
  function NullAsEmpty(res: Result<NullableString, Exception>): (r: Result<string, Exception>)
  {
    match res
    case Err(e) => Err(e)
    case Ok(None) => Ok("")
    case Ok(Some(s)) => Ok(s)
  }

  /** The shared shape of the three identifier getters: first value of `key`, or "" when absent, null or empty. */
  function IdentifierHeader(req: Request?, key: string): (r: Result<string, Exception>)
    reads req
    ensures req == null <==> r == Err(NullRequest)
    ensures req != null && LacksFirstValue(req.headers, key) ==> r == Ok("")
    ensures forall v :: req != null && HasFirstValue(req.headers, key, v) ==> r == Ok(v)
  {
    if req == null then Err(NullRequest)
    else if key !in req.headers then Ok("")
    else
      var id := FirstOrDefault(req.headers[key]);
      if IsNullOrEmpty(id) then Ok("") else Ok(id.value)
  }

  /** The TouchpointId header's first value, or "" when it is absent, null or empty. */
  function GetDssTouchpointId(req: Request?): (r: Result<string, Exception>)
    reads req
    ensures req == null <==> r == Err(NullRequest)
    ensures req != null && LacksFirstValue(req.headers, TouchpointIdKey) ==> r == Ok("")
    ensures forall v :: req != null && HasFirstValue(req.headers, TouchpointIdKey, v) ==> r == Ok(v)
    ensures r == NullAsEmpty(GetHeader(req, TouchpointIdKey))
  {
    IdentifierHeader(req, TouchpointIdKey)
  }

  /** The DssCorrelationId header's first value, or "" when it is absent, null or empty. */
  function GetDssCorrelationId(req: Request?): (r: Result<string, Exception>)
    reads req
    ensures req == null <==> r == Err(NullRequest)
    ensures req != null && LacksFirstValue(req.headers, DssCorrelationIdKey) ==> r == Ok("")
    ensures forall v :: req != null && HasFirstValue(req.headers, DssCorrelationIdKey, v) ==> r == Ok(v)
    ensures r == NullAsEmpty(GetHeader(req, DssCorrelationIdKey))
  {
    IdentifierHeader(req, DssCorrelationIdKey)
  }

  /** The SubcontractorId header's first value, or "" when it is absent, null or empty. */
  function GetDssSubcontractorId(req: Request?): (r: Result<string, Exception>)
    reads req
    ensures req == null <==> r == Err(NullRequest)
    ensures req != null && LacksFirstValue(req.headers, SubcontractorIdKey) ==> r == Ok("")
    ensures forall v :: req != null && HasFirstValue(req.headers, SubcontractorIdKey, v) ==> r == Ok(v)
    ensures r == NullAsEmpty(GetHeader(req, SubcontractorIdKey))
  {
    IdentifierHeader(req, SubcontractorIdKey)
  }

  /**
   * Lines 107-110 of GetDssApimUrl on a non-null value: drop one trailing
   * '/' through EndsWith and Substring, then map an empty result to "".
   * The result is the value itself, or the value without its last character
   * when that character is '/'; Substring is never called out of range.
   */
  function TrimTrailingSlash(apimUrl: string): (r: Result<string, Exception>)
    ensures r.Ok?
    ensures r.value == if |apimUrl| > 0 && apimUrl[|apimUrl| - 1] == '/' then apimUrl[..|apimUrl| - 1] else apimUrl
  {
    var trimmed := if EndsWith(apimUrl, "/") then Substring(apimUrl, 0, |apimUrl| - 1) else Ok(apimUrl);
    match trimmed
    case Err(e) => Err(e)
    case Ok(url) => if IsNullOrEmpty(Some(url)) then Ok("") else Ok(url)
  }

  /**
   * The apimurl header's first value with exactly one trailing '/' removed;
   * "" when the header is absent. The value's EndsWith is called before any
   * null check, so a null (or missing) first value throws
   * NullReferenceException; the Substring call never throws.
   */
  function GetDssApimUrl(req: Request?): (r: Result<string, Exception>)
    reads req
    ensures req == null <==> r == Err(NullRequest)
    ensures req != null && ApimUrlKey !in req.headers ==> r == Ok("")
    ensures req != null && ApimUrlKey in req.headers && LacksFirstValue(req.headers, ApimUrlKey) <==>
              r == Err(NullReferenceException)
    ensures r != Err(ArgumentOutOfRangeException)
    ensures forall v :: req != null && HasFirstValue(req.headers, ApimUrlKey, v) ==>
              r == Ok(if |v| > 0 && v[|v| - 1] == '/' then v[..|v| - 1] else v)
  {
    if req == null then Err(NullRequest)
    else if ApimUrlKey !in req.headers then Ok("")
    else
      match FirstOrDefault(req.headers[ApimUrlKey])
      case None => Err(NullReferenceException)
      case Some(apimUrl) => TrimTrailingSlash(apimUrl)
  }

  /** The apimurl result is a prefix of the header's first value, at most one character shorter. */
  lemma ApimUrlIsPrefixOfHeader(req: Request, v: string)
    requires HasFirstValue(req.headers, ApimUrlKey, v)
    ensures GetDssApimUrl(req).Ok? && GetDssApimUrl(req).value <= v
    ensures |GetDssApimUrl(req).value| == |v| || |GetDssApimUrl(req).value| == |v| - 1
  {
  }

  /** Exactly one trailing '/' is removed, however many the value ends with. */
  lemma TrimRemovesExactlyOneSlash(w: string)
    ensures TrimTrailingSlash(w + "/") == Ok(w)
  {
  }
}
