/**
 * Concrete requests and what the helper yields for them, following the
 * scenarios of the helper's unit tests; also shows that forcing the content
 * type changes the Content-Type lookup and leaves every other lookup unchanged.
 */
module Scenarios {
  import opened Wrappers
  import opened DotNet
  import opened Http
  import opened HttpRequestHelper

  method NullRequestIsRejected()
  {
    var s := SetContentTypeToApplicationJson(null);
    assert s == Fail(ArgumentNullException("req"));
    assert GetQueryString(null, "") == Err(ArgumentNullException("req"));
    assert GetHeader(null, "") == Err(ArgumentNullException("req"));
    assert GetDssTouchpointId(null) == Err(ArgumentNullException("req"));
    assert GetDssCorrelationId(null) == Err(ArgumentNullException("req"));
    assert GetDssSubcontractorId(null) == Err(ArgumentNullException("req"));
    assert GetDssApimUrl(null) == Err(ArgumentNullException("req"));
  }

  method XmlBecomesJson()
  {
    var req := new Request(None, map[], map[ContentTypeHeader := [Some(ApplicationXml)], "Number" := [Some("1")]]);
    var s := SetContentTypeToApplicationJson(req);
    assert s == Pass && GetHeader(req, ContentTypeHeader) == Ok(Some(ApplicationJson));
    assert GetHeader(req, "Number") == Ok(Some("1"));
  }

  method EmptyRequestYieldsEmptyStrings()
  {
    var req := new Request(None, map[], map[]);
    assert GetQueryString(req, "Test") == Ok(Some(""));
    assert GetHeader(req, "Header") == Ok(Some(""));
    assert GetDssTouchpointId(req) == Ok("");
    assert GetDssCorrelationId(req) == Ok("");
    assert GetDssSubcontractorId(req) == Ok("");
    assert GetDssApimUrl(req) == Ok("");
  }

  method QueryAndHeaderValuesAreReturned()
  {
    var req := new Request(None,
      map["GivenName" := [Some("John"), Some("Jane")]], map["Number" := [Some("0123456789")]]);
    assert GetQueryString(req, "GivenName") == Ok(Some("John"));
    assert GetHeader(req, "Number") == Ok(Some("0123456789"));
    var s := SetContentTypeToApplicationJson(req);
    assert GetQueryString(req, "GivenName") == Ok(Some("John"));
    assert GetHeader(req, "Number") == Ok(Some("0123456789"));
  }

  method IdentifiersAreReturned(correlationId: string)
  {
    var req := new Request(None, map[], map[TouchpointIdKey := [Some("0123456789")]]);
    assert GetDssTouchpointId(req) == Ok("0123456789");
    req.headers := map[DssCorrelationIdKey := [Some(correlationId)]];
    assert GetDssCorrelationId(req) == Ok(correlationId);
    req.headers := map[SubcontractorIdKey := [Some("01234567890123456789")]];
    assert GetDssSubcontractorId(req) == Ok("01234567890123456789");
  }

  method ApimUrlSlashes()
  {
    var req := new Request(None, map[], map[ApimUrlKey := [Some("http://localhost")]]);
    assert GetDssApimUrl(req) == Ok("http://localhost");
    req.headers := map[ApimUrlKey := [Some("http://localhost/")]];
    assert "http://localhost/" == "http://localhost" + "/";
    TrimRemovesExactlyOneSlash("http://localhost");
    assert GetDssApimUrl(req) == Ok("http://localhost");
    req.headers := map[ApimUrlKey := [Some("/")]];
    assert GetDssApimUrl(req) == Ok("");
    req.headers := map[ApimUrlKey := [Some("a//")]];
    assert "a//" == "a/" + "/";
    TrimRemovesExactlyOneSlash("a/");
    assert GetDssApimUrl(req) == Ok("a/");
    req.headers := map[ApimUrlKey := [None]];
    assert GetDssApimUrl(req) == Err(NullReferenceException);
  }

  method BodyIsConsumedByReading()
  {
    var req := new Request(Some("{}"), map[], map[]);
    var first := GetResourceFromRequest(req);
    assert first == Ok("{}");
    var second := GetResourceFromRequest(req);
    assert second == Ok("");
  }
}
