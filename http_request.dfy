/**
 * The part of ASP.NET Core's HttpRequest that the helper touches: the body,
 * and the query and header collections, each a multimap from a key to its
 * list of (possibly null) string values. The request's content type is not
 * a field of its own: it is the "Content-Type" entry of the headers.
 */
module Http {
  import opened Wrappers
  import opened DotNet

  /** The two content-type constants of ContentApplicationType. */
  const ApplicationJson: string := "application/json"
  const ApplicationXml: string := "application/xml"

  /** The header under which the request keeps its content type. */
  const ContentTypeHeader: string := "Content-Type"

  /** A key-to-values collection, as IQueryCollection and IHeaderDictionary expose it. */
  type MultiMap = map<string, seq<NullableString>>

  class Request {
    /** The text still unread in the body stream; None when the stream is null. */
    var body: Option<string>
    var query: MultiMap
    var headers: MultiMap

    constructor (body: Option<string>, query: MultiMap, headers: MultiMap)
      ensures this.body == body && this.query == query && this.headers == headers
    {
      this.body := body;
      this.query := query;
      this.headers := headers;
    }
  }
}
