# HttpRequestHelper, modelled in Dafny

`HttpRequestHelper` (DFC.HTTP.Standard) is a small façade over an ASP.NET Core
`HttpRequest`. It reads the first value of a query parameter or a header. It
reads four well-known DSS headers: `TouchpointId`, `DssCorrelationId`,
`SubcontractorId` and `apimurl`. It also forces the request's content type
to `application/json`. Every operation first rejects a null request with
`ArgumentNullException("req")`.

The model has four modules:

- `Wrappers` (wrappers.dfy): `Option` stands for a C# null, and
  `Result`/`Outcome` stand for a call that returns or throws.
- `DotNet` (dotnet.dfy): the framework operations the helper calls.
  These are nullable strings, the exceptions that can be thrown, LINQ
  `FirstOrDefault`, `string.IsNullOrEmpty`, an ordinal `string.EndsWith`
  and a range-checked `string.Substring`.
- `Http` (http_request.dfy): the request as a class. Its fields are the
  text still unread in the body stream (`None` for a null stream) and the query and header
  multimaps (`map<string, seq<Option<string>>>`). Values may be null. As in
  ASP.NET Core, the content type is not a separate field: it is the
  `Content-Type` entry of the headers, so setting it changes the header
  collection.
- `HttpRequestHelper` (http_request_helper.dfy): the helper itself.
  `SetContentTypeToApplicationJson` and the guards of
  `GetResourceFromRequest` are methods that change the request in place.
  The `Get*` accessors are functions that only read it, so by construction
  calling one leaves the request unchanged and calling it twice gives the
  same result.

`Scenarios` (scenarios.dfy) builds the requests of the helper's unit tests
and asserts what each operation yields for them.

Behaviour made explicit by the model:

- `GetQueryString` and `GetHeader` return C#'s null when the key is present
  but its value list is empty, because `FirstOrDefault` yields null there.
  They return the first value as it is, even when that value is null.
- The three identifier getters return a non-null string. They turn an absent
  key, an empty list, a null first value and an empty first value into `""`.
- `GetDssApimUrl` calls `EndsWith` on the first value before its
  null-or-empty check. So a present `apimurl` header with no values or a null
  first value gives `NullReferenceException`, not `""`. The `Substring` call
  can never go out of range.

## Model

| member | source | states |
|---|---|---|
| `DotNet.EndsWith` | DFC.HTTP.Standard/HttpRequestHelper.cs:107 | the character-by-character comparison holds exactly when the suffix is no longer than the string and equals its tail |
| `DotNet.Substring` | DFC.HTTP.Standard/HttpRequestHelper.cs:108 | succeeds exactly when the range lies inside the string, and then yields the `length` characters from `startIndex`; otherwise ArgumentOutOfRangeException |
| `DotNet.FirstOrDefault` | DFC.HTTP.Standard/HttpRequestHelper.cs:47 | null exactly when the value list is empty or its first value is null; otherwise that first value |
| `DotNet.IsNullOrEmpty` | DFC.HTTP.Standard/HttpRequestHelper.cs:68 | holds exactly for null and for the string of length zero |
| `HttpRequestHelper.SetContentTypeToApplicationJson` | DFC.HTTP.Standard/HttpRequestHelper.cs:30-36 | a null request fails with ArgumentNullException("req"); otherwise the `Content-Type` header becomes the single value `application/json` whatever it was, every other header lookup gives what it gave before, and body and query are unchanged |
| `HttpRequestHelper.GetResourceFromRequest` | DFC.HTTP.Standard/HttpRequestHelper.cs:13-23 | null request gives ArgumentNullException("req"), and null body gives ArgumentNullException("Body") with headers and body untouched; otherwise the `Content-Type` header becomes `application/json`, the unread body text is handed on and the stream is left with nothing unread |
| `HttpRequestHelper.GetQueryString` | DFC.HTTP.Standard/HttpRequestHelper.cs:38-48 | null request if and only if ArgumentNullException; absent key gives `""`; present key gives its first value and ignores later ones; a present key with no values gives null |
| `HttpRequestHelper.GetHeader` | DFC.HTTP.Standard/HttpRequestHelper.cs:50-56 | the same contract as GetQueryString, over the header map |
| `HttpRequestHelper.IdentifierHeader` | DFC.HTTP.Standard/HttpRequestHelper.cs:58-95 | the shape shared by the three identifier getters, for any key: null request if and only if ArgumentNullException; `""` when the key is absent or has no non-null first value; a non-null first value is returned unchanged |
| `HttpRequestHelper.GetDssTouchpointId` | DFC.HTTP.Standard/HttpRequestHelper.cs:58-69 | null request if and only if ArgumentNullException; `""` when the `TouchpointId` header is absent or its first value missing or null; a non-null first value is returned unchanged; equals GetHeader on that key with null read as `""` |
| `HttpRequestHelper.GetDssCorrelationId` | DFC.HTTP.Standard/HttpRequestHelper.cs:71-82 | the same contract for the `DssCorrelationId` header |
| `HttpRequestHelper.GetDssSubcontractorId` | DFC.HTTP.Standard/HttpRequestHelper.cs:84-95 | the same contract for the `SubcontractorId` header |
| `HttpRequestHelper.TrimTrailingSlash` | DFC.HTTP.Standard/HttpRequestHelper.cs:107-110 | on a non-null value never throws, and yields the value without its last character when that is `/`, otherwise the value unchanged |
| `HttpRequestHelper.GetDssApimUrl` | DFC.HTTP.Standard/HttpRequestHelper.cs:97-111 | null request if and only if ArgumentNullException; absent `apimurl` header gives `""`; NullReferenceException exactly when the header is present without a non-null first value; never ArgumentOutOfRangeException; otherwise the first value with one trailing `/` removed |
| `HttpRequestHelper.ApimUrlIsPrefixOfHeader` | DFC.HTTP.Standard/HttpRequestHelper.cs:105-110 | for a non-null first value the apimurl result is a prefix of it, of the same length or one shorter |
| `HttpRequestHelper.TrimRemovesExactlyOneSlash` | DFC.HTTP.Standard/HttpRequestHelper.cs:107-108 | a value ending in `/` loses exactly that one `/`, even when the value ends in several |

## Left out

- GetResourceFromRequest: the async read of the body stream and the JSON deserialisation into `T` (Newtonsoft.Json) are I/O and a foreign library. The model takes the body stream as the text still unread in it: a read hands that text on in place of the deserialised value and leaves nothing unread. A deserialisation error is not modelled.
- HttpRequestHelper.GetQueryString, HttpRequestHelper.GetHeader: the key is a non-null `string`. In C# a null key is passed on unchecked to the framework collection, which throws ArgumentNullException("key") when its backing dictionary exists; that outcome depends on the framework's storage and is not modelled, so "ArgumentNullException exactly for a null request" holds only for non-null keys.
- Reading the content type back through `HttpRequest.ContentType` (which joins several `Content-Type` values into one string) is framework behaviour; the model states the content type only as the `Content-Type` header entry.
- Key matching is exact. ASP.NET's query and header collections compare keys case-insensitively, and that framework behaviour is not part of this model.
- Parsing a raw query string such as `?GivenName=John` into the query collection is framework behaviour. The model starts from the parsed multimap.
- The values of `ContentApplicationType.ApplicationJSON` and `ApplicationXML` are not part of this model. They are taken as `application/json` and `application/xml`.
- DotNet.EndsWith: it models an ordinal comparison. .NET's `string.EndsWith(string)` compares culture-sensitively, which can differ for characters the culture ignores.
- HttpRequestHelper.TrimTrailingSlash, HttpRequestHelper.GetDssApimUrl: because they use the ordinal DotNet.EndsWith, a value whose `/` is followed only by culture-ignorable characters (such as the soft hyphen U+00AD in `"x/\u00AD"`) is returned unchanged, whereas the culture-sensitive call treats it as ending in `/` and drops its last character, giving `"x/"`.
- `IHttpRequestHelper`, the interface the class implements, declares no behaviour of its own and is not part of this model.
