/**
 * The DNS API client: the authentication token and the HTTP client it was
 * built with, the fixed base URL, and the two headers every request gets.
 */
module Client {
  import opened Http

  /** The API's base URL. It ends in '/', which matters for the URLs built from it. */
  const BaseUrl: string := "https://dns.hetzner.com/api/v1/"

  const AuthTokenHeader: string := "Auth-API-Token"
  const ContentTypeHeader: string := "Content-Type"
  const JsonContentType: string := "application/json; charset=utf-8"

  /** Timeout of the HTTP client built when the caller supplies none. */
  const DefaultTimeoutSeconds: nat := 5

  /**
   * A header map after the client's headers were added to it: the token is
   * appended under the authentication key and the JSON content type under
   * Content-Type; values already there are kept and no other key changes.
   */
  function WithApiHeaders(h: Header, token: string): (r: Header)
    ensures r.Keys == h.Keys + {AuthTokenHeader, ContentTypeHeader}
    ensures HeaderValues(r, AuthTokenHeader) == HeaderValues(h, AuthTokenHeader) + [token]
    ensures HeaderValues(r, ContentTypeHeader) == HeaderValues(h, ContentTypeHeader) + [JsonContentType]
    ensures forall k :: k != AuthTokenHeader && k != ContentTypeHeader ==> HeaderValues(r, k) == HeaderValues(h, k)
  {
    HeaderAdd(HeaderAdd(h, AuthTokenHeader, token), ContentTypeHeader, JsonContentType)
  }

  /** A fresh request carries exactly the two headers, one value each. */
  lemma FreshRequestHeaders(token: string)
    ensures WithApiHeaders(map[], token) == map[AuthTokenHeader := [token], ContentTypeHeader := [JsonContentType]]
  {
    var r := WithApiHeaders(map[], token);
    var expected := map[AuthTokenHeader := [token], ContentTypeHeader := [JsonContentType]];
    assert r.Keys == expected.Keys;
    assert r[AuthTokenHeader] == HeaderValues(r, AuthTokenHeader) == [token];
    assert r[ContentTypeHeader] == HeaderValues(r, ContentTypeHeader) == [JsonContentType];
    assert forall k | k in r :: r[k] == expected[k];
  }

  class DnsClient {
    var authToken: string
    var httpClient: HttpClient

    /** A client with its own HTTP client, which times out after five seconds. */
    constructor New(authToken: string)
      ensures this.authToken == authToken
      ensures httpClient == HttpClient(DefaultTimeoutSeconds)
    {
      this.authToken := authToken;
      httpClient := HttpClient(DefaultTimeoutSeconds);
    }

    /** A client that sends its requests through the caller's HTTP client. */
    constructor WithHttpClient(authToken: string, client: HttpClient)
      ensures this.authToken == authToken && httpClient == client
    {
      this.authToken := authToken;
      httpClient := client;
    }

    /** Adds the token and the content type to the request's header map, in place. */
    method AddHeaderToRequest(request: Request)
      modifies request`header
      ensures request.header == WithApiHeaders(old(request.header), authToken)
      ensures unchanged(this)
    {
      request.AddHeader(AuthTokenHeader, authToken);
      request.AddHeader(ContentTypeHeader, JsonContentType);
    }
  }
}
