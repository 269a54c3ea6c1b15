/**
 * CORS decoration of every response (src/EventSubscriber/CorsSubscriber.php).
 * The header names are those of the CORS protocol (section 3.2 of the WHATWG
 * Fetch Standard); no origin matching is done: fixed values are set.
 */
module Cors {
  import opened Wrappers

  const DefaultOrigin := "http://localhost:3000"

  // The header names the subscriber passes to `set`.
  const AllowOriginName := "Access-Control-Allow-Origin"
  const AllowMethodsName := "Access-Control-Allow-Methods"
  const AllowHeadersName := "Access-Control-Allow-Headers"
  const ExposeHeadersName := "Access-Control-Expose-Headers"
  const MaxAgeName := "Access-Control-Max-Age"
  const AllowCredentialsName := "Access-Control-Allow-Credentials"

  // The keys the header bag stores them under.
  const AllowOrigin := HeaderKey(AllowOriginName)
  const AllowMethods := HeaderKey(AllowMethodsName)
  const AllowHeaders := HeaderKey(AllowHeadersName)
  const ExposeHeaders := HeaderKey(ExposeHeadersName)
  const MaxAge := HeaderKey(MaxAgeName)
  const AllowCredentials := HeaderKey(AllowCredentialsName)

  const AllowedMethods := "GET, POST, PUT, PATCH, DELETE, OPTIONS"
  const AllowedHeaders := "Content-Type, Authorization"
  const ExposedHeaders := "Link"
  const MaxAgeSeconds := "3600"

  /** The six header names the subscriber may write. */
  predicate IsCorsName(name: string) {
    name in {AllowOrigin, AllowMethods, AllowHeaders, ExposeHeaders, MaxAge, AllowCredentials}
  }

  /** The header bag's key normalisation: `_` becomes `-`, ASCII upper case becomes lower case. */
  function NormalizeChar(c: char): char {
    if c == '_' then '-'
    else if 'A' <= c <= 'Z' then (c as int - 'A' as int + 'a' as int) as char
    else c
  }

  function HeaderKey(name: string): (key: string)
    ensures |key| == |name|
    ensures forall i | 0 <= i < |name| :: 'A' <= name[i] <= 'Z' ==> key[i] as int == name[i] as int + 32
    ensures forall i | 0 <= i < |name| :: name[i] == '_' ==> key[i] == '-'
    ensures forall i | 0 <= i < |name| :: !('A' <= name[i] <= 'Z') && name[i] != '_' ==> key[i] == name[i]
  {
    seq(|name|, i requires 0 <= i < |name| => NormalizeChar(name[i]))
  }

  /**
   * The header map after the subscriber ran, each `set` replacing the
   * values of its header with the one value given.
   */
  function CorsHeaders(headers: map<string, seq<string>>, origin: string, preflight: bool)
    : map<string, seq<string>>
  {
    var h := headers[AllowOrigin := [origin]][AllowMethods := [AllowedMethods]]
                    [AllowHeaders := [AllowedHeaders]][ExposeHeaders := [ExposedHeaders]]
                    [MaxAge := [MaxAgeSeconds]];
    if preflight then h[AllowCredentials := ["true"]] else h
  }

  /** The status code after the subscriber ran. */
  function CorsStatus(status: int, preflight: bool): int {
    if preflight then 200 else status
  }

  /** Every decorated response carries the five fixed headers with their one value. */
  lemma CorsHeadersPresent(headers: map<string, seq<string>>, origin: string, preflight: bool)
    ensures var h := CorsHeaders(headers, origin, preflight);
      && AllowOrigin in h && h[AllowOrigin] == [origin]
      && AllowMethods in h && h[AllowMethods] == [AllowedMethods]
      && AllowHeaders in h && h[AllowHeaders] == [AllowedHeaders]
      && ExposeHeaders in h && h[ExposeHeaders] == [ExposedHeaders]
      && MaxAge in h && h[MaxAge] == [MaxAgeSeconds]
  {
    CorsKeysDistinct();
  }

  /**
   * Credentials are granted only to a preflight; any other response keeps
   * whatever credentials header it had (none, unless someone else set it).
   */
  lemma CredentialsOnlyForPreflight(headers: map<string, seq<string>>, origin: string, preflight: bool)
    ensures var h := CorsHeaders(headers, origin, preflight);
      && (preflight ==> AllowCredentials in h && h[AllowCredentials] == ["true"])
      && (!preflight ==> (AllowCredentials in h <==> AllowCredentials in headers))
      && (!preflight && AllowCredentials in headers ==> h[AllowCredentials] == headers[AllowCredentials])
  {
  }

  /** Headers other than the six are untouched, present or absent. */
  lemma OtherHeadersUntouched(headers: map<string, seq<string>>, origin: string, preflight: bool, name: string)
    requires !IsCorsName(name)
    ensures var h := CorsHeaders(headers, origin, preflight);
      (name in h <==> name in headers) && (name in headers ==> h[name] == headers[name])
  {
  }

  /** Decorating twice gives what decorating once gives: every step is an overwrite. */
  lemma DecorationIdempotent(headers: map<string, seq<string>>, status: int, origin: string, preflight: bool)
    ensures CorsHeaders(CorsHeaders(headers, origin, preflight), origin, preflight)
            == CorsHeaders(headers, origin, preflight)
    ensures CorsStatus(CorsStatus(status, preflight), preflight) == CorsStatus(status, preflight)
  {
  }

  /** Normalising a normalised name changes nothing. */
  lemma HeaderKeyIdempotent(name: string)
    ensures HeaderKey(HeaderKey(name)) == HeaderKey(name)
  {
  }

  /**
   * The six keys are pairwise distinct, so no `set` of the subscriber
   * overwrites another: the lengths differ, except for the methods and
   * headers names, which differ in their 22nd character.
   */
  lemma CorsKeysDistinct()
    ensures AllowMethods != AllowHeaders
    ensures |{AllowOrigin, AllowMethods, AllowHeaders, ExposeHeaders, MaxAge, AllowCredentials}| == 6
  {
    assert AllowMethods[21] != AllowHeaders[21] by {
      assert AllowMethodsName[21] == 'M' && AllowHeadersName[21] == 'H';
    }
  }

  /** A response's header bag: normalised name to list of values. */
  class ResponseHeaderBag {
    var entries: map<string, seq<string>>

    constructor (entries: map<string, seq<string>>)
      ensures this.entries == entries
    {
      this.entries := entries;
    }

    /** `set($key, $value)` with the default `replace = true`. */
    method Set(key: string, value: string)
      modifies this
      ensures entries == old(entries)[HeaderKey(key) := [value]]
    {
      entries := entries[HeaderKey(key) := [value]];
    }
  }

  class HttpResponse {
    var statusCode: int
    const headers: ResponseHeaderBag

    constructor (statusCode: int, headers: ResponseHeaderBag)
      ensures this.statusCode == statusCode && this.headers == headers
    {
      this.statusCode := statusCode;
      this.headers := headers;
    }

    method SetStatusCode(code: int)
      modifies this
      ensures statusCode == code
    {
      statusCode := code;
    }
  }

  class CorsSubscriber {
    const allowedOrigin: string

    /** A null origin falls back to the local development front end. */
    constructor (allowedOrigin: Option<string>)
      ensures allowedOrigin.None? ==> this.allowedOrigin == DefaultOrigin
      ensures allowedOrigin.Some? ==> this.allowedOrigin == allowedOrigin.value
    {
      this.allowedOrigin := if allowedOrigin.Some? then allowedOrigin.value else DefaultOrigin;
    }

    /**
     * The response hook. `requestMethod` is what the request reports as its
     * method; a preflight is a request whose method is `OPTIONS`.
     */
    method OnKernelResponse(requestMethod: string, response: HttpResponse)
      modifies response, response.headers
      ensures response.statusCode == CorsStatus(old(response.statusCode), requestMethod == "OPTIONS")
      ensures response.headers.entries ==
                CorsHeaders(old(response.headers.entries), allowedOrigin, requestMethod == "OPTIONS")
    {
      if requestMethod == "OPTIONS" {
        response.SetStatusCode(200);
      }
      response.headers.Set(AllowOriginName, allowedOrigin);
      response.headers.Set(AllowMethodsName, AllowedMethods);
      response.headers.Set(AllowHeadersName, AllowedHeaders);
      response.headers.Set(ExposeHeadersName, ExposedHeaders);
      response.headers.Set(MaxAgeName, MaxAgeSeconds);
      if requestMethod == "OPTIONS" {
        response.headers.Set(AllowCredentialsName, "true");
      }
    }
  }
}
