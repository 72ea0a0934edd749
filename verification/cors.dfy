/** The origin policy middleware: a fixed allow-list of origins, the four
    cross-origin response headers set only for an allowed origin, and the
    preflight short-circuit that answers every OPTIONS request with 204. */
module Cors {
  import opened Text

  /** The allow-list as one comma-separated constant, the two origins
      joined by a comma. */
  const LocalOrigin: string := "http://localhost:3000"
  const AppOrigin: string := "https://bruteforce-app.vercel.app"
  const OriginsString: string := LocalOrigin + "," + AppOrigin

  const AllowOriginHeader: string := "Access-Control-Allow-Origin"
  const AllowCredentialsHeader: string := "Access-Control-Allow-Credentials"
  const AllowHeadersHeader: string := "Access-Control-Allow-Headers"
  const AllowMethodsHeader: string := "Access-Control-Allow-Methods"

  const CorsHeaderNames: set<string> :=
    {AllowOriginHeader, AllowCredentialsHeader, AllowHeadersHeader, AllowMethodsHeader}

  const AllowedRequestHeaders: string :=
    "Content-Type, Content-Length, Accept-Encoding, X-CSRF-Token, Authorization, accept, origin, Cache-Control, X-Requested-With"
  const AllowedMethods: string := "POST, OPTIONS, GET, PUT"

  const PreflightMethod: string := "OPTIONS"
  const StatusNoContent: int := 204

  /** A response header: each name maps to its list of values. */
  type Header = map<string, seq<string>>

  /** The allow-list built from the comma-separated string: no entries for an
      empty string, otherwise its comma-separated fields. */
  function AllowedOriginsFrom(originsString: string): seq<string>
  {
    if originsString != "" then Split(originsString, ',') else []
  }

  /** Two separator-free origins joined by a comma give exactly those two
      entries. */
  lemma {:induction false} AllowedOriginsOfPair(a: string, b: string)
    requires ',' !in a && ',' !in b
    ensures AllowedOriginsFrom(a + [','] + b) == [a, b]
  {
    SplitFirstField(a, ',', b);
    SplitWithoutSeparator(b, ',');
  }

  /** The configured string splits into exactly the two literal origins. */
  lemma AllowedOriginsValue()
    ensures AllowedOriginsFrom(OriginsString) == [LocalOrigin, AppOrigin]
  {
    assert ',' !in LocalOrigin;
    assert ',' !in AppOrigin;
    AllowedOriginsOfPair(LocalOrigin, AppOrigin);
  }

  /** An origin is allowed exactly when it is one of the two literal origins. */
  lemma AllowedOriginsExactly(origin: string)
    ensures origin in AllowedOriginsFrom(OriginsString) <==> origin == LocalOrigin || origin == AppOrigin
  {
    AllowedOriginsValue();
  }

  /** The four header names are pairwise different (they first differ right
      after the common "Access-Control-Allow-" prefix). */
  lemma HeaderNamesDistinct()
    ensures AllowOriginHeader != AllowCredentialsHeader && AllowOriginHeader != AllowHeadersHeader
    ensures AllowOriginHeader != AllowMethodsHeader && AllowCredentialsHeader != AllowHeadersHeader
    ensures AllowCredentialsHeader != AllowMethodsHeader && AllowHeadersHeader != AllowMethodsHeader
  {
    assert AllowOriginHeader[21] == 'O' && AllowCredentialsHeader[21] == 'C';
    assert AllowHeadersHeader[21] == 'H' && AllowMethodsHeader[21] == 'M';
  }

  /** The response header after the four cross-origin headers are set on
      `h` one after the other, each replacing any earlier value. */
  function WithCorsHeaders(h: Header, origin: string): Header
  {
    h[AllowOriginHeader := [origin]]
     [AllowCredentialsHeader := ["true"]]
     [AllowHeadersHeader := [AllowedRequestHeaders]]
     [AllowMethodsHeader := [AllowedMethods]]
  }

  /** Setting the cross-origin headers adds exactly the four names, echoes
      the origin, fixes the three other values and leaves every other header
      as it was. */
  lemma WithCorsHeadersShape(h: Header, origin: string)
    ensures WithCorsHeaders(h, origin).Keys ==
      h.Keys + CorsHeaderNames
    ensures WithCorsHeaders(h, origin)[AllowOriginHeader] == [origin]
    ensures WithCorsHeaders(h, origin)[AllowCredentialsHeader] == ["true"]
    ensures WithCorsHeaders(h, origin)[AllowHeadersHeader] == [AllowedRequestHeaders]
    ensures WithCorsHeaders(h, origin)[AllowMethodsHeader] == [AllowedMethods]
    ensures forall k :: k in h && k !in CorsHeaderNames ==> WithCorsHeaders(h, origin)[k] == h[k]
  {
    HeaderNamesDistinct();
  }

  /** Linear scan of the allow-list, returning as soon as an entry equals
      the origin. */
  method IsOriginAllowed(origin: string, allowedOrigins: seq<string>) returns (allowed: bool)
    ensures allowed <==> origin in allowedOrigins
  {
    for i := 0 to |allowedOrigins|
      invariant origin !in allowedOrigins[..i]
    {
      if origin == allowedOrigins[i] {
        return true;
      }
    }
    assert allowedOrigins[..|allowedOrigins|] == allowedOrigins;
    return false;
  }

  /** The part of a request context the middleware reads and writes. */
  class Context {
    /** The request's Origin header ("" when absent). */
    const origin: string
    /** The request's method. */
    const requestMethod: string
    /** The response header. */
    var header: Header
    /** Whether the rest of the handler chain has been cut off. */
    var aborted: bool
    /** The response status written so far. */
    var status: int

    constructor (origin: string, requestMethod: string)
      ensures this.origin == origin && this.requestMethod == requestMethod
      ensures header == map[] && !aborted && status == 200
    {
      this.origin := origin;
      this.requestMethod := requestMethod;
      header := map[];
      aborted := false;
      status := 200;
    }

    /** Replaces every value of `key` by the single value `value`. */
    method SetHeader(key: string, value: string)
      modifies this
      ensures header == old(header)[key := [value]]
      ensures aborted == old(aborted) && status == old(status)
    {
      header := header[key := [value]];
    }

    /** Writes the status and stops the remaining handlers from running. */
    method AbortWithStatus(code: int)
      modifies this
      ensures aborted && status == code
      ensures header == old(header)
    {
      status := code;
      aborted := true;
    }
  }

  /** The middleware: the allow-list is computed once, when it is built. */
  class Middleware {
    const allowedOrigins: seq<string>

    constructor ()
      ensures allowedOrigins == AllowedOriginsFrom(OriginsString)
      ensures allowedOrigins == [LocalOrigin, AppOrigin]
    {
      var origins: seq<string> := [];
      if OriginsString != "" {
        origins := Split(OriginsString, ',');
      }
      allowedOrigins := origins;
      AllowedOriginsValue();
    }

    /** Handles one request. The four headers are added only for an allowed
        origin; an OPTIONS request is always aborted with 204, whatever the
        origin; any other request goes on to the next handler, even when its
        origin was not allowed. Returns whether the next handler runs. */
    method Handle(c: Context) returns (next: bool)
      modifies c
      ensures c.header == if c.origin in allowedOrigins then WithCorsHeaders(old(c.header), c.origin) else old(c.header)
      ensures next <==> c.requestMethod != PreflightMethod
      ensures c.requestMethod == PreflightMethod ==> c.aborted && c.status == StatusNoContent
      ensures c.requestMethod != PreflightMethod ==> c.aborted == old(c.aborted) && c.status == old(c.status)
    {
      var allowed := IsOriginAllowed(c.origin, allowedOrigins);
      if allowed {
        c.SetHeader(AllowOriginHeader, c.origin);
        c.SetHeader(AllowCredentialsHeader, "true");
        c.SetHeader(AllowHeadersHeader, AllowedRequestHeaders);
        c.SetHeader(AllowMethodsHeader, AllowedMethods);
      }
      if c.requestMethod == PreflightMethod {
        c.AbortWithStatus(StatusNoContent);
        return false;
      }
      return true;
    }
  }

  /** The middleware as the server installs it, applied to one request on a
      fresh context. The server builds the middleware once and reuses it; a
      middleware built here is the same, because its allow-list is a constant
      fixed by the constructor. On that context the header gets exactly the
      four values, echoing the origin, when the origin is one of the two
      allowed ones, and stays empty otherwise; only a non-OPTIONS request
      reaches the next handler. */
  method ApplyToRequest(origin: string, requestMethod: string) returns (c: Context, next: bool)
    ensures (origin == LocalOrigin || origin == AppOrigin) ==>
      AllowOriginHeader in c.header && c.header[AllowOriginHeader] == [origin] && c.header.Keys == CorsHeaderNames
    ensures !(origin == LocalOrigin || origin == AppOrigin) ==> c.header == map[]
    ensures next <==> requestMethod != PreflightMethod
  {
    var m := new Middleware();
    AllowedOriginsExactly(origin);
    WithCorsHeadersShape(map[], origin);
    c := new Context(origin, requestMethod);
    next := m.Handle(c);
  }
}
