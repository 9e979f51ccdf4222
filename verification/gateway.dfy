/**
 * The gateway's routing table (`SERVICE_URLS`): a fixed map from the first
 * path segment to a backend base address, read-only for the process lifetime.
 */
module Routing {

  /** The host:port of each backend, by service name. */
  const Authorities: map<string, string> := map[
    "equipment" := "equipment-service:8001",
    "providers" := "provider-service:8002",
    "maintenance" := "maintenance-service:8003",
    "reports" := "report-service:8004"
  ]

  /** `SERVICE_URLS`: the routing table from service name to backend base address. */
  const ServiceUrls: map<string, string> := map name | name in Authorities :: "http://" + Authorities[name]

  predicate NoSlash(s: string)
  {
    '/' !in s
  }

  /** Every base address in the routing table is "http://" followed by a slash-free authority. */
  lemma RoutingTableIsHttp(name: string)
    requires name in ServiceUrls
    ensures name in Authorities
    ensures ServiceUrls[name] == "http://" + Authorities[name]
    ensures NoSlash(Authorities[name])
  {
  }
}

/**
 * The API gateway's request dispatcher (`forward_request`): resolve the
 * backend from the first path segment, forward the request with its `host`
 * header rewritten, and relay the backend's reply -- re-emitted as JSON for a
 * JSON-family content type, as opaque bytes otherwise -- or translate a
 * transport failure into a 503 that names the service.
 *
 * The network is a parameter: `backend` is the reply (or transport error)
 * the backend gives to an outbound request, and `parse` is `response.json()`,
 * which may fail.
 */
module Gateway {
  import opened Wrappers
  import opened Text
  import opened Routing

  type Bytes = seq<bv8>

  /**
   * Header fields as `dict(headers)` yields them: lower-cased names, one value
   * per name. The order of different fields is not significant in HTTP and is
   * not modelled.
   */
  type Headers = map<string, string>

  /** Response fields that belong to one transport hop and are not relayed. */
  const HopByHop: set<string> := {"content-encoding", "transfer-encoding", "connection"}

  const OctetStream: string := "application/octet-stream"

  datatype Request = Request(
    verb: string,
    path: string,
    query: seq<(string, string)>,
    headers: Headers,
    body: Bytes)

  datatype OutboundRequest = OutboundRequest(
    verb: string,
    url: string,
    headers: Headers,
    query: seq<(string, string)>,
    body: Bytes)

  /** What `client.request(...)` gives back: a response, or an `httpx.RequestError`. */
  datatype BackendOutcome =
    | Replied(status: int, headers: Headers, content: Bytes)
    | TransportError(message: string)

  datatype GatewayResponse<J> =
      /** Not a gateway route: `call_next(request)`, the local application answers. */
    | CallNext
      /** `JSONResponse(content=response.json(), ...)`. */
    | JsonReply(status: int, body: J, headers: Headers)
      /** `Response(content=response.content, media_type=..., ...)`. */
    | RawReply(status: int, content: Bytes, mediaType: string, headers: Headers)
      /** `HTTPException(status_code=503, detail=...)`. */
    | Unavailable(status: int, detail: string)
      /** `response.json()` raised: the decode error propagates without shaping. */
    | MalformedJson

  // ---------------------------------------------------------------------
  // Route resolution
  // ---------------------------------------------------------------------

  /** `request.url.path.strip("/").split("/")`. */
  function PathParts(path: string): (parts: seq<string>)
    ensures |parts| >= 1
  {
    Split(Strip(path, {'/'}), "/")
  }

  /** `path_parts[0]`: the candidate service name. */
  function ServiceName(path: string): string
  {
    PathParts(path)[0]
  }

  /** `target_url.split("//")[1].split("/")[0]`; None where `[1]` would raise IndexError. */
  function HostOf(url: string): Option<string>
  {
    var parts := Split(url, "//");
    if |parts| < 2 then None else Some(Split(parts[1], "/")[0])
  }

  /** `content-type` of the reply (empty when absent), lower-cased. */
  function ContentTypeOf(h: Headers): string
  {
    Lower(if "content-type" in h then h["content-type"] else "")
  }

  /** The JSON branch is taken for `application/json` and `application/problem+json` (section 6.1 of RFC 7807). */
  predicate IsJsonFamily(contentType: string)
  {
    Contains(contentType, "application/json") || Contains(contentType, "application/problem+json")
  }

  /** `fwd` is `h` without the hop-by-hop fields, every other field unchanged. */
  predicate IsRelayOf(fwd: Headers, h: Headers)
  {
    && fwd.Keys == h.Keys - HopByHop
    && forall k :: k in fwd ==> fwd[k] == h[k]
  }

  /** The 503 detail text for an unreachable service. */
  function UnavailableDetail(name: string, message: string): string
  {
    "Service " + name + " is unavailable: " + message
  }

  // ---------------------------------------------------------------------
  // The dispatcher
  // ---------------------------------------------------------------------

  /**
   * `forward_request`. Returns the outbound request it sent (None when the
   * path is not a gateway route and no backend is called) and the response.
   */
  method ForwardRequest<J>(req: Request, backend: OutboundRequest -> BackendOutcome, parse: Bytes -> Option<J>)
    returns (call: Option<OutboundRequest>, r: GatewayResponse<J>)
    // route resolution: exact match of the first segment, otherwise local handling and no outbound call
    ensures call.None? <==> ServiceName(req.path) !in ServiceUrls
    ensures r.CallNext? <==> call.None?
    // the outbound request: target URL without prefix stripping, host rewritten, everything else as received
    ensures call.Some? ==>
      var name, out := ServiceName(req.path), call.value;
      && out.url == ServiceUrls[name] + req.path
      && out.verb == req.verb && out.query == req.query && out.body == req.body
      && out.headers.Keys == req.headers.Keys + {"host"}
      && (forall k :: k in req.headers && k != "host" ==> out.headers[k] == req.headers[k])
      && Some(out.headers["host"]) == HostOf(out.url)
      && ((req.path == [] || req.path[0] == '/') ==> out.headers["host"] == Authorities[name])
    // a transport failure becomes a 503 naming the service
    ensures call.Some? && backend(call.value).TransportError? ==>
      && r == Unavailable(503, UnavailableDetail(ServiceName(req.path), backend(call.value).message))
      && Contains(r.detail, ServiceName(req.path))
    // a reply is relayed: status unchanged, hop-by-hop fields dropped, body classified by content type
    ensures call.Some? && backend(call.value).Replied? ==>
      var resp := backend(call.value);
      var ct := ContentTypeOf(resp.headers);
      && (r.JsonReply? || r.RawReply? || r.MalformedJson?)
      && (r.JsonReply? || r.MalformedJson? <==> IsJsonFamily(ct))
      && (r.MalformedJson? <==> IsJsonFamily(ct) && parse(resp.content).None?)
      && (r.JsonReply? ==> Some(r.body) == parse(resp.content))
      && (r.RawReply? ==> r.content == resp.content && r.mediaType == (if ct == "" then OctetStream else ct))
      && (r.JsonReply? || r.RawReply? ==> r.status == resp.status && IsRelayOf(r.headers, resp.headers))
  {
    var pathParts := PathParts(req.path);
    // `if not path_parts` never fires: a split yields at least one part.
    var serviceName := pathParts[0];
    if serviceName !in ServiceUrls {
      return None, CallNext;
    }
    var targetUrl := ServiceUrls[serviceName] + req.path;

    var headers := req.headers;
    HostIsBackendAuthority(serviceName, req.path);
    headers := headers["host" := HostOf(targetUrl).value];

    var outbound := OutboundRequest(req.verb, targetUrl, headers, req.query, req.body);
    call := Some(outbound);
    match backend(outbound)
    case TransportError(message) =>
      r := Unavailable(503, UnavailableDetail(serviceName, message));
      UnavailableDetailNamesService(serviceName, message);
    case Replied(status, responseHeaders, content) =>
      var contentType := ContentTypeOf(responseHeaders);
      var forwardHeaders := responseHeaders;
      forwardHeaders := forwardHeaders - {"content-encoding"};
      forwardHeaders := forwardHeaders - {"transfer-encoding"};
      forwardHeaders := forwardHeaders - {"connection"};
      if IsJsonFamily(contentType) {
        match parse(content)
        case None => r := MalformedJson;
        case Some(value) => r := JsonReply(status, value, forwardHeaders);
      } else {
        r := RawReply(status, content, if contentType == "" then OctetStream else contentType, forwardHeaders);
      }
  }

  // ---------------------------------------------------------------------
  // Properties
  // ---------------------------------------------------------------------

  /** The first `sep`-split part of `a + rest` is `a` when `a` holds no '/' and `rest` is empty or starts a new segment. */
  lemma FirstSegment(a: string, rest: string)
    requires NoSlash(a)
    requires rest == [] || rest[0] == '/'
    ensures Split(a + rest, "/")[0] == a
  {
    var s := a + rest;
    SplitHead(s, "/");
    forall k | 0 <= k < |a|
      ensures !OccursAt(s, "/", k)
    {
      assert s[k..k + 1] == [a[k]] && a[k] in a;
    }
    if rest == [] {
      assert s == a;
    } else {
      assert s[|a|..|a| + 1] == "/";
      assert OccursAt(s, "/", |a|);
      assert s[..|a|] == a;
    }
  }

  /** `IndexOf` finds the first occurrence. */
  lemma FirstOccurrence(s: string, sep: string, i: nat)
    requires |sep| > 0 && OccursAt(s, sep, i)
    requires forall k :: 0 <= k < i ==> !OccursAt(s, sep, k)
    ensures IndexOf(s, sep) == Some(i)
  {
  }

  /**
   * For a URL "http://" + authority + path, the text between "//" and the
   * next "/" is the authority, provided the path is empty or starts with '/'.
   */
  lemma HostOfHttpUrl(auth: string, path: string)
    requires NoSlash(auth)
    ensures HostOf("http://" + auth + path).Some?
    ensures (path == [] || path[0] == '/') ==> HostOf("http://" + auth + path) == Some(auth)
  {
    SchemeSplit(auth + path);
    assert "http://" + auth + path == "http://" + (auth + path);
    if path == [] || path[0] == '/' {
      AuthorityBeforeNextSeparator(auth, path);
    }
  }

  /** The first "//" of "http://" + rest is the one after the scheme, so the second part starts the rest's own split. */
  lemma SchemeSplit(rest: string)
    ensures |Split("http://" + rest, "//")| >= 2
    ensures Split("http://" + rest, "//")[1] == Split(rest, "//")[0]
  {
    var url := "http://" + rest;
    assert url[5..7] == "//";
    forall k | 0 <= k < 5
      ensures !OccursAt(url, "//", k)
    {
      assert url[k] == "http:"[k];
    }
    FirstOccurrence(url, "//", 5);
    assert url[7..] == rest;
    assert Split(url, "//") == [url[..5]] + Split(rest, "//");
  }

  /** The authority holds no '/', so the text before the next "//" still has it as its first '/'-segment. */
  lemma AuthorityBeforeNextSeparator(auth: string, path: string)
    requires NoSlash(auth)
    requires path == [] || path[0] == '/'
    ensures Split(Split(auth + path, "//")[0], "/")[0] == auth
  {
    var tail := auth + path;
    SplitHead(tail, "//");
    var idx := IndexOf(tail, "//");
    if idx.Some? {
      var j := idx.value;
      forall k | 0 <= k < |auth|
        ensures !OccursAt(tail, "//", k)
      {
        assert tail[k] == auth[k] && auth[k] in auth;
      }
      assert Split(tail, "//")[0] == tail[..j] == auth + path[..j - |auth|];
      FirstSegment(auth, path[..j - |auth|]);
    } else {
      FirstSegment(auth, path);
    }
  }

  /**
   * The rewritten `host` header is the backend's own host:port: for every
   * routed service and a path that is empty or starts with '/', the text
   * between "//" and the next "/" of the target URL is the authority.
   */
  lemma HostIsBackendAuthority(name: string, path: string)
    requires name in ServiceUrls
    ensures HostOf(ServiceUrls[name] + path).Some?
    ensures (path == [] || path[0] == '/') ==> HostOf(ServiceUrls[name] + path) == Some(Authorities[name])
  {
    RoutingTableIsHttp(name);
    assert ServiceUrls[name] + path == "http://" + Authorities[name] + path;
    HostOfHttpUrl(Authorities[name], path);
  }

  /**
   * The service name is the first segment of the path once the surrounding
   * slashes are stripped: for `"/" + segment + tail` with a tail that is empty
   * or starts with '/', it is exactly `segment`.
   */
  lemma ServiceNameIsFirstSegment(segment: string, tail: string)
    requires segment != [] && NoSlash(segment)
    requires tail == [] || tail[0] == '/'
    ensures ServiceName("/" + segment + tail) == segment
  {
    var kept := StrippedPath(segment, tail);
    FirstSegment(segment, kept);
  }

  /** Stripping the slashes around "/" + segment + tail keeps the segment and a piece of the tail. */
  lemma StrippedPath(segment: string, tail: string) returns (kept: string)
    requires segment != [] && NoSlash(segment)
    requires tail == [] || tail[0] == '/'
    ensures Strip("/" + segment + tail, {'/'}) == segment + kept
    ensures kept == [] || kept[0] == '/'
  {
    var s := segment + tail;
    var path := "/" + segment + tail;
    assert path == "/" + s;
    StripSlashPath(s);
    var stripped := StripRight(s, {'/'});
    assert Strip(path, {'/'}) == stripped;
    KeepsSegment(segment, tail);
    kept := tail[..|stripped| - |segment|];
    assert stripped == segment + kept;
    assert kept != [] ==> kept[0] == tail[0];
  }

  /** Stripping "/" + s of slashes leaves s stripped of its trailing slashes. */
  lemma StripSlashPath(s: string)
    requires s != [] && s[0] != '/'
    ensures Strip("/" + s, {'/'}) == StripRight(s, {'/'})
  {
    StripLeadingSlash(s);
  }

  /** Stripping leading slashes from "/" + s removes exactly that slash when s does not start with one. */
  lemma StripLeadingSlash(s: string)
    requires s != [] && s[0] != '/'
    ensures StripLeft("/" + s, {'/'}) == s
  {
    assert ("/" + s)[1..] == s;
  }

  /** Trailing slashes stripped from `segment + tail` never reach into `segment`. */
  lemma KeepsSegment(segment: string, tail: string)
    requires segment != [] && NoSlash(segment)
    ensures |StripRight(segment + tail, {'/'})| >= |segment|
    ensures StripRight(segment + tail, {'/'}) == segment + tail[..|StripRight(segment + tail, {'/'})| - |segment|]
  {
    var left := segment + tail;
    var r := StripRight(left, {'/'});
    assert left[|segment| - 1] == segment[|segment| - 1];
    assert segment[|segment| - 1] in segment;
    assert r == left[..|r|];
  }

  /**
   * "/" and "/health" resolve to the names "" and "health", which are not in
   * the routing table: they reach the local application, never a backend.
   */
  lemma LocalPathsAreNotRouted()
    ensures ServiceName("/") == "" && "" !in ServiceUrls
    ensures ServiceName("/health") == "health" && "health" !in ServiceUrls
  {
    RootPathName();
    HealthPathName();
    NotServices();
  }

  lemma RootPathName()
    ensures ServiceName("/") == ""
  {
    assert "/"[1..] == [];
    assert StripLeft("/", {'/'}) == [];
    assert IndexOf([], "/") == None;
  }

  lemma HealthPathName()
    ensures ServiceName("/health") == "health"
  {
    assert NoSlash("health");
    assert "/health" == "/" + "health" + [];
    ServiceNameIsFirstSegment("health", []);
  }

  lemma NotServices()
    ensures "" !in ServiceUrls && "health" !in ServiceUrls
  {
  }

  /** `GET /equipment/42` is sent to `http://equipment-service:8001/equipment/42` with host `equipment-service:8001`. */
  lemma EquipmentRequestScenario()
    ensures ServiceName("/equipment/42") == "equipment"
    ensures "equipment" in ServiceUrls && HostOf(ServiceUrls["equipment"] + "/equipment/42") == Some("equipment-service:8001")
  {
    EquipmentPathName();
    EquipmentHost();
  }

  lemma EquipmentHost()
    ensures "equipment" in ServiceUrls && HostOf(ServiceUrls["equipment"] + "/equipment/42") == Some("equipment-service:8001")
  {
    assert "equipment" in Authorities && Authorities["equipment"] == "equipment-service:8001";
    assert "equipment" in ServiceUrls;
    HostIsBackendAuthority("equipment", "/equipment/42");
  }

  lemma EquipmentPathName()
    ensures ServiceName("/equipment/42") == "equipment"
  {
    assert NoSlash("equipment");
    assert "/equipment/42" == "/" + "equipment" + "/42";
    ServiceNameIsFirstSegment("equipment", "/42");
  }

  /** The 503 detail always names the service it could not reach. */
  lemma UnavailableDetailNamesService(name: string, message: string)
    ensures Contains(UnavailableDetail(name, message), name)
  {
    assert UnavailableDetail(name, message) == "Service " + name + (" is unavailable: " + message);
    ContainsInfix("Service ", name, " is unavailable: " + message);
  }

  /**
   * A JSON media type spelt in any letter case and followed by anything
   * (parameters such as `; charset=utf-8`) is still JSON-family once
   * lower-cased, as the reply's content type is.
   */
  lemma JsonFamilyWithParameters(mediaType: string, parameters: string)
    requires Lower(mediaType) == "application/json" || Lower(mediaType) == "application/problem+json"
    ensures IsJsonFamily(Lower(mediaType + parameters))
  {
    var m, p := Lower(mediaType), Lower(parameters);
    LowerAppend(mediaType, parameters);
    assert [] + m + p == m + p;
    ContainsInfix([], m, p);
  }

  /** A plain-text or spreadsheet reply is not JSON-family, so its bytes are relayed untouched. */
  lemma OtherMediaTypesAreOpaque()
    ensures !IsJsonFamily("text/plain")
    ensures !IsJsonFamily("")
  {
    ContainsIff("text/plain", "application/json");
    ContainsIff("text/plain", "application/problem+json");
    ContainsIff("", "application/json");
    ContainsIff("", "application/problem+json");
  }
}
