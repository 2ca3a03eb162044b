/**
 * `handleRequest` of cloudflare-worker.js:10-82: the edge worker that
 * fetches a page and classifies its text. The fetch is a parameter: a
 * function from the target URL to the upstream status and body text.
 */
module Worker {
  import opened Wrappers
  import opened Text
  import opened Sequences
  import opened Scanner

  /** The CORS and content-type headers every response carries. */
  const CorsHeaders: map<string, string> := map[
    "Access-Control-Allow-Origin" := "*",
    "Access-Control-Allow-Methods" := "GET, POST, OPTIONS",
    "Access-Control-Allow-Headers" := "Content-Type",
    "Content-Type" := "application/json"]

  /** The endpoint listing answered when no target URL is given. */
  const EndpointList := ["/?url=<page_url> - Extract M3U8 from page", "/proxy?url=<stream_url> - Proxy raw content"]

  const ChallengeMessage := "Cloudflare challenge detected"
  const NoManifestMessage := "No M3U8 found"

  /** The request: its HTTP method and its `url` search parameter (absent when missing). */
  datatype Request = Request(verb: string, target: Option<string>)

  /** What the fetch of the target gives: the upstream status and the body text. */
  datatype Upstream = Upstream(status: int, text: string)

  /** The JSON object of a response body. */
  datatype Body =
    | Listing(endpoints: seq<string>)
    | Hit(m3u8Url: string, allUrls: seq<string>, status: int)
    | Challenge(error: string, status: int)
    | Miss(error: string, status: int, htmlLength: nat)

  /** A response: its headers, and its body (absent for a preflight). */
  datatype Response = Response(headers: map<string, string>, body: Option<Body>)

  /** Which branch of the handler a request takes. */
  datatype Route = Preflight | ListEndpoints | FetchPage(target: string)

  /**
   * An OPTIONS request is a preflight whatever its target; otherwise a
   * missing or empty `url` parameter lists the endpoints; only a request
   * with a truthy target fetches it.
   */
  function RouteOf(req: Request): (r: Route)
    ensures r.Preflight? <==> req.verb == "OPTIONS"
    ensures r.ListEndpoints? <==> req.verb != "OPTIONS" && !Truthy(req.target)
    ensures r.FetchPage? ==> Truthy(req.target) && r.target == req.target.value
  {
    if req.verb == "OPTIONS" then Preflight
    else if !Truthy(req.target) then ListEndpoints
    else FetchPage(req.target.value)
  }

  /** The text shows Cloudflare's challenge page. */
  predicate ChallengePage(text: string)
  {
    Contains(text, "challenge-platform") || Contains(text, "Checking your browser")
  }

  /**
   * The classification of a fetched page (cloudflare-worker.js:54-81):
   * matches of the lenient pattern win over the challenge markers, and a
   * page with neither is a miss that reports its JavaScript length; every
   * result carries the upstream status.
   */
  function Classify(up: Upstream): (b: Body)
    ensures b.Hit? <==> FirstMatch(LenientExclusions, up.text).Some?
    ensures b.Hit? ==> b.m3u8Url == FirstMatch(LenientExclusions, up.text).value &&
                       b.allUrls == Distinct(AllMatches(LenientExclusions, up.text))
    ensures b.Challenge? <==> FirstMatch(LenientExclusions, up.text).None? && ChallengePage(up.text)
    ensures b.Challenge? ==> b.error == ChallengeMessage
    ensures b.Miss? <==> FirstMatch(LenientExclusions, up.text).None? && !ChallengePage(up.text)
    ensures b.Miss? ==> b.error == NoManifestMessage && b.htmlLength == Utf16Length(up.text)
    ensures !b.Listing? && b.status == up.status
  {
    var matches := AllMatches(LenientExclusions, up.text);
    if |matches| > 0 then
      Hit(matches[0], Distinct(matches), up.status)
    else if ChallengePage(up.text) then
      Challenge(ChallengeMessage, up.status)
    else
      Miss(NoManifestMessage, up.status, Utf16Length(up.text))
  }

  /** `handleRequest(request)`, with `fetch` standing for fetching a target and reading its text. */
  function HandleRequest(req: Request, fetch: string -> Upstream): (r: Response)
    ensures r.headers == CorsHeaders
    ensures r.body.None? <==> req.verb == "OPTIONS"
    ensures RouteOf(req).ListEndpoints? ==> r.body == Some(Listing(EndpointList))
    ensures RouteOf(req).FetchPage? ==> r.body == Some(Classify(fetch(RouteOf(req).target)))
  {
    match RouteOf(req)
    case Preflight => Response(CorsHeaders, None)
    case ListEndpoints => Response(CorsHeaders, Some(Listing(EndpointList)))
    case FetchPage(target) => Response(CorsHeaders, Some(Classify(fetch(target))))
  }

  /**
   * The URLs of a hit: the first match is both `m3u8Url` and the head of
   * `allUrls`; `allUrls` holds each match exactly once, in order of first
   * occurrence; and no URL holds a quote, an angle bracket or whitespace.
   */
  lemma HitUrls(up: Upstream)
    requires Classify(up).Hit?
    ensures var b := Classify(up);
      && b.allUrls != [] && b.allUrls[0] == b.m3u8Url
      && NoDuplicates(b.allUrls)
      && |b.allUrls| == |set u | u in AllMatches(LenientExclusions, up.text)|
      && (forall u :: u in b.allUrls <==> u in AllMatches(LenientExclusions, up.text))
      && (forall i, j :: 0 <= i < j < |b.allUrls| ==>
            FirstIndex(AllMatches(LenientExclusions, up.text), b.allUrls[i]) <
            FirstIndex(AllMatches(LenientExclusions, up.text), b.allUrls[j]))
      && (forall i, c :: 0 <= i < |b.allUrls| && c in b.allUrls[i] ==> !Stops(LenientExclusions, c))
  {
    var matches := AllMatches(LenientExclusions, up.text);
    var b := Classify(up);
    DistinctMembership(matches);
    DistinctNoDuplicates(matches);
    DistinctHead(matches);
    DistinctOrder(matches);
    DistinctCardinality(matches);
    MatchesAreClean(up.text);
    forall i | 0 <= i < |b.allUrls|
      ensures b.allUrls[i] in matches
    {
    }
  }

  /** No match of the lenient pattern holds a quote, an angle bracket or whitespace. */
  lemma MatchesAreClean(text: string)
    ensures forall u, c :: u in AllMatches(LenientExclusions, text) && c in u ==> !Stops(LenientExclusions, c)
  {
    var matches := AllMatches(LenientExclusions, text);
    forall u, c | u in matches && c in u
      ensures !Stops(LenientExclusions, c)
    {
      var m :| 0 <= m < |matches| && matches[m] == u;
      var sp := AllSpans(LenientExclusions, text)[m];
      MatchShape(LenientExclusions, text, sp.start, sp.end);
      var t :| 0 <= t < |u| && u[t] == c;
      assert u == text[sp.start..sp.end];
    }
  }
}
