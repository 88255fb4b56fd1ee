/** The audio preview proxy route (src/app/api/proxy/preview/route.ts): a host
    allowlist in front of an upstream fetch, and the status code it answers with.
    URL parsing (`new URL`) and the upstream fetch are oracles: the route sees the
    lower-case hostname the parser produced and what the fetch produced. */
module PreviewProxy {
  import opened Types

  const ALLOWED_EXACT_HOSTS: seq<string> := [
    "p.scdn.co",
    "audio-ak-spotify-com.akamaized.net",
    "audio-akp-spotify-com.akamaized.net",
    "preview.spotifycdn.com"
  ]

  const DEEZER_CDN_SUFFIX := ".dzcdn.net"
  const DEEZER_PREFIXES: seq<string> := ["cdns-preview-", "cdn-preview-"]

  predicate StartsWith(s: string, prefix: string)
  {
    |prefix| <= |s| && s[..|prefix|] == prefix
  }

  predicate EndsWith(s: string, suffix: string)
  {
    |suffix| <= |s| && s[|s| - |suffix|..] == suffix
  }

  /** The allowlist: one of the exact hosts, or a Deezer preview CDN host. */
  predicate IsAllowedHost(hostname: string)
  {
    hostname in ALLOWED_EXACT_HOSTS ||
    (EndsWith(hostname, DEEZER_CDN_SUFFIX) &&
     (StartsWith(hostname, DEEZER_PREFIXES[0]) || StartsWith(hostname, DEEZER_PREFIXES[1])))
  }

  /** Every allowed host lies under one of the four CDN domains the route trusts. */
  lemma AllowedHostDomains(hostname: string)
    requires IsAllowedHost(hostname)
    ensures EndsWith(hostname, "scdn.co") || EndsWith(hostname, ".akamaized.net") ||
            EndsWith(hostname, "spotifycdn.com") || EndsWith(hostname, ".dzcdn.net")
  {
    if hostname in ALLOWED_EXACT_HOSTS {
      ExactHostDomains(hostname);
    }
  }

  lemma ExactHostDomains(hostname: string)
    requires hostname in ALLOWED_EXACT_HOSTS
    ensures EndsWith(hostname, "scdn.co") || EndsWith(hostname, ".akamaized.net") || EndsWith(hostname, "spotifycdn.com")
  {
    if hostname == ALLOWED_EXACT_HOSTS[0] {
      SpotifyCdnHost();
    } else if hostname == ALLOWED_EXACT_HOSTS[1] || hostname == ALLOWED_EXACT_HOSTS[2] {
      AkamaiHosts();
    } else {
      PreviewCdnHost();
    }
  }

  lemma SpotifyCdnHost()
    ensures EndsWith(ALLOWED_EXACT_HOSTS[0], "scdn.co")
  {
    assert ALLOWED_EXACT_HOSTS[0][2..] == "scdn.co";
  }

  lemma AkamaiHosts()
    ensures EndsWith(ALLOWED_EXACT_HOSTS[1], ".akamaized.net") && EndsWith(ALLOWED_EXACT_HOSTS[2], ".akamaized.net")
  {
    assert ALLOWED_EXACT_HOSTS[1][20..] == ".akamaized.net";
    assert ALLOWED_EXACT_HOSTS[2][21..] == ".akamaized.net";
  }

  lemma PreviewCdnHost()
    ensures EndsWith(ALLOWED_EXACT_HOSTS[3], "spotifycdn.com")
  {
    assert ALLOWED_EXACT_HOSTS[3][8..] == "spotifycdn.com";
  }

  lemma BareDeezerDomainRefused()
    ensures !IsAllowedHost("dzcdn.net")
    ensures !IsAllowedHost("cdns-preview-x.dzcdn.net.evil.example")
    ensures IsAllowedHost("cdns-preview-a.dzcdn.net")
    ensures IsAllowedHost("cdn-preview-1.dzcdn.net")
  {
    assert "cdns-preview-a.dzcdn.net"[..13] == "cdns-preview-";
    assert "cdns-preview-a.dzcdn.net"[14..] == ".dzcdn.net";
    assert "cdn-preview-1.dzcdn.net"[..12] == "cdn-preview-";
    assert "cdn-preview-1.dzcdn.net"[13..] == ".dzcdn.net";
    assert "cdns-preview-x.dzcdn.net.evil.example"[24..] != ".dzcdn.net" by {
      assert "cdns-preview-x.dzcdn.net.evil.example"[24] == '.';
      assert "cdns-preview-x.dzcdn.net.evil.example"[25] == 'e';
    }
  }

  /** What `new URL(previewUrl)` gave. */
  datatype ParsedUrl = Unparseable | Parsed(hostname: string)

  /** What the upstream `fetch(previewUrl)` and `arrayBuffer()` gave. */
  datatype Upstream =
    | UpstreamThrew
    | UpstreamReply(status: nat, bodyRead: bool)   // bodyRead false: arrayBuffer() threw

  /** The route's answer: its status code and whether it contacted the upstream host. */
  datatype ProxyResponse = ProxyResponse(status: nat, fetchedUpstream: bool)

  predicate Ok(status: nat)
  {
    200 <= status <= 299
  }

  /** Whether `NextResponse.json(body, { status })` throws while building the response:
      outside 200-599 the `Response` constructor raises a RangeError, and a null-body status
      (101, 103, 204, 205, 304 in the Fetch standard) given a JSON body raises a TypeError. */
  predicate JsonAnswerThrows(status: nat)
  {
    status < 200 || status > 599 || status in {101, 103, 204, 205, 304}
  }

  /** `GET /api/proxy/preview?url=...` */
  function HandlePreview(urlParam: Option<string>, parse: string -> ParsedUrl, upstream: Upstream): (r: ProxyResponse)
    // a missing or empty `url` parameter: 400
    ensures (urlParam.None? || urlParam.value == "") ==> r == ProxyResponse(400, false)
    // an unparseable URL: 400
    ensures urlParam.Some? && urlParam.value != "" && parse(urlParam.value).Unparseable? ==>
      r == ProxyResponse(400, false)
    // a parsed URL whose host is not allowed: 403, and nothing is fetched
    ensures (urlParam.Some? && urlParam.value != "" && parse(urlParam.value).Parsed? &&
             !IsAllowedHost(parse(urlParam.value).hostname)) ==> r == ProxyResponse(403, false)
    // the upstream host is contacted exactly when the URL is present, parsed and allowed
    ensures r.fetchedUpstream <==>
      (urlParam.Some? && urlParam.value != "" && parse(urlParam.value).Parsed? &&
       IsAllowedHost(parse(urlParam.value).hostname))
    ensures r.fetchedUpstream ==>
      r.status == (match upstream
                   case UpstreamThrew => 502
                   case UpstreamReply(s, read) =>
                     if !Ok(s) then (if s == 304 || s < 200 || s > 599 then 502 else s)
                     else if read then 200 else 502)
  {
    if urlParam.None? || urlParam.value == "" then ProxyResponse(400, false)
    else match parse(urlParam.value)
      case Unparseable => ProxyResponse(400, false)
      case Parsed(hostname) =>
        if !IsAllowedHost(hostname) then ProxyResponse(403, false)
        else match upstream
          case UpstreamThrew => ProxyResponse(502, true)
          case UpstreamReply(status, bodyRead) =>
            // the error answer is built inside the try, so a throw there becomes the 502
            if !Ok(status) then
              (if JsonAnswerThrows(status) then ProxyResponse(502, true) else ProxyResponse(status, true))
            else if !bodyRead then ProxyResponse(502, true)
            else ProxyResponse(200, true)
  }

  /** A 200 answer is only ever produced for an allowed host whose upstream answered 2xx. */
  lemma SuccessOnlyFromAllowedHost(urlParam: Option<string>, parse: string -> ParsedUrl, upstream: Upstream)
    requires HandlePreview(urlParam, parse, upstream).status == 200
    ensures urlParam.Some? && parse(urlParam.value).Parsed? && IsAllowedHost(parse(urlParam.value).hostname)
    ensures upstream.UpstreamReply? && Ok(upstream.status) && upstream.bodyRead
  {
  }

  /** Every answer carries a status the `Response` constructor accepts. */
  lemma AnswerStatusValid(urlParam: Option<string>, parse: string -> ParsedUrl, upstream: Upstream)
    ensures var r := HandlePreview(urlParam, parse, upstream);
      200 <= r.status <= 599 && !JsonAnswerThrows(r.status)
  {
  }

  /** An upstream error status is passed through exactly when it is a valid status with a
      body (`Response` accepts it); every other upstream error becomes a 502. */
  lemma UpstreamErrorPassedThrough(urlParam: Option<string>, parse: string -> ParsedUrl, s: nat, read: bool)
    requires HandlePreview(urlParam, parse, UpstreamReply(s, read)).fetchedUpstream && !Ok(s)
    ensures var r := HandlePreview(urlParam, parse, UpstreamReply(s, read));
      (r.status == s <==> 200 <= s <= 599 && s != 304) &&
      (r.status != s ==> r.status == 502)
  {
  }
}
