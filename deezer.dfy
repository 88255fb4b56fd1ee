/** The Deezer preview fallback (goodbai-app/src/lib/deezer.ts): an ISRC lookup
    first, then a free-text search, with every failure mapped to "no preview".
    The HTTP layer is an oracle: a function from the request to what the fetch
    and the JSON parse produced. */
module Deezer {
  import opened Types

  /** What `fetch` + `res.json()` gave for `GET /2.0/track/isrc:<code>`. */
  datatype IsrcReply =
    | IsrcFailed                                               // fetch or json() threw
    | IsrcResponse(ok: bool, hasError: bool, preview: Option<string>)

  datatype SearchHit = SearchHit(preview: Option<string>)

  /** What `fetch` + `res.json()` gave for `GET /search?q=<query>&limit=1`. */
  datatype SearchReply =
    | SearchFailed                                             // fetch or json() threw
    | SearchResponse(ok: bool, data: Option<seq<SearchHit>>)

  /** A request the lookup sends to Deezer. */
  datatype Call = IsrcCall(isrc: string) | SearchCall(query: string, limit: nat)

  /** The outcome of the cascade: the preview found and the requests sent, in order. */
  datatype Lookup = Lookup(preview: Option<string>, calls: seq<Call>)

  const SEARCH_LIMIT: nat := 1

  /** JavaScript truthiness of a nullable string. */
  predicate Truthy(s: Option<string>)
  {
    s.Some? && s.value != ""
  }

  /** `getDeezerPreviewByISRC` */
  function PreviewByIsrc(isrc: string, api: string -> IsrcReply): (r: Option<string>)
    ensures r.Some? <==>
      (api(isrc).IsrcResponse? && api(isrc).ok && !api(isrc).hasError && Truthy(api(isrc).preview))
    ensures r.Some? ==> r == api(isrc).preview && r.value != ""
  {
    match api(isrc)
    case IsrcFailed => None
    case IsrcResponse(ok, hasError, preview) =>
      if !ok then None
      else if hasError then None
      else if preview.Some? && |preview.value| > 0 then preview
      else None
  }

  /** The Deezer advanced-search query for a track and its primary artist. */
  function SearchQuery(trackName: string, artistName: string): string
  {
    "track:\"" + trackName + "\" artist:\"" + artistName + "\""
  }

  /** `getDeezerPreviewBySearch` */
  function PreviewBySearch(trackName: string, artistName: string, api: string -> SearchReply): (r: Option<string>)
    ensures var reply := api(SearchQuery(trackName, artistName));
      r.Some? <==>
        (reply.SearchResponse? && reply.ok && reply.data.Some? && |reply.data.value| > 0
         && Truthy(reply.data.value[0].preview))
    ensures var reply := api(SearchQuery(trackName, artistName));
      r.Some? ==> r == reply.data.value[0].preview && r.value != ""
  {
    match api(SearchQuery(trackName, artistName))
    case SearchFailed => None
    case SearchResponse(ok, data) =>
      if !ok then None
      else if data.Some? && |data.value| > 0 && Truthy(data.value[0].preview) then data.value[0].preview
      else None
  }

  /** `findDeezerPreview`: ISRC first (exact match), then the name/artist search. */
  function FindDeezerPreview(isrc: Option<string>, trackName: string, artistName: string,
                             isrcApi: string -> IsrcReply, searchApi: string -> SearchReply): (r: Lookup)
    // a truthy ISRC whose lookup finds a preview: that preview, and no search is made
    ensures Truthy(isrc) && PreviewByIsrc(isrc.value, isrcApi).Some? ==>
      r.preview == PreviewByIsrc(isrc.value, isrcApi) && r.calls == [IsrcCall(isrc.value)]
    // otherwise the result is whatever the search gives, after at most one ISRC lookup
    ensures !(Truthy(isrc) && PreviewByIsrc(isrc.value, isrcApi).Some?) ==>
      r.preview == PreviewBySearch(trackName, artistName, searchApi) &&
      r.calls == (if Truthy(isrc) then [IsrcCall(isrc.value)] else []) +
                 [SearchCall(SearchQuery(trackName, artistName), SEARCH_LIMIT)]
    ensures Truthy(r.preview) <==> r.preview.Some?
  {
    var fromIsrc := if Truthy(isrc) then PreviewByIsrc(isrc.value, isrcApi) else None;
    var isrcCalls := if Truthy(isrc) then [IsrcCall(isrc.value)] else [];
    if fromIsrc.Some? then Lookup(fromIsrc, isrcCalls)
    else Lookup(PreviewBySearch(trackName, artistName, searchApi),
                isrcCalls + [SearchCall(SearchQuery(trackName, artistName), SEARCH_LIMIT)])
  }

  /** At most two requests are sent, and the search is the last one when it is sent. */
  lemma LookupCallsBounded(isrc: Option<string>, trackName: string, artistName: string,
                           isrcApi: string -> IsrcReply, searchApi: string -> SearchReply)
    ensures var r := FindDeezerPreview(isrc, trackName, artistName, isrcApi, searchApi);
      1 <= |r.calls| <= 2 &&
      (forall k :: 0 <= k < |r.calls| - 1 ==> r.calls[k].IsrcCall?) &&
      (r.calls[0].IsrcCall? <==> Truthy(isrc))
  {
  }

  /** The lookup does not depend on the search endpoint when the ISRC lookup hits. */
  lemma IsrcHitIgnoresSearch(isrc: string, trackName: string, artistName: string,
                             isrcApi: string -> IsrcReply, s1: string -> SearchReply, s2: string -> SearchReply)
    requires isrc != "" && PreviewByIsrc(isrc, isrcApi).Some?
    ensures FindDeezerPreview(Some(isrc), trackName, artistName, isrcApi, s1)
         == FindDeezerPreview(Some(isrc), trackName, artistName, isrcApi, s2)
  {
  }
}
