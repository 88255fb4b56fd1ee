/** The scan pipeline (src/lib/scanner.ts): the risk and detection rules, the
    audio-source cascade, the two-phase scan loop and the statistics fold.

    The collaborators the scan calls are oracles collected in `Env`: the
    blocklist matcher (whose file is not part of this model), the Deezer
    endpoints, the waveform fetch-and-decode, the playback capture and the
    classifier. The callbacks the scan reports to are an event trace. */
module Scanner {
  import opened Types
  import Deezer

  const HIGH_THRESHOLD: real := 0.75
  const MEDIUM_THRESHOLD: real := 0.4
  const ANALYSIS_DELAY_MS: nat := 200

  // ─── Risk and detection rules ───────────────────────────────────

  /** `getRiskLevel` */
  function GetRiskLevel(audioScore: Option<Score>, blocklistMatch: bool): (r: RiskLevel)
    ensures r == High <==> blocklistMatch || (audioScore.Some? && audioScore.value >= HIGH_THRESHOLD)
    ensures r == Medium <==>
      !blocklistMatch && audioScore.Some? && MEDIUM_THRESHOLD <= audioScore.value < HIGH_THRESHOLD
    ensures r == Low <==> !blocklistMatch && audioScore.Some? && audioScore.value < MEDIUM_THRESHOLD
    ensures r == Unknown <==> !blocklistMatch && audioScore.None?
  {
    if blocklistMatch then High
    else if audioScore.None? then Unknown
    else if audioScore.value >= HIGH_THRESHOLD then High
    else if audioScore.value >= MEDIUM_THRESHOLD then Medium
    else Low
  }

  /** `getDetectionMethod` */
  function GetDetectionMethod(audioScore: Option<Score>, blocklistMatch: bool): (m: DetectionMethod)
    ensures m == Both <==> blocklistMatch && audioScore.Some?
    ensures m == Blocklist <==> blocklistMatch && audioScore.None?
    ensures m == AudioAnalysis <==> !blocklistMatch
  {
    if blocklistMatch && audioScore.Some? then Both
    else if blocklistMatch then Blocklist
    else AudioAnalysis
  }

  /** The scan's invariant: risk and method are derived from (score, match), never set apart. */
  predicate Consistent(r: ScanResult)
  {
    r.riskLevel == GetRiskLevel(r.audioScore, r.blocklistMatch) &&
    r.detectionMethod == GetDetectionMethod(r.audioScore, r.blocklistMatch)
  }

  predicate AllConsistent(rs: seq<ScanResult>)
  {
    forall i :: 0 <= i < |rs| ==> Consistent(rs[i])
  }

  /** Re-deriving risk and method from a consistent result changes nothing. */
  lemma RederiveIsIdentity(r: ScanResult)
    requires Consistent(r)
    ensures r.(riskLevel := GetRiskLevel(r.audioScore, r.blocklistMatch),
               detectionMethod := GetDetectionMethod(r.audioScore, r.blocklistMatch)) == r
  {
  }

  /** Each risk level is the rank of the score's severity: a higher score never lowers the risk. */
  function Severity(level: RiskLevel): nat
  {
    match level
    case Unknown => 0
    case Low => 1
    case Medium => 2
    case High => 3
  }

  lemma RiskMonotoneInScore(s1: Score, s2: Score, blocklistMatch: bool)
    requires s1 <= s2
    ensures Severity(GetRiskLevel(Some(s1), blocklistMatch)) <= Severity(GetRiskLevel(Some(s2), blocklistMatch))
  {
  }

  // ─── Blocklist matcher boundary ─────────────────────────────────

  /** What `checkTrackBlocklist(track.artists)` returns. */
  datatype BlocklistMatch = BlocklistMatch(matched: bool, matchedNames: seq<string>)

  // ─── Audio source resolution ────────────────────────────────────

  /** What `fetchAudioWaveform` gave for a preview URL: None when it threw. */
  type WaveformFetch = string -> Option<seq<Sample>>

  /** What `captureTrackAudio(uri)` gave. */
  datatype CaptureOutcome = CaptureThrew | CaptureNull | Captured(waveform: seq<Sample>)

  /** The scan's collaborators. */
  datatype Env = Env(
    blocklist: seq<string> -> BlocklistMatch,
    deezerIsrc: string -> Deezer.IsrcReply,
    deezerSearch: string -> Deezer.SearchReply,
    fetchWaveform: WaveformFetch,
    captureInitOk: bool,                      // `playbackCapture.initialize()` resolved
    captureReady: nat -> bool,                // `isReady()` before the j-th audio track
    capture: string -> CaptureOutcome,        // `captureTrackAudio(uri)`
    predict: seq<Sample> -> Option<Score>)    // `engine.predict(waveform)`: None when it threw

  datatype ScanOptions = ScanOptions(
    enableAudioAnalysis: bool,
    enableDeezerFallback: bool,
    enablePlaybackCapture: bool,
    accessToken: Option<string>)

  /** `ResolvedAudio`: the source and the URL to fetch through the proxy. */
  datatype ResolvedAudio = ResolvedAudio(source: AudioSource, url: Option<string>)

  /** The primary artist's name as the resolver passes it (`artists[0]?.name || ""`). */
  function PrimaryArtist(t: Track): string
  {
    if |t.artists| > 0 then t.artists[0] else ""
  }

  /** `resolveAudioSource`: Spotify preview, then (if enabled) Deezer, then none. */
  function ResolveAudioSource(t: Track, enableDeezerFallback: bool, env: Env): (a: ResolvedAudio)
    ensures a.url.None? <==> a.source == NoSource
    ensures a.source != PlaybackCapture
    ensures a.url.Some? ==> a.url.value != ""
    ensures Deezer.Truthy(t.previewUrl) ==> a == ResolvedAudio(SpotifyPreview, t.previewUrl)
    ensures a.source == DeezerPreview ==> !Deezer.Truthy(t.previewUrl) && enableDeezerFallback
    ensures !Deezer.Truthy(t.previewUrl) && !enableDeezerFallback ==> a == ResolvedAudio(NoSource, None)
    ensures !Deezer.Truthy(t.previewUrl) && enableDeezerFallback ==>
      a.url == Deezer.FindDeezerPreview(
        if Deezer.Truthy(t.isrc) then t.isrc else None, t.name, PrimaryArtist(t),
        env.deezerIsrc, env.deezerSearch).preview
  {
    if Deezer.Truthy(t.previewUrl) then ResolvedAudio(SpotifyPreview, t.previewUrl)
    else if enableDeezerFallback then
      var isrc := if Deezer.Truthy(t.isrc) then t.isrc else None;
      var deezerUrl := Deezer.FindDeezerPreview(isrc, t.name, PrimaryArtist(t), env.deezerIsrc, env.deezerSearch).preview;
      if Deezer.Truthy(deezerUrl) then ResolvedAudio(DeezerPreview, deezerUrl)
      else ResolvedAudio(NoSource, None)
    else ResolvedAudio(NoSource, None)
  }

  // ─── Per-track audio analysis ───────────────────────────────────

  /** What the body of the audio loop's `try` block produced for one track. */
  datatype TrackOutcome =
    | Threw                                     // the catch path: the result is left as it was
    | NoWaveform                                // no audio: audioSource becomes none
    | Scored(score: Score, source: AudioSource)

  function PredictOutcome(env: Env, w: seq<Sample>, source: AudioSource): TrackOutcome
  {
    match env.predict(w)
    case None => Threw
    case Some(s) => Scored(s, source)
  }

  /** The `try` block for the j-th audio track; `captureActive` says a capture device was initialised. */
  function AnalyzeTrack(env: Env, opts: ScanOptions, captureActive: bool, j: nat, r: ScanResult): (o: TrackOutcome)
    ensures o.Scored? && o.source == PlaybackCapture ==>
      captureActive && env.captureReady(j) && env.capture(r.track.uri).Captured? &&
      ResolveAudioSource(r.track, opts.enableDeezerFallback, env).url.None?
    ensures o.Scored? ==> o.source != NoSource
    ensures o.Scored? && o.source != PlaybackCapture ==>
      o.source == ResolveAudioSource(r.track, opts.enableDeezerFallback, env).source
  {
    var audio := ResolveAudioSource(r.track, opts.enableDeezerFallback, env);
    if audio.url.Some? then
      match env.fetchWaveform(audio.url.value)
      case None => Threw
      case Some(w) => PredictOutcome(env, w, audio.source)
    else if captureActive && env.captureReady(j) then
      match env.capture(r.track.uri)
      case CaptureThrew => Threw
      case CaptureNull => NoWaveform
      case Captured(w) => PredictOutcome(env, w, PlaybackCapture)
    else NoWaveform
  }

  /** The writes into the result object that follow the `try` block's outcome. */
  function ApplyOutcome(r: ScanResult, o: TrackOutcome): (r': ScanResult)
    ensures Consistent(r) ==> Consistent(r')
    ensures r'.track == r.track && r'.blocklistMatch == r.blocklistMatch &&
            r'.matchedArtists == r.matchedArtists && r'.selected == r.selected
    ensures o.Threw? ==> r' == r
    ensures o.Scored? ==> r'.audioScore == Some(o.score) && r'.audioSource == o.source
    ensures o.NoWaveform? ==> r' == r.(audioSource := NoSource)
    ensures r.blocklistMatch ==> (r.riskLevel == High ==> r'.riskLevel == High)
  {
    match o
    case Threw => r
    case NoWaveform => r.(audioSource := NoSource)
    case Scored(score, source) =>
      r.(audioScore := Some(score), audioSource := source,
         riskLevel := GetRiskLevel(Some(score), r.blocklistMatch),
         detectionMethod := GetDetectionMethod(Some(score), r.blocklistMatch))
  }

  /** A visited track counts as flagged in the audio phase when it got a score of at least 0.4. */
  predicate FlagsTrack(o: TrackOutcome)
  {
    o.Scored? && o.score >= MEDIUM_THRESHOLD
  }

  // ─── Cancellation ───────────────────────────────────────────────

  /** When the abort signal was raised, as the scan's checks observe it. The signal
      never resets, so later checks also see it. */
  datatype AbortPoint = NeverAborted | BeforeBlocklistTrack(i: nat) | BeforeAudioTrack(j: nat)

  predicate AbortedBeforeBlocklistTrack(a: AbortPoint, i: nat)
  {
    a.BeforeBlocklistTrack? && i >= a.i
  }

  predicate AbortedBeforeAudioTrack(a: AbortPoint, j: nat)
  {
    a.BeforeBlocklistTrack? || (a.BeforeAudioTrack? && j >= a.j)
  }

  /** How many tracks a loop over `n` tracks visits before it sees the abort. */
  function BlocklistVisited(n: nat, a: AbortPoint): (k: nat)
    ensures k <= n
    ensures forall i :: 0 <= i < k ==> !AbortedBeforeBlocklistTrack(a, i)
    ensures k < n ==> AbortedBeforeBlocklistTrack(a, k)
  {
    if a.BeforeBlocklistTrack? && a.i < n then a.i else n
  }

  function AudioVisited(n: nat, a: AbortPoint): (k: nat)
    ensures k <= n
    ensures forall j :: 0 <= j < k ==> !AbortedBeforeAudioTrack(a, j)
    ensures k < n ==> AbortedBeforeAudioTrack(a, k)
  {
    if a.BeforeBlocklistTrack? then 0
    else if a.BeforeAudioTrack? && a.j < n then a.j
    else n
  }

  // ─── Observer trace ─────────────────────────────────────────────

  /** What the scan reports, in order: the two callbacks, the rate-limit delay and
      the release of the capture device. */
  datatype Event =
    | Progress(p: ScanProgress)          // `callbacks.onProgress({ ...progress })`
    | TrackResult(r: ScanResult)         // `callbacks.onTrackResult(result)`
    | Delay(ms: nat)                     // `await sleep(ANALYSIS_DELAY_MS)`
    | ReleaseCapture                     // `destroyPlaybackCapture()`

  // ─── Phase 1: blocklist ─────────────────────────────────────────

  /** The result phase 1 builds for a track. */
  function BlocklistResult(t: Track, blocklist: seq<string> -> BlocklistMatch): (r: ScanResult)
    ensures Consistent(r)
    ensures r.track == t && r.audioScore.None? && !r.selected && r.audioSource == NoSource
    ensures r.blocklistMatch == blocklist(t.artists).matched
    ensures r.matchedArtists == blocklist(t.artists).matchedNames
    ensures r.riskLevel == (if r.blocklistMatch then High else Unknown)
  {
    var m := blocklist(t.artists);
    ScanResult(t, None, m.matched, m.matchedNames,
               if m.matched then Blocklist else AudioAnalysis,
               if m.matched then High else Unknown,
               false, NoSource)
  }

  /** Phase 1's results once the first `k` tracks are done. */
  function BlocklistResults(tracks: seq<Track>, blocklist: seq<string> -> BlocklistMatch, k: nat): (rs: seq<ScanResult>)
    requires k <= |tracks|
    ensures |rs| == k
    ensures forall i :: 0 <= i < k ==> rs[i] == BlocklistResult(tracks[i], blocklist)
  {
    seq(k, i requires 0 <= i < k => BlocklistResult(tracks[i], blocklist))
  }

  /** Number of blocklist matches among `rs`. */
  function MatchedCount(rs: seq<ScanResult>): nat
  {
    if rs == [] then 0
    else MatchedCount(rs[..|rs| - 1]) + (if rs[|rs| - 1].blocklistMatch then 1 else 0)
  }

  /** The `onTrackResult` calls of phase 1: one per matched result, in order. */
  function MatchedEvents(rs: seq<ScanResult>): seq<Event>
  {
    if rs == [] then []
    else MatchedEvents(rs[..|rs| - 1]) +
         (if rs[|rs| - 1].blocklistMatch then [TrackResult(rs[|rs| - 1])] else [])
  }

  /** Phase 1's progress record after `done` results with `flagged` matches. */
  function BlocklistProgress(total: nat, done: nat, flagged: nat): ScanProgress
  {
    ScanProgress(PhaseBlocklist, total, done, flagged, None)
  }

  /** One more visited track appends its blocklist result, and the match count and the
      reported matches grow by that result. */
  lemma BlocklistStep(tracks: seq<Track>, blocklist: seq<string> -> BlocklistMatch, i: nat)
    requires i < |tracks|
    ensures var rs := BlocklistResults(tracks, blocklist, i);
      var r := BlocklistResult(tracks[i], blocklist);
      && BlocklistResults(tracks, blocklist, i + 1) == rs + [r]
      && MatchedCount(rs + [r]) == MatchedCount(rs) + (if r.blocklistMatch then 1 else 0)
      && MatchedEvents(rs + [r]) == MatchedEvents(rs) + (if r.blocklistMatch then [TrackResult(r)] else [])
  {
    var rs := BlocklistResults(tracks, blocklist, i);
    var r := BlocklistResult(tracks[i], blocklist);
    assert (rs + [r])[..|rs + [r]| - 1] == rs;
  }

  /** The blocklist loop's state after `i` visited tracks, as the specification gives it. */
  predicate BlocklistState(tracks: seq<Track>, blocklist: seq<string> -> BlocklistMatch, i: nat,
                           results: seq<ScanResult>, progress: ScanProgress, events: seq<Event>)
  {
    && i <= |tracks|
    && results == BlocklistResults(tracks, blocklist, i)
    && progress == BlocklistProgress(|tracks|, i, MatchedCount(results))
    && events == [Progress(BlocklistProgress(|tracks|, 0, 0))] + MatchedEvents(results)
  }

  /** The blocklist loop's state after visiting track `i` is the specification's after `i + 1`. */
  lemma BlocklistLoopStep(tracks: seq<Track>, blocklist: seq<string> -> BlocklistMatch, i: nat,
                          results: seq<ScanResult>, progress: ScanProgress, events: seq<Event>)
    requires i < |tracks| && BlocklistState(tracks, blocklist, i, results, progress, events)
    ensures var r := BlocklistResult(tracks[i], blocklist);
      BlocklistState(tracks, blocklist, i + 1, results + [r],
                     BlocklistProgress(|tracks|, i + 1, progress.flaggedCount + (if r.blocklistMatch then 1 else 0)),
                     events + (if r.blocklistMatch then [TrackResult(r)] else []))
  {
    BlocklistStep(tracks, blocklist, i);
  }

  /** Phase 1: one result per track, in order, until the abort is seen. */
  method BlocklistPhase(tracks: seq<Track>, blocklist: seq<string> -> BlocklistMatch, abort: AbortPoint)
    returns (results: seq<ScanResult>, progress: ScanProgress, events: seq<Event>)
    ensures results == BlocklistResults(tracks, blocklist, BlocklistVisited(|tracks|, abort))
    ensures progress == BlocklistProgress(|tracks|, |results|, MatchedCount(results))
    ensures events == [Progress(BlocklistProgress(|tracks|, 0, 0))] + MatchedEvents(results) + [Progress(progress)]
  {
    results := [];
    progress := BlocklistProgress(|tracks|, 0, 0);
    events := [Progress(progress)];
    var i := 0;
    while i < |tracks|
      invariant i <= BlocklistVisited(|tracks|, abort)
      invariant BlocklistState(tracks, blocklist, i, results, progress, events)
    {
      if AbortedBeforeBlocklistTrack(abort, i) {
        break;
      }
      var result := BlocklistResult(tracks[i], blocklist);
      BlocklistLoopStep(tracks, blocklist, i, results, progress, events);
      results := results + [result];
      progress := progress.(processedTracks := progress.processedTracks + 1);
      if result.blocklistMatch {
        progress := progress.(flaggedCount := progress.flaggedCount + 1);
        events := events + [TrackResult(result)];
      }
      i := i + 1;
    }
    assert i == BlocklistVisited(|tracks|, abort);
    progress := progress.(phase := PhaseBlocklist);
    events := events + [Progress(progress)];
  }

  // ─── Phase 2: audio analysis ────────────────────────────────────

  /** The outcome of each result's analysis, as phase 2 would meet them in order. */
  function Outcomes(rs: seq<ScanResult>, env: Env, opts: ScanOptions, captureActive: bool): (outs: seq<TrackOutcome>)
    ensures |outs| == |rs|
    ensures forall j :: 0 <= j < |rs| ==> outs[j] == AnalyzeTrack(env, opts, captureActive, j, rs[j])
  {
    seq(|rs|, j requires 0 <= j < |rs| => AnalyzeTrack(env, opts, captureActive, j, rs[j]))
  }

  /** Phase 2's results once the first `k` tracks are visited, given their outcomes. */
  function AudioResults(rs: seq<ScanResult>, outs: seq<TrackOutcome>, k: nat): (out: seq<ScanResult>)
    requires k <= |rs| == |outs|
    ensures |out| == |rs|
    ensures forall j :: 0 <= j < k ==> out[j] == ApplyOutcome(rs[j], outs[j])
    ensures forall j :: k <= j < |rs| ==> out[j] == rs[j]
  {
    seq(|rs|, j requires 0 <= j < |rs| => if j < k then ApplyOutcome(rs[j], outs[j]) else rs[j])
  }

  /** Number of the first `k` tracks that phase 2 flags. */
  function AudioFlagged(outs: seq<TrackOutcome>, k: nat): nat
    requires k <= |outs|
  {
    if k == 0 then 0
    else AudioFlagged(outs, k - 1) + (if FlagsTrack(outs[k - 1]) then 1 else 0)
  }

  /** The label `${artists[0]?.name} – ${name}` shown while a track is analysed. */
  function TrackLabel(t: Track): (s: string)
    ensures s != ""
  {
    (if |t.artists| > 0 then t.artists[0] else "undefined") + " – " + t.name
  }

  /** The events the `j`-th audio track emits, given the progress before it. */
  function AudioTrackEvents(before: ScanProgress, o: TrackOutcome, applied: ScanResult, j: nat, n: nat): seq<Event>
  {
    var shown := Some(TrackLabel(applied.track));
    var after := before.(currentTrack := shown, processedTracks := j + 1,
                         flaggedCount := before.flaggedCount + (if FlagsTrack(o) then 1 else 0));
    TrackEventsShape(before.(currentTrack := shown),
                     if o.Threw? then [] else [TrackResult(applied)],
                     after,
                     if j + 1 < n then [Delay(ANALYSIS_DELAY_MS)] else [])
  }

  /** A progress report, the track's result if any, a second progress report, the delay if any. */
  function TrackEventsShape(first: ScanProgress, result: seq<Event>, second: ScanProgress, delay: seq<Event>): seq<Event>
  {
    [Progress(first)] + result + [Progress(second)] + delay
  }

  /** Phase 2's progress record after `k` visited tracks. */
  function AudioProgress(start: ScanProgress, rs: seq<ScanResult>, outs: seq<TrackOutcome>, k: nat): ScanProgress
    requires k <= |rs| == |outs|
  {
    start.(processedTracks := k,
           flaggedCount := start.flaggedCount + AudioFlagged(outs, k),
           currentTrack := if k == 0 then start.currentTrack else Some(TrackLabel(rs[k - 1].track)))
  }

  /** The events of the first `k` audio tracks. */
  function AudioEvents(start: ScanProgress, rs: seq<ScanResult>, outs: seq<TrackOutcome>, k: nat): seq<Event>
    requires k <= |rs| == |outs|
  {
    if k == 0 then []
    else
      AudioEvents(start, rs, outs, k - 1) +
      AudioTrackEvents(AudioProgress(start, rs, outs, k - 1), outs[k - 1],
                       ApplyOutcome(rs[k - 1], outs[k - 1]), k - 1, |rs|)
  }

  /** One audio track's step, in terms of the phase-2 specification functions. */
  lemma AudioStep(rs: seq<ScanResult>, outs: seq<TrackOutcome>, start: ScanProgress, j: nat)
    requires j < |rs| == |outs|
    ensures var o := outs[j];
      var before := AudioProgress(start, rs, outs, j);
      && AudioResults(rs, outs, j + 1) == AudioResults(rs, outs, j)[j := ApplyOutcome(rs[j], o)]
      && AudioProgress(start, rs, outs, j + 1)
         == before.(currentTrack := Some(TrackLabel(rs[j].track)), processedTracks := j + 1,
                    flaggedCount := before.flaggedCount + (if FlagsTrack(o) then 1 else 0))
      && AudioEvents(start, rs, outs, j + 1)
         == AudioEvents(start, rs, outs, j) + AudioTrackEvents(before, o, ApplyOutcome(rs[j], o), j, |rs|)
  {
  }

  /** The audio loop's state after `j` visited results, as the specification gives it. */
  predicate AudioState(rs: seq<ScanResult>, outs: seq<TrackOutcome>, start: ScanProgress,
                       j: nat, results: seq<ScanResult>, progress: ScanProgress, events: seq<Event>)
  {
    && j <= |rs| == |outs|
    && results == AudioResults(rs, outs, j)
    && progress == AudioProgress(start, rs, outs, j)
    && events == AudioEvents(start, rs, outs, j)
  }

  /** Before the audio loop visits anything, the specification is the starting state. */
  lemma AudioInitial(rs: seq<ScanResult>, outs: seq<TrackOutcome>, start: ScanProgress)
    requires |rs| == |outs| && start.processedTracks == 0
    ensures AudioState(rs, outs, start, 0, rs, start, [])
  {
  }

  /** While the loop runs, the next result is still untouched and the counter is `j`. */
  lemma AudioStateAt(rs: seq<ScanResult>, outs: seq<TrackOutcome>, start: ScanProgress,
                     j: nat, results: seq<ScanResult>, progress: ScanProgress, events: seq<Event>)
    requires j < |rs| && AudioState(rs, outs, start, j, results, progress, events)
    ensures |results| == |rs| && results[j] == rs[j] && progress.processedTracks == j
  {
  }

  /** The audio loop's state after visiting result `j` is the specification's after `j + 1`. */
  lemma AudioLoopStep(rs: seq<ScanResult>, outs: seq<TrackOutcome>, start: ScanProgress, j: nat,
                      results: seq<ScanResult>, progress: ScanProgress, events: seq<Event>,
                      updated: ScanResult, after: ScanProgress, trackEvents: seq<Event>)
    requires j < |rs| && AudioState(rs, outs, start, j, results, progress, events)
    requires var o := outs[j];
      && updated == ApplyOutcome(rs[j], o)
      && after == progress.(currentTrack := Some(TrackLabel(rs[j].track)), processedTracks := j + 1,
                            flaggedCount := progress.flaggedCount + (if FlagsTrack(o) then 1 else 0))
      && trackEvents == AudioTrackEvents(progress, o, ApplyOutcome(rs[j], o), j, |rs|)
    ensures AudioState(rs, outs, start, j + 1, results[j := updated], after, events + trackEvents)
  {
    AudioStep(rs, outs, start, j);
  }

  /** The body of the audio loop for the `j`-th of `n` results, after the abort check. */
  method VisitAudioTrack(result: ScanResult, progress: ScanProgress, env: Env, opts: ScanOptions,
                         captureActive: bool, j: nat, n: nat)
    returns (updated: ScanResult, after: ScanProgress, trackEvents: seq<Event>)
    requires progress.processedTracks == j
    ensures var o := AnalyzeTrack(env, opts, captureActive, j, result);
      && updated == ApplyOutcome(result, o)
      && after == progress.(currentTrack := Some(TrackLabel(result.track)), processedTracks := j + 1,
                            flaggedCount := progress.flaggedCount + (if FlagsTrack(o) then 1 else 0))
      && trackEvents == AudioTrackEvents(progress, o, ApplyOutcome(result, o), j, n)
  {
    updated := result;
    after := progress.(currentTrack := Some(TrackLabel(result.track)));
    trackEvents := [Progress(after)];
    var outcome := AnalyzeTrack(env, opts, captureActive, j, result);
    if !outcome.Threw? {
      updated := ApplyOutcome(result, outcome);
      if FlagsTrack(outcome) {
        after := after.(flaggedCount := after.flaggedCount + 1);
      }
      trackEvents := trackEvents + [TrackResult(updated)];
    }
    after := after.(processedTracks := after.processedTracks + 1);
    trackEvents := trackEvents + [Progress(after)];
    if after.processedTracks < n {
      trackEvents := trackEvents + [Delay(ANALYSIS_DELAY_MS)];
    }
  }

  /** Phase 2: each result in turn until the abort is seen; a thrown error skips the
      writes for that track but not its counter. */
  method AudioPhase(rs: seq<ScanResult>, start: ScanProgress, env: Env, opts: ScanOptions,
                    captureActive: bool, abort: AbortPoint)
    returns (results: seq<ScanResult>, progress: ScanProgress, events: seq<Event>)
    requires start.processedTracks == 0
    ensures var outs := Outcomes(rs, env, opts, captureActive);
      && results == AudioResults(rs, outs, AudioVisited(|rs|, abort))
      && progress == AudioProgress(start, rs, outs, AudioVisited(|rs|, abort))
      && events == AudioEvents(start, rs, outs, AudioVisited(|rs|, abort))
  {
    ghost var outs := Outcomes(rs, env, opts, captureActive);
    results := rs;
    progress := start;
    events := [];
    AudioInitial(rs, outs, start);
    var j := 0;
    while j < |rs|
      invariant j <= AudioVisited(|rs|, abort)
      invariant AudioState(rs, outs, start, j, results, progress, events)
    {
      if AbortedBeforeAudioTrack(abort, j) {
        break;
      }
      AudioStateAt(rs, outs, start, j, results, progress, events);
      var updated, after, trackEvents := VisitAudioTrack(results[j], progress, env, opts, captureActive, j, |rs|);
      AudioLoopStep(rs, outs, start, j, results, progress, events, updated, after, trackEvents);
      results := results[j := updated];
      progress := after;
      events := events + trackEvents;
      j := j + 1;
    }
    assert j == AudioVisited(|rs|, abort);
  }

  // ─── The scan ───────────────────────────────────────────────────

  /** Whether the scan holds a playback-capture device (`playbackCapture` non-null). */
  predicate CaptureActive(env: Env, opts: ScanOptions)
  {
    opts.enablePlaybackCapture && Deezer.Truthy(opts.accessToken) && env.captureInitOk
  }

  /** The results phase 1 leaves. */
  function Phase1Results(tracks: seq<Track>, env: Env, abort: AbortPoint): seq<ScanResult>
  {
    BlocklistResults(tracks, env.blocklist, BlocklistVisited(|tracks|, abort))
  }

  /** The progress record phase 2 starts from. */
  function AudioStart(phase1: seq<ScanResult>): ScanProgress
  {
    ScanProgress(PhaseAudio, |phase1|, 0, MatchedCount(phase1), None)
  }

  /** The results `scanTracks` returns. */
  function ScanResults(tracks: seq<Track>, env: Env, opts: ScanOptions, abort: AbortPoint): seq<ScanResult>
  {
    var phase1 := Phase1Results(tracks, env, abort);
    if !opts.enableAudioAnalysis then phase1
    else AudioResults(phase1, Outcomes(phase1, env, opts, CaptureActive(env, opts)), AudioVisited(|phase1|, abort))
  }

  /** The progress record `scanTracks` reports last. */
  function FinalProgress(tracks: seq<Track>, env: Env, opts: ScanOptions, abort: AbortPoint): ScanProgress
  {
    var phase1 := Phase1Results(tracks, env, abort);
    if !opts.enableAudioAnalysis then
      ScanProgress(PhaseComplete, |tracks|, |phase1|, MatchedCount(phase1), None)
    else
      AudioProgress(AudioStart(phase1), phase1, Outcomes(phase1, env, opts, CaptureActive(env, opts)),
                    AudioVisited(|phase1|, abort)).(phase := PhaseComplete, currentTrack := None)
  }

  /** What phase 1 reports: the starting progress, one result per match, the closing progress. */
  function ScanHead(tracks: seq<Track>, phase1: seq<ScanResult>): seq<Event>
  {
    [Progress(BlocklistProgress(|tracks|, 0, 0))] + MatchedEvents(phase1) +
    [Progress(BlocklistProgress(|tracks|, |phase1|, MatchedCount(phase1)))]
  }

  /** Everything `scanTracks` reports, in order. */
  function ScanEvents(tracks: seq<Track>, env: Env, opts: ScanOptions, abort: AbortPoint): seq<Event>
  {
    var phase1 := Phase1Results(tracks, env, abort);
    var head := ScanHead(tracks, phase1);
    if !opts.enableAudioAnalysis then head + [Progress(FinalProgress(tracks, env, opts, abort))]
    else
      var active := CaptureActive(env, opts);
      head + [Progress(AudioStart(phase1))] +
      AudioEvents(AudioStart(phase1), phase1, Outcomes(phase1, env, opts, active), AudioVisited(|phase1|, abort)) +
      ReleaseEvents(active) +
      [Progress(FinalProgress(tracks, env, opts, abort))]
  }

  /** `releaseCapture()`, in the `finally` block when the capture session was started. */
  function ReleaseEvents(active: bool): seq<Event>
  {
    if active then [ReleaseCapture] else []
  }

  /** `scanTracks`: phase 1 (blocklist), then, if enabled, phase 2 (audio). */
  method ScanTracks(tracks: seq<Track>, env: Env, opts: ScanOptions, abort: AbortPoint)
    returns (results: seq<ScanResult>, events: seq<Event>)
    ensures results == ScanResults(tracks, env, opts, abort)
    ensures events == ScanEvents(tracks, env, opts, abort)
  {
    var phase1, progress;
    phase1, progress, events := BlocklistPhase(tracks, env.blocklist, abort);
    if !opts.enableAudioAnalysis {
      progress := progress.(phase := PhaseComplete);
      events := events + [Progress(progress)];
      results := phase1;
      return;
    }
    progress := progress.(phase := PhaseAudio, processedTracks := 0, totalTracks := |phase1|);
    events := events + [Progress(progress)];
    var captureActive := CaptureActive(env, opts);
    var audioEvents;
    results, progress, audioEvents := AudioPhase(phase1, progress, env, opts, captureActive, abort);
    events := events + audioEvents;
    if captureActive {
      events := events + [ReleaseCapture];
    }
    progress := progress.(phase := PhaseComplete, currentTrack := None);
    events := events + [Progress(progress)];
  }

  // ─── Properties of the scan ─────────────────────────────────────

  /** Every result the scan returns keeps the derivation invariant, belongs to the
      track at the same position, and a blocklisted track is high risk whatever its score. */
  lemma {:induction false} ScanResultsInvariant(tracks: seq<Track>, env: Env, opts: ScanOptions, abort: AbortPoint)
    ensures var rs := ScanResults(tracks, env, opts, abort);
      && |rs| == BlocklistVisited(|tracks|, abort)
      && AllConsistent(rs)
      && (forall i :: 0 <= i < |rs| ==>
            rs[i].track == tracks[i] && !rs[i].selected &&
            rs[i].blocklistMatch == env.blocklist(tracks[i].artists).matched &&
            (rs[i].blocklistMatch ==> rs[i].riskLevel == High) &&
            (rs[i].audioSource == NoSource <==> rs[i].audioScore.None?))
  {
    var phase1 := Phase1Results(tracks, env, abort);
    var rs := ScanResults(tracks, env, opts, abort);
    forall i | 0 <= i < |rs|
      ensures Consistent(rs[i]) && rs[i].track == tracks[i] && !rs[i].selected
      ensures rs[i].blocklistMatch == env.blocklist(tracks[i].artists).matched
      ensures rs[i].blocklistMatch ==> rs[i].riskLevel == High
      ensures rs[i].audioSource == NoSource <==> rs[i].audioScore.None?
    {
      var r := phase1[i];
      assert r == BlocklistResult(tracks[i], env.blocklist);
      if opts.enableAudioAnalysis {
        var active := CaptureActive(env, opts);
        if i < AudioVisited(|phase1|, abort) {
          var o := AnalyzeTrack(env, opts, active, i, r);
          assert rs[i] == ApplyOutcome(r, o);
        } else {
          assert rs[i] == r;
        }
      }
    }
  }

  /** Without an abort in phase 1, phase 1 yields exactly one result per input track,
      in input order, unscored, unselected, with risk high iff matched and unknown otherwise. */
  lemma Phase1OnePerTrack(tracks: seq<Track>, env: Env, abort: AbortPoint)
    requires !abort.BeforeBlocklistTrack? || abort.i >= |tracks|
    ensures var rs := Phase1Results(tracks, env, abort);
      && |rs| == |tracks|
      && forall i :: 0 <= i < |rs| ==>
           rs[i].track == tracks[i] && rs[i].audioScore.None? && !rs[i].selected &&
           rs[i].audioSource == NoSource &&
           rs[i].riskLevel == (if env.blocklist(tracks[i].artists).matched then High else Unknown)
  {
  }

  /** Phase 1 reports `onTrackResult` once per matched result and for nothing else,
      and its flag count is the number of matches. */
  lemma {:induction false} MatchedEventsExact(rs: seq<ScanResult>)
    ensures |MatchedEvents(rs)| == MatchedCount(rs) <= |rs|
    ensures forall k :: 0 <= k < |MatchedEvents(rs)| ==>
      MatchedEvents(rs)[k].TrackResult? && MatchedEvents(rs)[k].r in rs && MatchedEvents(rs)[k].r.blocklistMatch
    ensures forall r :: r in rs && r.blocklistMatch ==> TrackResult(r) in MatchedEvents(rs)
  {
    if rs != [] {
      var init := rs[..|rs| - 1];
      MatchedEventsExact(init);
      assert forall r :: r in init ==> r in rs;
      assert forall r :: r in rs ==> r in init || r == rs[|rs| - 1];
    }
  }

  /** Kinds of reported events, for counting them. */
  datatype EventKind = ProgressKind | TrackResultKind | DelayKind | ReleaseKind

  function KindOf(e: Event): EventKind
  {
    match e
    case Progress(_) => ProgressKind
    case TrackResult(_) => TrackResultKind
    case Delay(_) => DelayKind
    case ReleaseCapture => ReleaseKind
  }

  /** Number of events of a kind. */
  function CountKind(es: seq<Event>, kind: EventKind): nat
  {
    if es == [] then 0
    else CountKind(es[..|es| - 1], kind) + (if KindOf(es[|es| - 1]) == kind then 1 else 0)
  }

  lemma {:induction false} CountKindAppend(a: seq<Event>, b: seq<Event>, kind: EventKind)
    ensures CountKind(a + b, kind) == CountKind(a, kind) + CountKind(b, kind)
    decreases |b|
  {
    if b == [] {
      assert a + b == a;
    } else {
      assert (a + b)[..|a + b| - 1] == a + b[..|b| - 1];
      CountKindAppend(a, b[..|b| - 1], kind);
    }
  }

  lemma {:induction false} MatchedEventsKinds(rs: seq<ScanResult>)
    ensures CountKind(MatchedEvents(rs), DelayKind) == 0
    ensures CountKind(MatchedEvents(rs), ReleaseKind) == 0
    ensures CountKind(MatchedEvents(rs), TrackResultKind) == MatchedCount(rs)
  {
    if rs != [] {
      var last := rs[|rs| - 1];
      MatchedEventsKinds(rs[..|rs| - 1]);
      var tail := if last.blocklistMatch then [TrackResult(last)] else [];
      CountKindAppend(MatchedEvents(rs[..|rs| - 1]), tail, DelayKind);
      CountKindAppend(MatchedEvents(rs[..|rs| - 1]), tail, ReleaseKind);
      CountKindAppend(MatchedEvents(rs[..|rs| - 1]), tail, TrackResultKind);
      if last.blocklistMatch {
        assert tail[..0] == [];
      }
    }
  }

  lemma CountKindSingle(e: Event, kind: EventKind)
    ensures CountKind([e], kind) == if KindOf(e) == kind then 1 else 0
  {
    assert [e][..0] == [];
  }

  /** The events one audio track reports: one `onTrackResult` unless its analysis threw,
      two progress reports, and the delay only when another track follows. */
  lemma AudioTrackEventKinds(before: ScanProgress, o: TrackOutcome, applied: ScanResult, j: nat, n: nat, kind: EventKind)
    ensures CountKind(AudioTrackEvents(before, o, applied, j, n), kind) ==
      match kind
      case DelayKind => (if j + 1 < n then 1 else 0)
      case ReleaseKind => 0
      case ProgressKind => 2
      case TrackResultKind => (if o.Threw? then 0 else 1)
  {
    var tr: seq<Event> := if o.Threw? then [] else [TrackResult(applied)];
    var d: seq<Event> := if j + 1 < n then [Delay(ANALYSIS_DELAY_MS)] else [];
    var shown := Some(TrackLabel(applied.track));
    ShapeKinds(before.(currentTrack := shown), tr,
               before.(currentTrack := shown, processedTracks := j + 1,
                       flaggedCount := before.flaggedCount + (if FlagsTrack(o) then 1 else 0)),
               d, kind);
    if !o.Threw? {
      CountKindSingle(TrackResult(applied), kind);
    }
    if j + 1 < n {
      CountKindSingle(Delay(ANALYSIS_DELAY_MS), kind);
    }
  }

  lemma ShapeKinds(first: ScanProgress, result: seq<Event>, second: ScanProgress, delay: seq<Event>, kind: EventKind)
    ensures CountKind(TrackEventsShape(first, result, second, delay), kind) ==
      (if kind == ProgressKind then 2 else 0) + CountKind(result, kind) + CountKind(delay, kind)
  {
    CountKindConcat3([Progress(first)], result, [Progress(second)], kind);
    CountKindAppend([Progress(first)] + result + [Progress(second)], delay, kind);
    CountKindSingle(Progress(first), kind);
    CountKindSingle(Progress(second), kind);
  }

  /** Over the first `k` of `n` audio tracks: one delay per track except after the last
      of all, no capture release, and two progress reports per track. */
  lemma AudioEventKinds(start: ScanProgress, rs: seq<ScanResult>, outs: seq<TrackOutcome>, k: nat, kind: EventKind)
    requires k <= |rs| == |outs|
    ensures var c := CountKind(AudioEvents(start, rs, outs, k), kind);
      match kind
      case DelayKind => c == (if k == |rs| && k > 0 then k - 1 else k)
      case ReleaseKind => c == 0
      case ProgressKind => c == 2 * k
      case TrackResultKind => c <= k
  {
    AudioEventsTally(start, rs, outs, k, kind);
    AudioTallyKinds(outs, |rs|, k, kind);
  }

  /** How many events of a kind the `j`-th of `n` audio tracks reports. */
  function TrackTally(o: TrackOutcome, j: nat, n: nat, kind: EventKind): nat
  {
    match kind
    case DelayKind => (if j + 1 < n then 1 else 0)
    case ReleaseKind => 0
    case ProgressKind => 2
    case TrackResultKind => (if o.Threw? then 0 else 1)
  }

  /** The sum of `TrackTally` over the first `k` audio tracks. */
  function AudioTally(outs: seq<TrackOutcome>, n: nat, k: nat, kind: EventKind): nat
    requires k <= |outs|
  {
    if k == 0 then 0 else AudioTally(outs, n, k - 1, kind) + TrackTally(outs[k - 1], k - 1, n, kind)
  }

  lemma {:induction false} AudioTallyKinds(outs: seq<TrackOutcome>, n: nat, k: nat, kind: EventKind)
    requires k <= |outs| == n
    ensures var c := AudioTally(outs, n, k, kind);
      match kind
      case DelayKind => c == (if k == n && k > 0 then k - 1 else k)
      case ReleaseKind => c == 0
      case ProgressKind => c == 2 * k
      case TrackResultKind => c <= k
  {
    if k > 0 {
      AudioTallyKinds(outs, n, k - 1, kind);
    }
  }

  lemma {:induction false} AudioEventsTally(start: ScanProgress, rs: seq<ScanResult>, outs: seq<TrackOutcome>,
                                            k: nat, kind: EventKind)
    requires k <= |rs| == |outs|
    ensures CountKind(AudioEvents(start, rs, outs, k), kind) == AudioTally(outs, |rs|, k, kind)
  {
    if k == 0 {
      assert AudioEvents(start, rs, outs, k) == [];
    } else {
      AudioEventsTally(start, rs, outs, k - 1, kind);
      AudioEventsLastKinds(start, rs, outs, k, kind);
    }
  }

  /** The `k`-th audio track adds its own events to those of the tracks before it. */
  lemma AudioEventsLastKinds(start: ScanProgress, rs: seq<ScanResult>, outs: seq<TrackOutcome>, k: nat, kind: EventKind)
    requires 0 < k <= |rs| == |outs|
    ensures CountKind(AudioEvents(start, rs, outs, k), kind) ==
      CountKind(AudioEvents(start, rs, outs, k - 1), kind) + TrackTally(outs[k - 1], k - 1, |rs|, kind)
  {
    var o := outs[k - 1];
    var before := AudioProgress(start, rs, outs, k - 1);
    var prev := AudioEvents(start, rs, outs, k - 1);
    var tail := AudioTrackEvents(before, o, ApplyOutcome(rs[k - 1], o), k - 1, |rs|);
    assert AudioEvents(start, rs, outs, k) == prev + tail;
    AudioTrackEventKinds(before, o, ApplyOutcome(rs[k - 1], o), k - 1, |rs|, kind);
    CountKindAppend(prev, tail, kind);
  }

  /** Delays and releases in the whole scan come from phase 2 only. */
  lemma ScanEventKinds(tracks: seq<Track>, env: Env, opts: ScanOptions, abort: AbortPoint, kind: EventKind)
    requires kind == DelayKind || kind == ReleaseKind
    ensures var phase1 := Phase1Results(tracks, env, abort);
      CountKind(ScanEvents(tracks, env, opts, abort), kind) ==
        if !opts.enableAudioAnalysis then 0
        else CountKind(AudioEvents(AudioStart(phase1), phase1, Outcomes(phase1, env, opts, CaptureActive(env, opts)),
                                   AudioVisited(|phase1|, abort)), kind) +
             (if CaptureActive(env, opts) && kind == ReleaseKind then 1 else 0)
  {
    var phase1 := Phase1Results(tracks, env, abort);
    HeadKinds(tracks, phase1, kind);
    if !opts.enableAudioAnalysis {
      NoAudioEventKinds(tracks, env, opts, abort, kind);
    } else {
      AudioScanEventKinds(tracks, env, opts, abort, kind);
    }
  }

  lemma NoAudioEventKinds(tracks: seq<Track>, env: Env, opts: ScanOptions, abort: AbortPoint, kind: EventKind)
    requires kind == DelayKind || kind == ReleaseKind
    requires !opts.enableAudioAnalysis
    requires CountKind(ScanHead(tracks, Phase1Results(tracks, env, abort)), kind) == 0
    ensures CountKind(ScanEvents(tracks, env, opts, abort), kind) == 0
  {
    var head := ScanHead(tracks, Phase1Results(tracks, env, abort));
    var final := Progress(FinalProgress(tracks, env, opts, abort));
    assert ScanEvents(tracks, env, opts, abort) == head + [final];
    ShapeWithoutAudio(head, final, kind);
  }

  lemma AudioScanEventKinds(tracks: seq<Track>, env: Env, opts: ScanOptions, abort: AbortPoint, kind: EventKind)
    requires kind == DelayKind || kind == ReleaseKind
    requires opts.enableAudioAnalysis
    requires CountKind(ScanHead(tracks, Phase1Results(tracks, env, abort)), kind) == 0
    ensures var phase1 := Phase1Results(tracks, env, abort);
      CountKind(ScanEvents(tracks, env, opts, abort), kind) ==
        CountKind(AudioEvents(AudioStart(phase1), phase1, Outcomes(phase1, env, opts, CaptureActive(env, opts)),
                              AudioVisited(|phase1|, abort)), kind) +
        (if CaptureActive(env, opts) && kind == ReleaseKind then 1 else 0)
  {
    var phase1 := Phase1Results(tracks, env, abort);
    var active := CaptureActive(env, opts);
    ScanEventsWithAudio(tracks, env, opts, abort);
    ShapeWithAudio(ScanHead(tracks, phase1), Progress(AudioStart(phase1)),
                   AudioEvents(AudioStart(phase1), phase1, Outcomes(phase1, env, opts, active), AudioVisited(|phase1|, abort)),
                   ReleaseEvents(active), Progress(FinalProgress(tracks, env, opts, abort)), kind);
    ReleaseKinds(active, kind);
  }

  /** With the audio phase on, the scan's events are phase 1's, the phase-2 start report,
      the audio tracks' events, the capture release if any, and the closing report. */
  lemma ScanEventsWithAudio(tracks: seq<Track>, env: Env, opts: ScanOptions, abort: AbortPoint)
    requires opts.enableAudioAnalysis
    ensures var phase1 := Phase1Results(tracks, env, abort);
      var active := CaptureActive(env, opts);
      ScanEvents(tracks, env, opts, abort) ==
        ScanHead(tracks, phase1) + [Progress(AudioStart(phase1))] +
        AudioEvents(AudioStart(phase1), phase1, Outcomes(phase1, env, opts, active), AudioVisited(|phase1|, abort)) +
        ReleaseEvents(active) + [Progress(FinalProgress(tracks, env, opts, abort))]
  {
  }

  lemma ReleaseKinds(active: bool, kind: EventKind)
    ensures CountKind(ReleaseEvents(active), kind) == if active && kind == ReleaseKind then 1 else 0
  {
    if active {
      CountKindSingle(ReleaseCapture, kind);
    } else {
      assert ReleaseEvents(active) == [];
    }
  }

  /** Without the audio phase, the closing progress report adds no delay or release. */
  lemma ShapeWithoutAudio(head: seq<Event>, final: Event, kind: EventKind)
    requires final.Progress? && kind != ProgressKind
    ensures CountKind(head + [final], kind) == CountKind(head, kind)
  {
    CountKindSingle(final, kind);
    CountKindAppend(head, [final], kind);
  }

  /** The scan's events around the audio phase: only the audio events and the release can
      be delays or releases. */
  lemma ShapeWithAudio(head: seq<Event>, start: Event, audio: seq<Event>, release: seq<Event>, final: Event, kind: EventKind)
    requires start.Progress? && final.Progress? && kind != ProgressKind
    ensures CountKind(head + [start] + audio + release + [final], kind) ==
            CountKind(head, kind) + CountKind(audio, kind) + CountKind(release, kind)
  {
    CountKindSingle(start, kind);
    CountKindSingle(final, kind);
    CountKindConcat3(head, [start], audio, kind);
    CountKindConcat3(head + [start] + audio, release, [final], kind);
  }

  /** Phase 1 reports no delay and no release. */
  lemma HeadKinds(tracks: seq<Track>, phase1: seq<ScanResult>, kind: EventKind)
    requires kind == DelayKind || kind == ReleaseKind
    ensures CountKind(ScanHead(tracks, phase1), kind) == 0
  {
    var first := Progress(BlocklistProgress(|tracks|, 0, 0));
    var second := Progress(BlocklistProgress(|tracks|, |phase1|, MatchedCount(phase1)));
    MatchedEventsKinds(phase1);
    CountKindSingle(first, kind);
    CountKindSingle(second, kind);
    CountKindConcat3([first], MatchedEvents(phase1), [second], kind);
  }

  lemma CountKindConcat3(a: seq<Event>, b: seq<Event>, c: seq<Event>, kind: EventKind)
    ensures CountKind(a + b + c, kind) == CountKind(a, kind) + CountKind(b, kind) + CountKind(c, kind)
  {
    CountKindAppend(a, b, kind);
    CountKindAppend(a + b, c, kind);
  }

  /** The capture device is released exactly once when the audio phase held one, and
      never otherwise. */
  lemma CaptureReleasedOnce(tracks: seq<Track>, env: Env, opts: ScanOptions, abort: AbortPoint)
    ensures CountKind(ScanEvents(tracks, env, opts, abort), ReleaseKind) ==
            (if opts.enableAudioAnalysis && CaptureActive(env, opts) then 1 else 0)
  {
    ScanEventKinds(tracks, env, opts, abort, ReleaseKind);
    if opts.enableAudioAnalysis {
      var phase1 := Phase1Results(tracks, env, abort);
      AudioEventKinds(AudioStart(phase1), phase1, Outcomes(phase1, env, opts, CaptureActive(env, opts)),
                      AudioVisited(|phase1|, abort), ReleaseKind);
    }
  }

  /** The scan waits between consecutive audio tracks and nowhere else: one delay per
      analysed track, minus one when the phase ran to the last track. */
  lemma DelaysBetweenAudioTracks(tracks: seq<Track>, env: Env, opts: ScanOptions, abort: AbortPoint)
    ensures var phase1 := Phase1Results(tracks, env, abort);
      var v := AudioVisited(|phase1|, abort);
      CountKind(ScanEvents(tracks, env, opts, abort), DelayKind) ==
        if !opts.enableAudioAnalysis then 0
        else if v == |phase1| && v > 0 then v - 1
        else v
  {
    ScanEventKinds(tracks, env, opts, abort, DelayKind);
    if opts.enableAudioAnalysis {
      var phase1 := Phase1Results(tracks, env, abort);
      AudioEventKinds(AudioStart(phase1), phase1, Outcomes(phase1, env, opts, CaptureActive(env, opts)),
                      AudioVisited(|phase1|, abort), DelayKind);
    }
  }

  /** Phase 2 flags at most one track per visited track. */
  lemma {:induction false} AudioFlaggedBounded(outs: seq<TrackOutcome>, k: nat)
    requires k <= |outs|
    ensures AudioFlagged(outs, k) <= k
    ensures AudioFlagged(outs, k) ==
            (if k == 0 then 0 else AudioFlagged(outs, k - 1) + (if FlagsTrack(outs[k - 1]) then 1 else 0))
  {
    if k > 0 {
      AudioFlaggedBounded(outs, k - 1);
    }
  }

  /** The last progress report: phase complete, no current track, the processed count
      of the phase that ran last, and the flag count of both phases together. */
  lemma FinalProgressShape(tracks: seq<Track>, env: Env, opts: ScanOptions, abort: AbortPoint)
    ensures var es := ScanEvents(tracks, env, opts, abort);
      var phase1 := Phase1Results(tracks, env, abort);
      var p := FinalProgress(tracks, env, opts, abort);
      && es[|es| - 1] == Progress(p)
      && p.phase == PhaseComplete && p.currentTrack.None?
      && p.processedTracks <= p.totalTracks
      && (!opts.enableAudioAnalysis ==> p.processedTracks == |phase1| && p.flaggedCount == MatchedCount(phase1))
      && (opts.enableAudioAnalysis ==>
            p.processedTracks == AudioVisited(|phase1|, abort) &&
            MatchedCount(phase1) <= p.flaggedCount <= MatchedCount(phase1) + p.processedTracks)
  {
    var phase1 := Phase1Results(tracks, env, abort);
    AudioFlaggedBounded(Outcomes(phase1, env, opts, CaptureActive(env, opts)), AudioVisited(|phase1|, abort));
  }

  /** With audio analysis off, the scan returns phase 1's results unchanged and never waits. */
  lemma NoAudioReturnsPhase1(tracks: seq<Track>, env: Env, opts: ScanOptions, abort: AbortPoint)
    requires !opts.enableAudioAnalysis
    ensures ScanResults(tracks, env, opts, abort) == Phase1Results(tracks, env, abort)
    ensures CountKind(ScanEvents(tracks, env, opts, abort), DelayKind) == 0
  {
    ScanEventKinds(tracks, env, opts, abort, DelayKind);
  }

  // ─── Statistics ─────────────────────────────────────────────────

  /** The filters `getScanStats` counts by. */
  datatype Criterion =
    | AtLevel(level: RiskLevel)
    | BlocklistMatched
    | UnmatchedWithoutAudio          // audioSource "none" and not blocklisted
    | FromSource(source: AudioSource)

  predicate Meets(r: ScanResult, c: Criterion)
  {
    match c
    case AtLevel(level) => r.riskLevel == level
    case BlocklistMatched => r.blocklistMatch
    case UnmatchedWithoutAudio => r.audioSource == NoSource && !r.blocklistMatch
    case FromSource(source) => r.audioSource == source
  }

  /** `results.filter(...).length` */
  function CountMeeting(rs: seq<ScanResult>, c: Criterion): nat
  {
    if rs == [] then 0
    else CountMeeting(rs[..|rs| - 1], c) + (if Meets(rs[|rs| - 1], c) then 1 else 0)
  }

  datatype ScanStats = ScanStats(
    total: nat, high: nat, medium: nat, low: nat, unknown: nat,
    blocklistMatches: nat, noPreview: nat, deezerFallbacks: nat, playbackCaptures: nat, flagged: nat)

  /** Counts of results meeting two criteria no result meets together add up to at most the total. */
  lemma {:induction false} CountDisjoint(rs: seq<ScanResult>, a: Criterion, b: Criterion)
    requires forall i :: 0 <= i < |rs| ==> !(Meets(rs[i], a) && Meets(rs[i], b))
    ensures CountMeeting(rs, a) + CountMeeting(rs, b) <= |rs|
  {
    if rs != [] {
      CountDisjoint(rs[..|rs| - 1], a, b);
    }
  }

  /** A criterion implied by another on every result is met at least as often. */
  lemma {:induction false} CountImplied(rs: seq<ScanResult>, a: Criterion, b: Criterion)
    requires forall i :: 0 <= i < |rs| ==> Meets(rs[i], a) ==> Meets(rs[i], b)
    ensures CountMeeting(rs, a) <= CountMeeting(rs, b)
  {
    if rs != [] {
      CountImplied(rs[..|rs| - 1], a, b);
    }
  }

  /** The four risk levels partition the results. */
  lemma {:induction false} LevelsPartition(rs: seq<ScanResult>)
    ensures CountMeeting(rs, AtLevel(High)) + CountMeeting(rs, AtLevel(Medium)) +
            CountMeeting(rs, AtLevel(Low)) + CountMeeting(rs, AtLevel(Unknown)) == |rs|
  {
    if rs != [] {
      LevelsPartition(rs[..|rs| - 1]);
    }
  }

  /** The three non-Spotify audio outcomes are pairwise exclusive, so they never overcount. */
  lemma {:induction false} SourcesBounded(rs: seq<ScanResult>)
    ensures CountMeeting(rs, FromSource(DeezerPreview)) + CountMeeting(rs, FromSource(PlaybackCapture)) +
            CountMeeting(rs, UnmatchedWithoutAudio) <= |rs|
  {
    if rs != [] {
      SourcesBounded(rs[..|rs| - 1]);
    }
  }

  /** `getScanStats` */
  function GetScanStats(rs: seq<ScanResult>): (s: ScanStats)
    ensures s.total == |rs|
    ensures s.high + s.medium + s.low + s.unknown == s.total
    ensures s.blocklistMatches + s.noPreview <= s.total
    ensures s.deezerFallbacks + s.playbackCaptures + s.noPreview <= s.total
    ensures s.flagged == s.total - s.low - s.unknown
  {
    LevelsPartition(rs);
    SourcesBounded(rs);
    CountDisjoint(rs, BlocklistMatched, UnmatchedWithoutAudio);
    ScanStats(
      |rs|,
      CountMeeting(rs, AtLevel(High)),
      CountMeeting(rs, AtLevel(Medium)),
      CountMeeting(rs, AtLevel(Low)),
      CountMeeting(rs, AtLevel(Unknown)),
      CountMeeting(rs, BlocklistMatched),
      CountMeeting(rs, UnmatchedWithoutAudio),
      CountMeeting(rs, FromSource(DeezerPreview)),
      CountMeeting(rs, FromSource(PlaybackCapture)),
      CountMeeting(rs, AtLevel(High)) + CountMeeting(rs, AtLevel(Medium)))
  }

  /** Over consistent results every blocklist match is counted as high risk. */
  lemma StatsOfConsistent(rs: seq<ScanResult>)
    requires AllConsistent(rs)
    ensures GetScanStats(rs).blocklistMatches <= GetScanStats(rs).high
  {
    CountImplied(rs, BlocklistMatched, AtLevel(High));
  }

  /** A finished scan's statistics: every blocklisted track counts as high risk. */
  lemma ScanStatsOfScan(tracks: seq<Track>, env: Env, opts: ScanOptions, abort: AbortPoint)
    ensures var st := GetScanStats(ScanResults(tracks, env, opts, abort));
      st.total == BlocklistVisited(|tracks|, abort) && st.blocklistMatches <= st.high
  {
    ScanResultsInvariant(tracks, env, opts, abort);
    StatsOfConsistent(ScanResults(tracks, env, opts, abort));
  }

  // ─── A worked scan ──────────────────────────────────────────────

  /** Three tracks, the second by a blocklisted artist, audio analysis off: three results in
      order, one high-risk blocklist result and two unknown, one `onTrackResult`, and a
      final progress of 3/3 processed with 1 flagged. */
  lemma BlocklistOnlyScan(env: Env, opts: ScanOptions)
    requires !opts.enableAudioAnalysis
    requires env.blocklist(["Alice"]) == BlocklistMatch(false, [])
    requires env.blocklist(["Bot Artist"]) == BlocklistMatch(true, ["Bot Artist"])
    requires env.blocklist(["Carol"]) == BlocklistMatch(false, [])
    ensures var t1 := Track("1", "One", ["Alice"], None, None, "spotify:track:1");
      var t2 := Track("2", "Two", ["Bot Artist"], None, None, "spotify:track:2");
      var t3 := Track("3", "Three", ["Carol"], None, None, "spotify:track:3");
      var rs := ScanResults([t1, t2, t3], env, opts, NeverAborted);
      var st := GetScanStats(rs);
      && |rs| == 3
      && rs[1] == ScanResult(t2, None, true, ["Bot Artist"], Blocklist, High, false, NoSource)
      && rs[0].riskLevel == Unknown && rs[2].riskLevel == Unknown
      && st.high == 1 && st.unknown == 2 && st.blocklistMatches == 1 && st.noPreview == 2
      && FinalProgress([t1, t2, t3], env, opts, NeverAborted) == ScanProgress(PhaseComplete, 3, 3, 1, None)
      && MatchedEvents(rs) == [TrackResult(rs[1])]
  {
    var t1 := Track("1", "One", ["Alice"], None, None, "spotify:track:1");
    var t2 := Track("2", "Two", ["Bot Artist"], None, None, "spotify:track:2");
    var t3 := Track("3", "Three", ["Carol"], None, None, "spotify:track:3");
    var rs := ScanResults([t1, t2, t3], env, opts, NeverAborted);
    var r1 := ScanResult(t1, None, false, [], AudioAnalysis, Unknown, false, NoSource);
    var r2 := ScanResult(t2, None, true, ["Bot Artist"], Blocklist, High, false, NoSource);
    var r3 := ScanResult(t3, None, false, [], AudioAnalysis, Unknown, false, NoSource);
    assert rs == [r1, r2, r3];
    ThreeMatched(r1, r2, r3);
    forall c: Criterion
      ensures CountMeeting(rs, c) ==
        (if Meets(r1, c) then 1 else 0) + (if Meets(r2, c) then 1 else 0) + (if Meets(r3, c) then 1 else 0)
    {
      ThreeMeeting(r1, r2, r3, c);
    }
  }

  /** Phase 1's match count and reported matches over three results. */
  lemma ThreeMatched(a: ScanResult, b: ScanResult, c: ScanResult)
    ensures MatchedCount([a, b, c]) ==
      (if a.blocklistMatch then 1 else 0) + (if b.blocklistMatch then 1 else 0) + (if c.blocklistMatch then 1 else 0)
    ensures MatchedEvents([a, b, c]) ==
      (if a.blocklistMatch then [TrackResult(a)] else []) + (if b.blocklistMatch then [TrackResult(b)] else []) +
      (if c.blocklistMatch then [TrackResult(c)] else [])
  {
    assert [a, b, c][..2] == [a, b] && [a, b][..1] == [a] && [a][..0] == [];
    var ea: seq<Event> := if a.blocklistMatch then [TrackResult(a)] else [];
    var eb: seq<Event> := if b.blocklistMatch then [TrackResult(b)] else [];
    var ec: seq<Event> := if c.blocklistMatch then [TrackResult(c)] else [];
    assert MatchedEvents([a]) == MatchedEvents([]) + ea == ea;
    assert MatchedEvents([a, b]) == MatchedEvents([a]) + eb;
    assert MatchedEvents([a, b, c]) == MatchedEvents([a, b]) + ec;
    assert MatchedCount([a]) == (if a.blocklistMatch then 1 else 0);
    assert MatchedCount([a, b]) == MatchedCount([a]) + (if b.blocklistMatch then 1 else 0);
  }

  /** A criterion's count over three results. */
  lemma ThreeMeeting(a: ScanResult, b: ScanResult, c: ScanResult, cr: Criterion)
    ensures CountMeeting([a, b, c], cr) ==
      (if Meets(a, cr) then 1 else 0) + (if Meets(b, cr) then 1 else 0) + (if Meets(c, cr) then 1 else 0)
  {
    assert [a, b, c][..2] == [a, b] && [a, b][..1] == [a] && [a][..0] == [];
    assert CountMeeting([a], cr) == (if Meets(a, cr) then 1 else 0);
    assert CountMeeting([a, b], cr) == CountMeeting([a], cr) + (if Meets(b, cr) then 1 else 0);
  }
}
