# goodbAI scan pipeline — a Dafny model

goodbAI scans a Spotify playlist for AI-generated music. It runs in two phases.

1. **Blocklist phase.** Every track's artists are checked against a blocklist of known AI
   artists.
2. **Audio phase.** Each track's 30-second preview goes to an audio classifier. The preview
   comes from Spotify, from Deezer as a fallback (looked up by ISRC, then by a title and
   artist search), or from a short capture of in-browser playback through the Spotify Web
   Playback SDK. A same-origin proxy fetches the audio from an allowlisted CDN. The
   classifier is an ONNX model; it receives the middle five seconds of the waveform, at
   44.1 kHz, padded or cropped.

Each track ends up with a risk level and a detection method. The user can filter and sort
the results table, select the flagged tracks and remove them from the playlist. Deletions
go out in batches.

One Dafny module per source file:

| module | file | form |
|---|---|---|
| `Types` | `src/lib/types.ts` | datatypes |
| `Scanner` | `src/lib/scanner.ts` | pure specification functions, plus methods for the two phase loops |
| `ScannerHook` | `src/hooks/use-scanner.ts` | pure state updaters, plus class `ScanHook` for the hook's state and abort controllers |
| `SpotifyApi` | `src/lib/spotify.ts` | class `SpotifyClient`, plus pure pagination and batching |
| `Inference` | `goodbai-app/src/lib/inference.ts` | windowing on an `array`, plus class `InferenceEngine` for the session cache |
| `Deezer` | `goodbai-app/src/lib/deezer.ts` | pure functions |
| `PreviewProxy` | `src/app/api/proxy/preview/route.ts` | pure function |
| `PlaybackCapture` | `src/lib/playback-capture.ts` | classes `SpotifyPlaybackCapture` and `CaptureRegistry`, plus the buffer merge on an `array` |
| `ResultsTable` | `src/components/results-table.tsx` | pure functions |
| `ScanProgressView` | `src/components/scan-progress.tsx` | pure functions |

Everything the code cannot decide for itself is a function-valued parameter or `const`; the
model calls these *oracles*. They stand in for:

- the blocklist;
- the network: Spotify replies, the refresh route, Deezer replies, the upstream CDN;
- the waveform fetch and decoding;
- the ONNX runtime;
- the SDK's connect events;
- the captured audio;
- the abort signal.

The abort signal is an `AbortPoint`: the track before which the controller was aborted, if
any. So "abort is checked once per iteration" is stated exactly.

Facts about the code that the model keeps:

- concurrent token refreshes are not coalesced; each 401 refreshes on its own;
- a 429 without `Retry-After` waits a fixed 5 seconds, the same on every retry;
- `MAX_RETRIES = 3` allows 4 requests in all;
- no delay is inserted between pages or between delete batches;
- `flaggedCount` counts a track flagged in both phases twice;
- the "target" line shows whenever `currentTrack` is truthy;
- `captureTrackAudio` refuses an empty device id, while `isReady` only tests for null.

## Model

| member | source | states |
|---|---|---|
| Scanner.GetRiskLevel | src/lib/scanner.ts:27-36 | each level exactly characterised: High iff matched or scored at least 0.75; Medium iff unmatched with 0.4 ≤ score < 0.75; Low iff unmatched below 0.4; Unknown iff unmatched without a score |
| Scanner.GetDetectionMethod | src/lib/scanner.ts:38-45 | Both exactly when matched and scored; Blocklist exactly when matched without a score; AudioAnalysis exactly when not matched |
| Scanner.RederiveIsIdentity | src/lib/scanner.ts:228-234 | re-deriving risk and method from a consistent result's own match and score changes nothing |
| Scanner.RiskMonotoneInScore | src/lib/scanner.ts:27-36 | a higher audio score never lowers the risk level |
| Scanner.ResolveAudioSource | src/lib/scanner.ts:66-88 | a truthy Spotify preview wins; otherwise, with the fallback on, the Deezer lookup's preview (ISRC when truthy, first artist); otherwise none; never capture; a URL exactly when a source, and never empty |
| Scanner.AnalyzeTrack | src/lib/scanner.ts:203-250 | a score always names a source; a capture score only when no URL resolved, a capture device is active and ready and the capture produced audio; otherwise the score's source is the resolved one |
| Scanner.ApplyOutcome | src/lib/scanner.ts:225-241 | keeps consistency and the track, match, artists and selection; a score writes score and source; no waveform sets the source to none; a thrown analysis changes nothing; a blocklisted High stays High |
| Scanner.BlocklistVisited | src/lib/scanner.ts:141-142 | phase 1 visits every track before the first one the abort is seen at, and stops there |
| Scanner.AudioVisited | src/lib/scanner.ts:197-198 | the number of results phase 2 visits is the abort index, or all of them |
| Scanner.BlocklistResult | src/lib/scanner.ts:144-155 | a matched track is High/Blocklist with the matched artists; an unmatched one is Unknown/AudioAnalysis; no score, not selected, no source |
| Scanner.BlocklistResults | src/lib/scanner.ts:141-157 | k results, the i-th being the i-th track's blocklist result |
| Scanner.BlocklistPhase | src/lib/scanner.ts:139-167 | the loop returns the visited tracks' blocklist results, progress counting them and their matches, and the events: a start report, one result per match, an end report |
| Scanner.AudioResults | src/lib/scanner.ts:197-250 | the first k results carry their analysis outcome and the rest are untouched, with the length kept |
| Scanner.TrackLabel | src/lib/scanner.ts:200 | the "artist – title" label is never empty |
| Scanner.AudioStep | src/lib/scanner.ts:197-258 | one audio iteration extends results, progress and events exactly by that track's outcome |
| Scanner.VisitAudioTrack | src/lib/scanner.ts:199-258 | the loop body yields the applied result, the progress with processed + 1, flagged + 1 when flagged, the label, and that track's events |
| Scanner.AudioPhase | src/lib/scanner.ts:177-259 | the loop's results, progress and events equal the phase-2 specification up to the abort point |
| Scanner.ScanTracks | src/lib/scanner.ts:115-272 | the scan's results and callback events are those of the scan specification, whose properties are the lemmas below |
| Scanner.ScanResultsInvariant | src/lib/scanner.ts:141-250 | one result per visited track, in order, each consistent, unselected, with the blocklist's verdict, High when matched, and source none exactly without a score |
| Scanner.Phase1OnePerTrack | src/lib/scanner.ts:141-164 | unaborted, phase 1 gives one unscored, unselected result per track, in order, High when matched and Unknown otherwise |
| Scanner.MatchedEventsExact | src/lib/scanner.ts:157-163 | phase 1 reports as many results as matches, each a matched result, and every matched result is reported |
| Scanner.AudioTrackEventKinds | src/lib/scanner.ts:200-258 | one audio track reports two progress events, one result unless it threw, and a delay only when another track follows |
| Scanner.AudioEventKinds | src/lib/scanner.ts:197-258 | over k audio tracks there are 2k progress events, at most k results, no release, and k delays, or k − 1 when the last track is reached |
| Scanner.ScanEventKinds | src/lib/scanner.ts:139-265 | a scan's delays and releases are those of its audio phase, plus one release when a capture device is active; none without audio analysis |
| Scanner.CaptureReleasedOnce | src/lib/scanner.ts:261-265 | the capture device is released exactly once when audio analysis ran with it active, and never otherwise |
| Scanner.DelaysBetweenAudioTracks | src/lib/scanner.ts:255-258 | with v audio tracks visited, the scan sleeps v − 1 times when it reached the last track and v times when aborted; never without audio analysis |
| Scanner.AudioFlaggedBounded | src/lib/scanner.ts:236-238 | the audio phase flags at most the tracks it visited, one increment per flagging track |
| Scanner.FinalProgressShape | src/lib/scanner.ts:166-175 | the last event reports the final progress: complete, no current track, processed at most total; without audio it counts phase 1 and its matches; with audio, the visited audio tracks, flagged between the matches and matches + processed |
| Scanner.NoAudioReturnsPhase1 | src/lib/scanner.ts:171-175 | with audio analysis off, the scan returns phase 1's results and never sleeps |
| Scanner.CountDisjoint | src/lib/scanner.ts:277-292 | two criteria no result meets together count at most the results |
| Scanner.CountImplied | src/lib/scanner.ts:277-292 | a criterion implied by another never counts fewer results |
| Scanner.LevelsPartition | src/lib/scanner.ts:279-283 | High + Medium + Low + Unknown counts sum to the number of results |
| Scanner.SourcesBounded | src/lib/scanner.ts:284-292 | Deezer, capture and no-preview counts together are at most the results |
| Scanner.GetScanStats | src/lib/scanner.ts:277-306 | the level counts sum to the total; flagged is total − low − unknown; matches + no-preview and the source counts are each at most the total |
| Scanner.StatsOfConsistent | src/lib/scanner.ts:279-283 | for consistent results, every blocklist match is counted as high risk |
| Scanner.ScanStatsOfScan | src/lib/scanner.ts:277-306 | a scan's statistics total the visited tracks, with blocklist matches at most the high count |
| Scanner.BlocklistOnlyScan | src/lib/scanner.ts:137-175 | a worked scan of three tracks, one blocklisted, with audio off: its results, statistics, events and final progress |
| ScannerHook.FindIndex | src/hooks/use-scanner.ts:83-85 | the first index with the id, or −1 exactly when no result has it |
| ScannerHook.UpsertPlacement | src/hooks/use-scanner.ts:80-93 | an existing id is replaced in place and the rest kept; a new id is appended |
| ScannerHook.UpsertKeepsUniqueIds | src/hooks/use-scanner.ts:80-93 | upserting keeps track ids unique |
| ScannerHook.ToggleFlipsOnlyMatching | src/hooks/use-scanner.ts:141-153 | only results with the id change, and only their `selected` flag flips |
| ScannerHook.ToggleInvolution | src/hooks/use-scanner.ts:141-153 | toggling twice restores the results |
| ScannerHook.SelectAllFlaggedEffect | src/hooks/use-scanner.ts:156-170 | exactly the High and Medium results become selected; nothing else changes |
| ScannerHook.SelectAllFlaggedIdempotent | src/hooks/use-scanner.ts:156-170 | selecting the flagged twice equals once |
| ScannerHook.DeselectAllEffect | src/hooks/use-scanner.ts:172-180 | nothing stays selected, only the flags change, and repeating it changes nothing |
| ScannerHook.NoneSelectedCount | src/hooks/use-scanner.ts:212-214 | with nothing selected the count is 0, there are no URIs, and nothing is removed |
| ScannerHook.SelectionPartition | src/hooks/use-scanner.ts:182-214 | URIs and selected count agree; kept + selected = all; kept are exactly the unselected; URIs are exactly the selected ones' |
| ScannerHook.UnselectedInOrder | src/hooks/use-scanner.ts:195-197 | the kept results are the unselected ones at strictly increasing indexes, in their original order |
| ScannerHook.ResolveOptions | src/hooks/use-scanner.ts:27-31 | audio and Deezer fallback default to on, playback capture to off; the token passes through |
| ScannerHook.LoadingState | src/hooks/use-scanner.ts:39-51 | a new scan starts loading, with empty results, no error and progress 0 of the playlist's total |
| ScannerHook.ScanHook.constructor | src/hooks/use-scanner.ts:22-23 | no scan state, no controllers, no deletions |
| ScannerHook.ScanHook.StartScan | src/hooks/use-scanner.ts:25-51 | without a client nothing changes; otherwise the previous controller is aborted, a new live one installed, and the loading state set |
| ScannerHook.ScanHook.OnTracksLoaded | src/hooks/use-scanner.ts:58-71 | a live scan moves to scanning with the loaded total; a superseded one changes nothing |
| ScannerHook.ScanHook.OnProgress | src/hooks/use-scanner.ts:75-79 | the progress is replaced and the rest kept |
| ScannerHook.ScanHook.OnTrackResult | src/hooks/use-scanner.ts:80-93 | the result is upserted into the state's results |
| ScannerHook.ScanHook.OnScanFinished | src/hooks/use-scanner.ts:103-113 | a live scan's state becomes complete with the returned results, the rest kept; a superseded one changes nothing |
| ScannerHook.ScanHook.OnScanFailed | src/hooks/use-scanner.ts:114-128 | a live scan moves to Error with the message or the default; a superseded one changes nothing |
| ScannerHook.ScanHook.CancelScan | src/hooks/use-scanner.ts:134-139 | the current controller is aborted, no controller stays live, and the state is marked complete with its results kept |
| ScannerHook.ScanHook.ToggleSelection | src/hooks/use-scanner.ts:141-153 | the state's results are toggled for the id |
| ScannerHook.ScanHook.SelectFlagged | src/hooks/use-scanner.ts:156-170 | the state's High and Medium results are selected |
| ScannerHook.ScanHook.Deselect | src/hooks/use-scanner.ts:172-180 | the state's results are all deselected |
| ScannerHook.ScanHook.SelectedTotal | src/hooks/use-scanner.ts:212-214 | the selected count, at most the number of results, and 0 without a state |
| ScannerHook.ScanHook.RemoveSelected | src/hooks/use-scanner.ts:182-210 | with nothing to remove no call is made; otherwise one deletion of the selected URIs is logged, and success drops them from the results |
| ScannerHook.RemovalLeavesUnselected | src/hooks/use-scanner.ts:195-197 | after removal nothing is selected and every unselected result remains |
| ScannerHook.DeliverEvents | src/hooks/use-scanner.ts:73-93 | feeding the scanner's callbacks to the hook keeps the scan live, scanning and error-free, and leaves the last reported progress in the state |
| ScannerHook.RunScan | src/hooks/use-scanner.ts:25-128 | a load failure ends in Error with the message and no results; otherwise the scan completes with exactly the scanner's results and final progress |
| SpotifyApi.EstimateWait | src/lib/spotify.ts:79-84 | minutes = ⌈s/60⌉ below 60, else hours = ⌈minutes/60⌉ |
| SpotifyApi.HoursRoundUp | src/lib/spotify.ts:80-82 | rounding up to minutes, then to hours, is ⌈s/3600⌉ |
| SpotifyApi.WaitExamples | src/lib/spotify.ts:80-82 | the boundary messages for 31, 3540, 3541 and 86400 seconds |
| SpotifyApi.RetryAfterSeconds | src/lib/spotify.ts:76 | the header's seconds, or 5 when it is absent |
| SpotifyApi.PlainOutcome | src/lib/spotify.ts:98-105 | 204 is no content, other 2xx is JSON, anything else fails with the status |
| SpotifyApi.Refresh | src/lib/spotify.ts:108-119 | one refresh call; the token changes and is announced exactly when it succeeds |
| SpotifyApi.FetchRunExtends | src/lib/spotify.ts:33-106 | a fetch sends at least one request and only appends to the request, sleep and announcement logs |
| SpotifyApi.FetchRunBounded | src/lib/spotify.ts:86-95 | from retry c, at most 3 − c sleeps, 5 − c requests and one refresh |
| SpotifyApi.LongRetryAfterFailsFast | src/lib/spotify.ts:79-84 | a 429 asking for more than 30 s fails at once with the wait estimate, after one request |
| SpotifyApi.MissingRetryAfterWaitsFive | src/lib/spotify.ts:76-95 | a 429 without Retry-After sleeps 5 s and retries |
| SpotifyApi.RetriesExhausted | src/lib/spotify.ts:86-89 | a 429 at retry 3 fails "too many retries" without sleeping |
| SpotifyApi.PersistentRateLimit | src/lib/spotify.ts:75-96 | a server that always rate-limits briefly gets exactly 4 − c requests and 3 − c sleeps, then the failure |
| SpotifyApi.UnauthorizedRefreshesOnce | src/lib/spotify.ts:51-73 | a 401 refreshes once; a failed refresh means the session expired; otherwise one retry with the new token decides the outcome |
| SpotifyApi.TokenChangesOnlyOnRefresh | src/lib/spotify.ts:51-73 | the token changes only to the last token announced, and at most one is announced per fetch |
| SpotifyApi.OtherStatusDecides | src/lib/spotify.ts:98-105 | any other status decides the outcome after one request |
| SpotifyApi.SpotifyClient.constructor | src/lib/spotify.ts:18-24 | the token is set and all logs are empty |
| SpotifyApi.SpotifyClient.UpdateToken | src/lib/spotify.ts:26-28 | only the token changes |
| SpotifyApi.SpotifyClient.SendRequest | src/lib/spotify.ts:42-49 | one request carrying the current token, answered by the next reply |
| SpotifyApi.SpotifyClient.RefreshToken | src/lib/spotify.ts:108-119 | the state moves as the refresh specification says |
| SpotifyApi.SpotifyClient.Fetch | src/lib/spotify.ts:33-106 | the outcome and new state are those of the fetch specification |
| SpotifyApi.KeptAppend | src/lib/spotify.ts:144 | filtering nulls distributes over concatenation |
| SpotifyApi.KeptAllPresent | src/lib/spotify.ts:144 | with no nulls, filtering keeps everything |
| SpotifyApi.PaginateIndependent | src/lib/spotify.ts:141-149 | the result does not depend on which stopping page bounds the loop |
| SpotifyApi.PaginateIsPagePrefix | src/lib/spotify.ts:141-149 | what is collected is the non-null items of a prefix of pages, in page order |
| SpotifyApi.PagesReadBounded | src/lib/spotify.ts:141-149 | the loop stops at the latest at the first page that ends the listing |
| SpotifyApi.PaginateReadsPages | src/lib/spotify.ts:141-149 | a completed listing holds exactly the non-null items of the pages read, in page order |
| SpotifyApi.KeptPageOf | src/lib/spotify.ts:175-179 | a served page holds the next `limit` items, or the rest |
| SpotifyApi.PaginateServesAll | src/lib/spotify.ts:173-182 | from any page boundary, a well-behaved server's listing is completed |
| SpotifyApi.WellBehavedServerListsAll | src/lib/spotify.ts:173-182 | a well-behaved server's stopping page exists and the whole listing is returned in order |
| SpotifyApi.ServedPageStep | src/lib/spotify.ts:180-181 | one served page either completes the listing or advances the offset by the limit |
| SpotifyApi.PaginateUnfold | src/lib/spotify.ts:143-148 | one loop step appends the page's non-null items, then stops or moves on |
| SpotifyApi.CollectAllPages | src/lib/spotify.ts:136-185 | the loop returns the pagination specification |
| SpotifyApi.GetAllPlaylistTracks | src/lib/spotify.ts:166-185 | 100 per page; a page without items fails; success is a prefix of pages |
| SpotifyApi.GetAllUserPlaylists | src/lib/spotify.ts:136-152 | 50 per page; only a failed request fails; success is a prefix of pages |
| SpotifyApi.NonStrictOnlyFetchFails | src/lib/spotify.ts:143-147 | the playlist loop never fails for missing items |
| SpotifyApi.Batches | src/lib/spotify.ts:194-197 | the batches concatenate to the input, number ⌈n/size⌉, are non-empty, at most size long, and full except the last |
| SpotifyApi.DivUnique | src/lib/spotify.ts:195 | the quotient is unique given its bracket |
| SpotifyApi.CeilDivOfBatches | src/lib/spotify.ts:195 | a count whose batches just cover n is ⌈n/size⌉ |
| SpotifyApi.DeleteRun | src/lib/spotify.ts:199-206 | no more calls than batches, and without a failure every batch is sent |
| SpotifyApi.DeleteRunPrefix | src/lib/spotify.ts:199-206 | the sent batches are a prefix; it fails iff some call fails, and the failure is the last call, the first one that failed |
| SpotifyApi.SendBatches | src/lib/spotify.ts:199-206 | the loop sends as the delete specification says |
| SpotifyApi.RemoveInBatches | src/lib/spotify.ts:189-230 | the sends follow a correct batching; every call before the last batch carries `size` items, so each call is the next slice of the input; without failure all items are sent in ⌈n/size⌉ calls; an empty input sends nothing |
| SpotifyApi.RemoveTracksFromPlaylist | src/lib/spotify.ts:189-207 | batches of at most 100 URIs, exactly 100 before the last batch; the sent URIs are a prefix of the input; it fails iff one of the ⌈n/100⌉ DELETEs fails, and then the last call sent is the first failing one; on success every URI is sent in ⌈n/100⌉ calls; none for an empty input |
| SpotifyApi.RemoveLikedSongs | src/lib/spotify.ts:218-230 | batches of at most 50 ids, exactly 50 before the last batch; the sent ids are a prefix of the input; it fails iff one of the ⌈n/50⌉ DELETEs fails, and then the last call sent is the first failing one; on success every id is sent in ⌈n/50⌉ calls; none for an empty input |
| SpotifyApi.DeleteRunSendsPrefix | src/lib/spotify.ts:199-206 | the DELETE calls sent are the first batches, in order, so the items sent are a prefix of the input |
| SpotifyApi.DeleteRunFailure | src/lib/spotify.ts:199-206 | the run fails iff some batch's DELETE fails, and then the last call sent is the first failing one and every earlier call succeeded |
| SpotifyApi.FlattenPrefix | src/lib/spotify.ts:199-206 | the batches sent before a stop hold a prefix of the input |
| Inference.TargetLengthValue | goodbai-app/src/lib/inference.ts:9-11 | the target length is 220500 samples |
| Inference.MiddleChunk | goodbai-app/src/lib/inference.ts:21-34 | the chunk has exactly the target length |
| Inference.PaddedPlacement | goodbai-app/src/lib/inference.ts:25-29 | a short waveform appears at the offset with zeros on both sides |
| Inference.PaddingCentred | goodbai-app/src/lib/inference.ts:27 | the left pad is the right pad or one less |
| Inference.ExactLengthUnchanged | goodbai-app/src/lib/inference.ts:21-34 | a waveform of the target length is returned unchanged |
| Inference.CropCentred | goodbai-app/src/lib/inference.ts:32-33 | a long waveform yields its middle samples, with the crop centred to within one |
| Inference.SetAt | goodbai-app/src/lib/inference.ts:28 | `set` overwrites exactly the samples at the offset |
| Inference.ExtractMiddleChunk | goodbai-app/src/lib/inference.ts:21-34 | the buffer code computes the middle chunk |
| Inference.InferenceEngine.constructor | goodbai-app/src/lib/inference.ts:80-82 | there is no session, no promise and no creation |
| Inference.InferenceEngine.GetSession | goodbai-app/src/lib/inference.ts:87-111 | the session is created at most once and cached; a failed creation stays cached |
| Inference.InferenceEngine.Warmup | goodbai-app/src/lib/inference.ts:151-153 | afterwards the engine is ready exactly when creation succeeds |
| Inference.InferenceEngine.Predict | goodbai-app/src/lib/inference.ts:120-139 | without a session, no score; otherwise the middle chunk is run and its score returned |
| Inference.PredictAll | goodbai-app/src/lib/inference.ts:87-139 | any number of predictions create one session, and each score is the run of that input's middle chunk |
| Deezer.PreviewByIsrc | goodbai-app/src/lib/deezer.ts:31-55 | a preview exactly when the reply is ok, carries no error and has a truthy preview, which is returned |
| Deezer.PreviewBySearch | goodbai-app/src/lib/deezer.ts:61-83 | a preview exactly when the query's reply is ok with a non-empty list whose first hit has a truthy preview, which is returned |
| Deezer.FindDeezerPreview | goodbai-app/src/lib/deezer.ts:89-102 | an ISRC hit wins after one call; otherwise the search result, after the ISRC call when there is an ISRC; the preview is truthy whenever present |
| Deezer.LookupCallsBounded | goodbai-app/src/lib/deezer.ts:89-102 | one or two calls; only the last can be a search; the first is an ISRC call exactly when the ISRC is truthy |
| Deezer.IsrcHitIgnoresSearch | goodbai-app/src/lib/deezer.ts:95-97 | after an ISRC hit the search oracle does not matter |
| PreviewProxy.AllowedHostDomains | src/app/api/proxy/preview/route.ts:20-33 | every allowed host is a Spotify CDN host or a Deezer preview host under `.dzcdn.net` |
| PreviewProxy.BareDeezerDomainRefused | src/app/api/proxy/preview/route.ts:29-33 | the bare domain and a look-alike suffix are refused; real preview hosts pass |
| PreviewProxy.HandlePreview | src/app/api/proxy/preview/route.ts:8-76 | 400 for a missing, empty or unparseable URL; 403 for a host off the list; upstream is contacted exactly for an allowed host; then its status when not 2xx, except 502 for 304 or a status outside 200-599, where building the JSON answer throws inside the try; 502 when the fetch or the body fails, else 200 |
| PreviewProxy.AnswerStatusValid | src/app/api/proxy/preview/route.ts:8-76 | every answer's status lies in 200-599 and is one a JSON answer can carry |
| PreviewProxy.UpstreamErrorPassedThrough | src/app/api/proxy/preview/route.ts:52-75 | an upstream error status is passed through iff it is in 200-599 and not 304; any other becomes 502 |
| PreviewProxy.SuccessOnlyFromAllowedHost | src/app/api/proxy/preview/route.ts:35-68 | a 200 means an allowed host answered OK and its body was read |
| PlaybackCapture.TotalSamples | src/lib/playback-capture.ts:247 | ⌈duration · 44100 / 1000⌉ |
| PlaybackCapture.CaptureLength | src/lib/playback-capture.ts:14-15 | six seconds is 264600 samples, at least the classifier's five |
| PlaybackCapture.Fill | src/lib/playback-capture.ts:265-273 | the buffer has exactly the requested length |
| PlaybackCapture.FillStep | src/lib/playback-capture.ts:265-273 | writing the next chunk at the offset extends the filled buffer |
| PlaybackCapture.FillSaturated | src/lib/playback-capture.ts:269 | once the buffer is full, later chunks change nothing |
| PlaybackCapture.ConcatAppend | src/lib/playback-capture.ts:251-257 | concatenation distributes over appended chunks |
| PlaybackCapture.MergeChunks | src/lib/playback-capture.ts:265-273 | the merged buffer is the chunks' samples, truncated or zero-padded to the total |
| PlaybackCapture.CaptureAudioOutput | src/lib/playback-capture.ts:230-282 | a waveform exactly when enough samples arrived, namely their first `total`; otherwise none |
| PlaybackCapture.CapturedPrefix | src/lib/playback-capture.ts:251-257 | the frames collected so far give a prefix of the full sample stream |
| PlaybackCapture.CollectedShort | src/lib/playback-capture.ts:251-257 | none means no frames, or too few samples |
| PlaybackCapture.SpotifyPlaybackCapture.constructor | src/lib/playback-capture.ts:84-87 | no player, no device, no initialisation, empty logs |
| PlaybackCapture.SpotifyPlaybackCapture.UpdateToken | src/lib/playback-capture.ts:88-90 | only the token changes |
| PlaybackCapture.SpotifyPlaybackCapture.Initialize | src/lib/playback-capture.ts:96-142 | a cached initialisation is reused, a pending one included; SDK failure rejects without a player; otherwise one player is created, and the promise resolves iff the ready event arrives and stays pending iff no event is ever raised |
| PlaybackCapture.SpotifyPlaybackCapture.OnNotReady | src/lib/playback-capture.ts:117-119 | the device is forgotten and the instance is not ready |
| PlaybackCapture.SpotifyPlaybackCapture.OnReady | src/lib/playback-capture.ts:111-115 | the device is recorded; ready iff a player exists; a pending initialisation is resolved, and a settled one is left as it was |
| PlaybackCapture.SpotifyPlaybackCapture.Destroy | src/lib/playback-capture.ts:215-222 | a player is disconnected and everything cleared; without one nothing changes; never ready afterwards |
| PlaybackCapture.SpotifyPlaybackCapture.CaptureTrackAudio | src/lib/playback-capture.ts:152-196 | without a player or with a null or empty device id it throws and sends nothing; otherwise one play request on the device; a thrown request gives null after one pause; a non-2xx status gives null with no pause; after a 2xx start, refused media gives null after one pause, too few samples never settles, and otherwise the result is the first six seconds of the captured stream, after one pause |
| PlaybackCapture.CaptureRegistry.constructor | src/lib/playback-capture.ts:288-289 | no instance |
| PlaybackCapture.CaptureRegistry.Get | src/lib/playback-capture.ts:288-298 | the existing instance is reused with only the new token, its player, device, initialisation and logs unchanged; otherwise a fresh one over the given SDK, connect, play and audio oracles, with no player, no device, no initialisation and empty logs |
| PlaybackCapture.CaptureRegistry.DestroyInstance | src/lib/playback-capture.ts:300-303 | the instance is destroyed as `destroy` does (with a player: one disconnect and the player, device and initialisation cleared; without one: unchanged; token and other logs kept) and dropped |
| ResultsTable.RiskOrder | src/components/results-table.tsx:39-44 | ranks are at most 3 |
| ResultsTable.RiskOrderRanks | src/components/results-table.tsx:39-44 | ranks are distinct, High < Medium < Low < Unknown |
| ResultsTable.ToggleSortTransitions | src/components/results-table.tsx:85-92 | the column becomes the one clicked; the same column flips direction, so two clicks restore it; a new column starts ascending |
| ResultsTable.FilterMembership | src/components/results-table.tsx:104-107 | "all" shows everything; exactly the passing results are shown; a level tab shows as many as that level counts |
| ResultsTable.FilterInOrder | src/components/results-table.tsx:104-107 | the shown results keep their original order |
| ResultsTable.TabCountsPartition | src/components/results-table.tsx:157-159 | each tab's count is its level's count, and the four sum to "all" |
| ResultsTable.BadgesExplainRisk | src/components/results-table.tsx:285-295 | a badge shows exactly for High and Medium; Medium shows only the audio badge |
| ResultsTable.CompareIsKeyOrder | src/components/results-table.tsx:109-128 | the comparator orders by a key, for every column and direction |
| ResultsTable.InsertPermutation | src/components/results-table.tsx:109 | insertion adds exactly the element |
| ResultsTable.InsertBounded | src/components/results-table.tsx:109 | insertion keeps a lower bound on keys |
| ResultsTable.InsertSorted | src/components/results-table.tsx:109 | insertion keeps the list sorted |
| ResultsTable.SortCorrect | src/components/results-table.tsx:109-128 | the sort is sorted by the comparator and a permutation |
| ResultsTable.FilteredAndSortedCorrect | src/components/results-table.tsx:103-129 | the shown rows are a permutation of the filtered rows, as many as the tab count, ordered by the comparator |
| ResultsTable.RiskSortOrder | src/components/results-table.tsx:114 | in the risk column the rows follow the risk ranks in the chosen direction |
| ResultsTable.ScoreSortOrder | src/components/results-table.tsx:116 | in the score column the rows follow the score, with no score as −1, in the chosen direction |
| ScanProgressView.Percentage | src/components/scan-progress.tsx:14-17 | 0 with no tracks; otherwise the nearest integer to 100·processed/total, halves up |
| ScanProgressView.PercentageBounds | src/components/scan-progress.tsx:14-17 | within 0..100; 100 exactly when the ratio is at least 99.5%; 0 at the start |
| ScanProgressView.PercentageMonotone | src/components/scan-progress.tsx:14-17 | the bar never shrinks as tracks are processed |
| ScanProgressView.PhaseLabelsDistinct | src/components/scan-progress.tsx:19-24 | each phase has its own label |
| ScanProgressView.CompletedViewIsStill | src/components/scan-progress.tsx:33-48 | spinner and Abort show together, exactly while the label is not "terminated"; the final record hides both and the target line |
| ScanProgressView.UninterruptedScanEndsFull | src/components/scan-progress.tsx:14-24 | an unaborted scan of some tracks ends at 100% with the terminated label |

## Left out

- The statuses for which `NextResponse.json` throws are those the `Response` constructor of the Fetch standard refuses (a RangeError outside 200-599, a TypeError for a null-body status given a body); Next.js's own code is not part of this model.
- The blocklist contents, Deezer's and Spotify's HTTP replies, waveform fetching and decoding (`AudioContext`), the ONNX runtime, the Web Playback SDK and `getDisplayMedia` are oracles. Their behaviour beyond the reply they give is not modelled.
- `new URL(...)` parsing is an oracle returning a host name or "unparseable". `String.prototype.localeCompare` is an oracle collation key.
- Time: the sleeps are values in logs, not delays. The capture's settle and record waits are not logged. Console warnings and errors are not modelled.
- Rendering: JSX layout, CSS, icons and the `stats` memo's recomputation are not modelled. Only what each component computes is.
- SpotifyApi.GetAllPlaylistTracks: paging is not composed with `SpotifyClient.Fetch`. Each page request is a per-offset outcome oracle.
- SpotifyApi.CollectAllPages: termination is proved from a ghost page that the caller supplies and that is short, failed or without `items`. This excludes a server whose pages are all full and whose listing ends only through `length >= page.total`, as well as one whose pages never stop. For a well-behaved server such a page is proved to exist (`WellBehavedServerListsAll`).
- SpotifyApi.RemoveInBatches: each DELETE's fetch is a per-call outcome oracle, not `Fetch` itself.
- SpotifyApi.RetryAfterSeconds: `parseInt` of a malformed header (NaN) is not modelled. The header is either absent or a natural number.
- A body that `res.json()` fails to parse is not modelled. A successful reply carries its parsed value.
- Inference.InferenceEngine: the module-level singleton (`goodbai-app/src/lib/inference.ts:156-164`) is not modelled. Concurrent `getSession` calls sharing one pending promise are collapsed into sequential calls.
- Scan results are values. JavaScript's aliasing between a result object already handed to `onTrackResult` and its later in-place update in phase 2 is not modelled. The model emits a snapshot.
- ResultsTable.SortCorrect: the copy-then-sort on a fresh array is a stable insertion sort on a sequence. Stability itself is not stated as a lemma.
- Floating point: samples and scores are reals. `Math.ceil(ms * 44100 / 1000)` is computed exactly, which for the 6000 ms capture gives the same 264600 as the code.
- ScanProgressView.Percentage: the model rounds the exact ratio 100·processed/total. The code rounds the double `(processed / total) * 100`, which at some exact halves lies just below the half, so the code can show one less. For 23 of 40 tracks the code shows 57 and the model 58; 29 of 200 gives 14 against 15.
- Scanner.ScanTracks: every awaited call is assumed to settle. `Env` has no outcome for a `playbackCapture.initialize()` (src/lib/scanner.ts:190) or a `captureTrackAudio` (:219) that never settles. In the code either one hangs the scan: no later track, no capture release and no final report. The capture class itself does model both pending outcomes (`InitPending`, `NeverSettles`).
- PlaybackCapture.SpotifyPlaybackCapture.CaptureTrackAudio: a capture promise that never settles is the outcome `NeverSettles`, not a hang.
- PlaybackCapture.SpotifyPlaybackCapture.Initialize: a promise that never settles is the outcome `InitPending`, not a hang. It is cached like the others, so later calls return it too.
- The hook's `onProgress` and `onTrackResult` callbacks do not check whether their controller was aborted. The model follows the code here.
- Authentication routes, the dashboard and landing pages, the playlist selector and the navbar are not part of this model.
