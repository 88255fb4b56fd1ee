/** The scanner's shared data model: tracks, scan results, progress and the
    scan state the hook keeps (goodbai-app/src/lib/types.ts). */
module Types {

  datatype Option<+T> = None | Some(value: T)

  /** An audio sample. Samples are only copied and zero-filled, never computed with. */
  type Sample = real

  /** An AI probability as the classifier reports it. */
  type Score = r: real | 0.0 <= r <= 1.0

  /** The fields of a playlist track the scan reads. */
  datatype Track = Track(
    id: string,
    name: string,
    artists: seq<string>,        // artist names, in the order the API lists them
    previewUrl: Option<string>,  // null preview_url is None
    isrc: Option<string>,        // external_ids.isrc, absent or present
    uri: string)

  datatype DetectionMethod = Blocklist | AudioAnalysis | Both

  datatype RiskLevel = High | Medium | Low | Unknown

  datatype AudioSource = SpotifyPreview | DeezerPreview | PlaybackCapture | NoSource

  datatype ScanResult = ScanResult(
    track: Track,
    audioScore: Option<Score>,
    blocklistMatch: bool,
    matchedArtists: seq<string>,
    detectionMethod: DetectionMethod,
    riskLevel: RiskLevel,
    selected: bool,
    audioSource: AudioSource)

  datatype Phase = PhaseBlocklist | PhaseAudio | PhaseComplete

  datatype ScanProgress = ScanProgress(
    phase: Phase,
    totalTracks: nat,
    processedTracks: nat,
    flaggedCount: nat,
    currentTrack: Option<string>)

  datatype Status = Idle | LoadingTracks | Scanning | Complete | Error

  /** The playlist fields the scan state keeps. */
  datatype Playlist = Playlist(id: string, name: string, total: nat)

  datatype PlaylistScanState = PlaylistScanState(
    playlist: Playlist,
    status: Status,
    progress: ScanProgress,
    results: seq<ScanResult>,
    error: Option<string>)

  /** No two results share a track id. */
  predicate UniqueIds(s: seq<ScanResult>)
  {
    forall i, j :: 0 <= i < j < |s| ==> s[i].track.id != s[j].track.id
  }
}
