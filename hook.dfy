/** The scanner hook (src/hooks/use-scanner.ts): the pure updaters it applies to the
    result list, and the scan-state lifecycle it drives with one abort controller per scan.

    The hook's awaits split `startScan` into steps; each step is a method of `ScanHook`
    that names the controller of the scan it belongs to. */
module ScannerHook {
  import opened Types
  import Scanner

  // ─── Result-list updaters ──────────────────────────────────────

  /** `results.findIndex(r => r.track.id === id)`: the first index with that id, or -1. */
  function FindIndex(rs: seq<ScanResult>, id: string): (r: int)
    ensures -1 <= r < |rs|
    ensures r >= 0 ==> rs[r].track.id == id && forall k :: 0 <= k < r ==> rs[k].track.id != id
    ensures r == -1 <==> forall k :: 0 <= k < |rs| ==> rs[k].track.id != id
  {
    if rs == [] then -1
    else if rs[0].track.id == id then 0
    else var rest := FindIndex(rs[1..], id);
      if rest == -1 then -1 else rest + 1
  }

  /** The `onTrackResult` updater: replace the result with the same track id in place, or
      append. */
  function Upsert(rs: seq<ScanResult>, result: ScanResult): seq<ScanResult>
  {
    var existing := FindIndex(rs, result.track.id);
    if existing >= 0 then seq(|rs|, i requires 0 <= i < |rs| => if i == existing then result else rs[i])
    else rs + [result]
  }

  /** An existing id is replaced at its first index and nothing else moves; a new id is
      appended. */
  lemma UpsertPlacement(rs: seq<ScanResult>, result: ScanResult)
    ensures var r := Upsert(rs, result);
      && ((exists k :: 0 <= k < |rs| && rs[k].track.id == result.track.id) ==>
            && |r| == |rs|
            && r[FindIndex(rs, result.track.id)] == result
            && forall k :: 0 <= k < |rs| && k != FindIndex(rs, result.track.id) ==> r[k] == rs[k])
      && ((forall k :: 0 <= k < |rs| ==> rs[k].track.id != result.track.id) ==> r == rs + [result])
  {
  }

  /** Upserting keeps track ids unique, and the upserted result is the one entry with its id. */
  lemma UpsertKeepsUniqueIds(rs: seq<ScanResult>, result: ScanResult)
    requires UniqueIds(rs)
    ensures var r := Upsert(rs, result);
      && UniqueIds(r)
      && result in r
      && forall k :: 0 <= k < |r| && r[k].track.id == result.track.id ==> r[k] == result
  {
    var r := Upsert(rs, result);
    var existing := FindIndex(rs, result.track.id);
    if existing >= 0 {
      assert r[existing] == result;
      forall i, j | 0 <= i < j < |r| ensures r[i].track.id != r[j].track.id {
        assert rs[i].track.id != rs[j].track.id;
      }
    } else {
      assert r[|rs|] == result;
    }
  }

  /** `toggleTrackSelection(trackId)` */
  function ToggleTrackSelection(rs: seq<ScanResult>, id: string): seq<ScanResult>
  {
    seq(|rs|, i requires 0 <= i < |rs| =>
      if rs[i].track.id == id then rs[i].(selected := !rs[i].selected) else rs[i])
  }

  /** Only `selected` changes, and only on the results with that id, where it flips. */
  lemma ToggleFlipsOnlyMatching(rs: seq<ScanResult>, id: string)
    ensures var r := ToggleTrackSelection(rs, id);
      && |r| == |rs|
      && (forall k :: 0 <= k < |rs| ==> r[k].(selected := rs[k].selected) == rs[k])
      && (forall k :: 0 <= k < |rs| ==> (r[k].selected != rs[k].selected <==> rs[k].track.id == id))
  {
  }

  lemma ToggleInvolution(rs: seq<ScanResult>, id: string)
    ensures ToggleTrackSelection(ToggleTrackSelection(rs, id), id) == rs
  {
    var once := ToggleTrackSelection(rs, id);
    var twice := ToggleTrackSelection(once, id);
    forall k | 0 <= k < |rs| ensures twice[k] == rs[k] {
      assert once[k].track.id == rs[k].track.id;
    }
  }

  function IsFlagged(r: ScanResult): bool
  {
    r.riskLevel == High || r.riskLevel == Medium
  }

  /** `selectAllFlagged` */
  function SelectAllFlagged(rs: seq<ScanResult>): seq<ScanResult>
  {
    seq(|rs|, i requires 0 <= i < |rs| => rs[i].(selected := if IsFlagged(rs[i]) then true else rs[i].selected))
  }

  /** High and medium results become selected; every other field, and the selection of the
      rest, are kept. */
  lemma SelectAllFlaggedEffect(rs: seq<ScanResult>)
    ensures var r := SelectAllFlagged(rs);
      && |r| == |rs|
      && (forall k :: 0 <= k < |rs| ==> r[k].(selected := rs[k].selected) == rs[k])
      && (forall k :: 0 <= k < |rs| ==> (r[k].selected <==> IsFlagged(rs[k]) || rs[k].selected))
  {
  }

  lemma SelectAllFlaggedIdempotent(rs: seq<ScanResult>)
    ensures SelectAllFlagged(SelectAllFlagged(rs)) == SelectAllFlagged(rs)
  {
  }

  /** `deselectAll` */
  function DeselectAll(rs: seq<ScanResult>): seq<ScanResult>
  {
    seq(|rs|, i requires 0 <= i < |rs| => rs[i].(selected := false))
  }

  lemma DeselectAllEffect(rs: seq<ScanResult>)
    ensures var r := DeselectAll(rs);
      && |r| == |rs|
      && (forall k :: 0 <= k < |rs| ==> r[k].(selected := rs[k].selected) == rs[k] && !r[k].selected)
      && DeselectAll(r) == r
      && SelectedCount(r) == 0
  {
    NoneSelectedCount(DeselectAll(rs));
  }

  /** `results.filter(r => r.selected).length` */
  function SelectedCount(rs: seq<ScanResult>): nat
  {
    if rs == [] then 0 else SelectedCount(rs[..|rs| - 1]) + (if rs[|rs| - 1].selected then 1 else 0)
  }

  /** The track URIs of the selected results, in order. */
  function SelectedUris(rs: seq<ScanResult>): seq<string>
  {
    if rs == [] then [] else SelectedUris(rs[..|rs| - 1]) + (if rs[|rs| - 1].selected then [rs[|rs| - 1].track.uri] else [])
  }

  /** `results.filter(r => !r.selected)` */
  function Unselected(rs: seq<ScanResult>): seq<ScanResult>
  {
    if rs == [] then [] else Unselected(rs[..|rs| - 1]) + (if rs[|rs| - 1].selected then [] else [rs[|rs| - 1]])
  }

  lemma {:induction false} NoneSelectedCount(rs: seq<ScanResult>)
    requires forall k :: 0 <= k < |rs| ==> !rs[k].selected
    ensures SelectedCount(rs) == 0 && SelectedUris(rs) == [] && Unselected(rs) == rs
  {
    if rs != [] {
      NoneSelectedCount(rs[..|rs| - 1]);
    }
  }

  /** The selection splits the list: one URI per selected result, and the unselected
      results are exactly the rest of the list. */
  lemma {:induction false} SelectionPartition(rs: seq<ScanResult>)
    ensures |SelectedUris(rs)| == SelectedCount(rs)
    ensures |Unselected(rs)| + SelectedCount(rs) == |rs|
    ensures forall x :: x in Unselected(rs) <==> x in rs && !x.selected
    ensures forall u :: u in SelectedUris(rs) <==> exists k :: 0 <= k < |rs| && rs[k].selected && rs[k].track.uri == u
  {
    if rs != [] {
      var init := rs[..|rs| - 1];
      var last := rs[|rs| - 1];
      SelectionPartition(init);
      assert rs == init + [last];
      forall u | u in SelectedUris(rs)
        ensures exists k :: 0 <= k < |rs| && rs[k].selected && rs[k].track.uri == u
      {
        if u in SelectedUris(init) {
          var k :| 0 <= k < |init| && init[k].selected && init[k].track.uri == u;
          assert rs[k] == init[k];
        } else {
          assert rs[|rs| - 1].selected && rs[|rs| - 1].track.uri == u;
        }
      }
      forall u | exists k :: 0 <= k < |rs| && rs[k].selected && rs[k].track.uri == u
        ensures u in SelectedUris(rs)
      {
        var k :| 0 <= k < |rs| && rs[k].selected && rs[k].track.uri == u;
        if k < |init| {
          assert init[k] == rs[k];
        }
      }
    }
  }

  /** The indexes of the unselected results, in increasing order. */
  function UnselectedIndexes(rs: seq<ScanResult>): seq<nat>
  {
    if rs == [] then [] else UnselectedIndexes(rs[..|rs| - 1]) + (if rs[|rs| - 1].selected then [] else [|rs| - 1])
  }

  /** Unselected results keep their relative order: the filter picks them by increasing
      indexes. */
  lemma {:induction false} UnselectedInOrder(rs: seq<ScanResult>)
    ensures var pick := UnselectedIndexes(rs);
      && |pick| == |Unselected(rs)|
      && (forall i :: 0 <= i < |pick| ==> pick[i] < |rs| && rs[pick[i]] == Unselected(rs)[i])
      && (forall i, j :: 0 <= i < j < |pick| ==> pick[i] < pick[j])
  {
    if rs != [] {
      var init := rs[..|rs| - 1];
      UnselectedInOrder(init);
      var before := UnselectedIndexes(init);
      var pick := UnselectedIndexes(rs);
      forall i | 0 <= i < |before| ensures before[i] < |init| && rs[before[i]] == Unselected(init)[i] {
        assert rs[before[i]] == init[before[i]];
      }
      if !rs[|rs| - 1].selected {
        assert pick == before + [|rs| - 1];
        assert Unselected(rs) == Unselected(init) + [rs[|rs| - 1]];
        forall i | 0 <= i < |pick| ensures pick[i] < |rs| && rs[pick[i]] == Unselected(rs)[i] {
          if i < |before| {
            assert pick[i] == before[i];
          }
        }
      }
    }
  }

  // ─── Options ─────────────────────────────────────────────────────

  /** `ScannerOptions`: each flag may be left undefined. */
  datatype ScannerOptions = ScannerOptions(
    enableAudio: Option<bool>,
    enableDeezerFallback: Option<bool>,
    enablePlaybackCapture: Option<bool>)

  /** The destructuring defaults of `startScan`: audio and Deezer on, capture off. */
  function ResolveOptions(o: ScannerOptions, accessToken: Option<string>): (s: Scanner.ScanOptions)
    ensures s.enableAudioAnalysis <==> o.enableAudio != Some(false)
    ensures s.enableDeezerFallback <==> o.enableDeezerFallback != Some(false)
    ensures s.enablePlaybackCapture <==> o.enablePlaybackCapture == Some(true)
    ensures s.accessToken == accessToken
  {
    Scanner.ScanOptions(
      if o.enableAudio.Some? then o.enableAudio.value else true,
      if o.enableDeezerFallback.Some? then o.enableDeezerFallback.value else true,
      if o.enablePlaybackCapture.Some? then o.enablePlaybackCapture.value else false,
      accessToken)
  }

  // ─── The lifecycle ───────────────────────────────────────────────

  const UNEXPECTED_ERROR := "An unexpected error occurred"

  /** The state `startScan` installs before loading the tracks. */
  function LoadingState(playlist: Playlist): (s: PlaylistScanState)
    ensures s.status == LoadingTracks && s.results == [] && s.error.None?
    ensures s.progress == ScanProgress(PhaseBlocklist, playlist.total, 0, 0, None)
  {
    PlaylistScanState(playlist, LoadingTracks, ScanProgress(PhaseBlocklist, playlist.total, 0, 0, None), [], None)
  }

  /** No controller is ever un-aborted. */
  predicate AbortsKept(before: seq<bool>, after: seq<bool>)
  {
    |before| <= |after| && forall c :: 0 <= c < |before| ==> before[c] ==> after[c]
  }

  /** What `removeSelected` did. */
  datatype RemoveOutcome = NothingToRemove | Removed(count: nat) | RemoveThrew

  /** What loading the playlist's tracks gave. */
  datatype TrackLoad = TracksLoaded(tracks: seq<Track>) | LoadThrew(message: Option<string>)

  class ScanHook {
    var scanState: Option<PlaylistScanState>
    /** The abort controllers created so far, by creation order: whether each is aborted. */
    var aborted: seq<bool>
    /** `abortRef.current` */
    var current: Option<nat>
    /** The delete requests sent (`removeTracksFromPlaylist`), in order. */
    var deletes: seq<(string, seq<string>)>
    /** Whether `useAuth()` gave a client. */
    const hasClient: bool

    /** Every controller but the current one is aborted: at most one scan is live. */
    predicate Valid()
      reads this
    {
      && (current.Some? ==> current.value < |aborted|)
      && (forall c :: 0 <= c < |aborted| && current != Some(c) ==> aborted[c])
    }

    /** The scan that controller `c` belongs to may still write. */
    predicate Live(c: nat)
      reads this
    {
      c < |aborted| && !aborted[c]
    }

    constructor (hasClient: bool)
      ensures Valid() && scanState.None? && aborted == [] && current.None? && deletes == []
      ensures this.hasClient == hasClient
    {
      scanState := None;
      aborted := [];
      current := None;
      deletes := [];
      this.hasClient := hasClient;
    }

    /** `startScan`, up to the first await: abort the previous scan, install a new
        controller and the loading state. Without a client it does nothing. */
    method StartScan(playlist: Playlist) returns (c: Option<nat>)
      requires Valid()
      modifies this
      ensures Valid() && AbortsKept(old(aborted), aborted) && deletes == old(deletes)
      ensures !hasClient ==> c.None? && scanState == old(scanState) && aborted == old(aborted) && current == old(current)
      ensures hasClient ==>
        && c == Some(|old(aborted)|) && current == c
        && aborted == (if old(current).Some? then old(aborted)[old(current).value := true] else old(aborted)) + [false]
        && scanState == Some(LoadingState(playlist))
      ensures hasClient ==> forall d :: 0 <= d < |old(aborted)| ==> !Live(d)
    {
      if !hasClient {
        return None;
      }
      if current.Some? {
        aborted := aborted[current.value := true];
      }
      c := Some(|aborted|);
      aborted := aborted + [false];
      current := c;
      scanState := Some(LoadingState(playlist));
    }

    /** After `getAllPlaylistTracks` resolves with `count` tracks. */
    method OnTracksLoaded(c: nat, count: nat)
      requires Valid() && c < |aborted|
      modifies this
      ensures Valid() && aborted == old(aborted) && current == old(current) && deletes == old(deletes)
      ensures !old(Live(c)) ==> scanState == old(scanState)
      ensures old(Live(c)) ==>
        scanState == (if old(scanState).Some? then
                        var s := old(scanState).value;
                        Some(s.(status := Scanning, progress := s.progress.(totalTracks := count)))
                      else None)
    {
      if aborted[c] {
        return;
      }
      if scanState.Some? {
        var s := scanState.value;
        scanState := Some(s.(status := Scanning, progress := s.progress.(totalTracks := count)));
      }
    }

    /** The `onProgress` callback: it does not look at the controller. */
    method OnProgress(progress: ScanProgress)
      requires Valid()
      modifies this
      ensures Valid() && aborted == old(aborted) && current == old(current) && deletes == old(deletes)
      ensures scanState == (if old(scanState).Some? then Some(old(scanState).value.(progress := progress)) else None)
    {
      if scanState.Some? {
        scanState := Some(scanState.value.(progress := progress));
      }
    }

    /** The `onTrackResult` callback. */
    method OnTrackResult(result: ScanResult)
      requires Valid()
      modifies this
      ensures Valid() && aborted == old(aborted) && current == old(current) && deletes == old(deletes)
      ensures scanState ==
        (if old(scanState).Some? then Some(old(scanState).value.(results := Upsert(old(scanState).value.results, result)))
         else None)
    {
      if scanState.Some? {
        scanState := Some(scanState.value.(results := Upsert(scanState.value.results, result)));
      }
    }

    /** After `scanTracks` resolves: complete with its results, unless aborted. */
    method OnScanFinished(c: nat, results: seq<ScanResult>)
      requires Valid() && c < |aborted|
      modifies this
      ensures Valid() && aborted == old(aborted) && current == old(current) && deletes == old(deletes)
      ensures !old(Live(c)) ==> scanState == old(scanState)
      ensures old(Live(c)) ==>
        scanState == (if old(scanState).Some? then Some(old(scanState).value.(status := Complete, results := results)) else None)
    {
      if aborted[c] {
        return;
      }
      if scanState.Some? {
        scanState := Some(scanState.value.(status := Complete, results := results));
      }
    }

    /** The catch of `startScan`: an error with the thrown message, unless aborted. */
    method OnScanFailed(c: nat, message: Option<string>)
      requires Valid() && c < |aborted|
      modifies this
      ensures Valid() && aborted == old(aborted) && current == old(current) && deletes == old(deletes)
      ensures !old(Live(c)) ==> scanState == old(scanState)
      ensures old(Live(c)) && old(scanState).Some? ==>
        && scanState.Some?
        && scanState.value == old(scanState).value.(status := Error,
                                                   error := Some(if message.Some? then message.value else UNEXPECTED_ERROR))
      ensures old(scanState).None? ==> scanState.None?
    {
      if aborted[c] {
        return;
      }
      if scanState.Some? {
        var text := if message.Some? then message.value else UNEXPECTED_ERROR;
        scanState := Some(scanState.value.(status := Error, error := Some(text)));
      }
    }

    /** `cancelScan`: abort the current scan and mark the state complete, keeping the
        results found so far. */
    method CancelScan()
      requires Valid()
      modifies this
      ensures Valid() && AbortsKept(old(aborted), aborted) && current == old(current) && deletes == old(deletes)
      ensures forall d :: 0 <= d < |aborted| ==> !Live(d)
      ensures |aborted| == |old(aborted)|
      ensures scanState == (if old(scanState).Some? then Some(old(scanState).value.(status := Complete)) else None)
    {
      if current.Some? {
        aborted := aborted[current.value := true];
      }
      if scanState.Some? {
        scanState := Some(scanState.value.(status := Complete));
      }
    }

    /** Apply one of the pure updaters to the results. */
    method ToggleSelection(trackId: string)
      requires Valid()
      modifies this
      ensures Valid() && aborted == old(aborted) && current == old(current) && deletes == old(deletes)
      ensures scanState ==
        (if old(scanState).Some? then
           Some(old(scanState).value.(results := ToggleTrackSelection(old(scanState).value.results, trackId)))
         else None)
    {
      if scanState.Some? {
        scanState := Some(scanState.value.(results := ToggleTrackSelection(scanState.value.results, trackId)));
      }
    }

    method SelectFlagged()
      requires Valid()
      modifies this
      ensures Valid() && aborted == old(aborted) && current == old(current) && deletes == old(deletes)
      ensures scanState ==
        (if old(scanState).Some? then Some(old(scanState).value.(results := SelectAllFlagged(old(scanState).value.results)))
         else None)
    {
      if scanState.Some? {
        scanState := Some(scanState.value.(results := SelectAllFlagged(scanState.value.results)));
      }
    }

    method Deselect()
      requires Valid()
      modifies this
      ensures Valid() && aborted == old(aborted) && current == old(current) && deletes == old(deletes)
      ensures scanState ==
        (if old(scanState).Some? then Some(old(scanState).value.(results := DeselectAll(old(scanState).value.results)))
         else None)
    {
      if scanState.Some? {
        scanState := Some(scanState.value.(results := DeselectAll(scanState.value.results)));
      }
    }

    /** `selectedCount` */
    function SelectedTotal(): (n: nat)
      reads this
      ensures scanState.None? ==> n == 0
      ensures scanState.Some? ==> n == SelectedCount(scanState.value.results) <= |scanState.value.results|
    {
      if scanState.None? then 0
      else
        SelectionPartition(scanState.value.results);
        SelectedCount(scanState.value.results)
    }

    /** `removeSelected`: delete the selected tracks from the playlist, then drop them from
        the results. `deleteSucceeds` is whether `removeTracksFromPlaylist` resolved. */
    method RemoveSelected(deleteSucceeds: bool) returns (r: RemoveOutcome)
      requires Valid()
      modifies this
      ensures Valid() && aborted == old(aborted) && current == old(current)
      ensures (!hasClient || old(scanState).None? || SelectedCount(old(scanState).value.results) == 0) ==>
        r == NothingToRemove && scanState == old(scanState) && deletes == old(deletes)
      ensures hasClient && old(scanState).Some? && SelectedCount(old(scanState).value.results) > 0 ==>
        && deletes == old(deletes) + [(old(scanState).value.playlist.id, SelectedUris(old(scanState).value.results))]
        && (deleteSucceeds ==>
              r == Removed(SelectedCount(old(scanState).value.results)) &&
              scanState == Some(old(scanState).value.(results := Unselected(old(scanState).value.results))))
        && (!deleteSucceeds ==> r == RemoveThrew && scanState == old(scanState))
    {
      if !hasClient || scanState.None? {
        return NothingToRemove;
      }
      var s := scanState.value;
      var uris := SelectedUris(s.results);
      SelectionPartition(s.results);
      if |uris| == 0 {
        return NothingToRemove;
      }
      deletes := deletes + [(s.playlist.id, uris)];
      if !deleteSucceeds {
        return RemoveThrew;
      }
      scanState := Some(s.(results := Unselected(s.results)));
      r := Removed(|uris|);
    }
  }

  /** After a successful removal nothing left is selected, and every unselected result is
      still there. */
  lemma RemovalLeavesUnselected(rs: seq<ScanResult>)
    ensures SelectedCount(Unselected(rs)) == 0
    ensures forall x :: x in rs && !x.selected ==> x in Unselected(rs)
  {
    SelectionPartition(rs);
    forall k | 0 <= k < |Unselected(rs)| ensures !Unselected(rs)[k].selected {
      assert Unselected(rs)[k] in Unselected(rs);
    }
    NoneSelectedCount(Unselected(rs));
  }

  /** `scanTracks`'s callbacks, delivered in order: the scan stays live and scanning, and the
      state ends with the last progress reported. */
  method DeliverEvents(hook: ScanHook, id: nat, playlist: Playlist, events: seq<Scanner.Event>)
    requires hook.Valid() && hook.Live(id) && hook.scanState.Some?
    requires hook.scanState.value.playlist == playlist && hook.scanState.value.status == Scanning
    requires hook.scanState.value.error.None?
    modifies hook
    ensures hook.Valid() && hook.Live(id) && hook.scanState.Some?
    ensures hook.scanState.value.playlist == playlist && hook.scanState.value.status == Scanning
    ensures hook.scanState.value.error.None?
    ensures |events| > 0 && events[|events| - 1].Progress? ==> hook.scanState.value.progress == events[|events| - 1].p
  {
    var k := 0;
    while k < |events|
      invariant k <= |events|
      invariant hook.Valid() && hook.Live(id) && hook.scanState.Some?
      invariant hook.scanState.value.playlist == playlist && hook.scanState.value.status == Scanning
      invariant hook.scanState.value.error.None?
      invariant k > 0 && events[k - 1].Progress? ==> hook.scanState.value.progress == events[k - 1].p
    {
      match events[k] {
        case Progress(p) => hook.OnProgress(p);
        case TrackResult(r) => hook.OnTrackResult(r);
        case Delay(_) =>
        case ReleaseCapture =>
      }
      k := k + 1;
    }
  }

  /** A whole uninterrupted scan: start, load the tracks, run `scanTracks` delivering its
      callbacks, and finish. A failed load ends in the error state; a completed scan holds
      exactly the results `scanTracks` returns and its last progress record. */
  method RunScan(hook: ScanHook, playlist: Playlist, load: TrackLoad, env: Scanner.Env,
                 options: ScannerOptions, accessToken: Option<string>)
    requires hook.Valid() && hook.hasClient
    modifies hook
    ensures hook.Valid() && hook.scanState.Some? && hook.scanState.value.playlist == playlist
    ensures load.LoadThrew? ==>
      && hook.scanState.value.status == Error
      && hook.scanState.value.error == Some(if load.message.Some? then load.message.value else UNEXPECTED_ERROR)
      && hook.scanState.value.results == []
    ensures load.TracksLoaded? ==>
      var opts := ResolveOptions(options, accessToken);
      && hook.scanState.value.status == Complete
      && hook.scanState.value.results == Scanner.ScanResults(load.tracks, env, opts, Scanner.NeverAborted)
      && hook.scanState.value.progress == Scanner.FinalProgress(load.tracks, env, opts, Scanner.NeverAborted)
      && hook.scanState.value.error.None?
  {
    var c := hook.StartScan(playlist);
    var id := c.value;
    if load.LoadThrew? {
      hook.OnScanFailed(id, load.message);
      return;
    }
    hook.OnTracksLoaded(id, |load.tracks|);
    var opts := ResolveOptions(options, accessToken);
    var results, events := Scanner.ScanTracks(load.tracks, env, opts, Scanner.NeverAborted);
    Scanner.FinalProgressShape(load.tracks, env, opts, Scanner.NeverAborted);
    DeliverEvents(hook, id, playlist, events);
    hook.OnScanFinished(id, results);
  }
}
