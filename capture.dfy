/** Audio capture through the Spotify Web Playback SDK (src/lib/playback-capture.ts): the
    player's field state, the capture guards, the merge of captured chunks into a
    fixed-length buffer, and the module singleton.

    The browser is an oracle: whether the SDK script loads, the event the player raises
    after `connect()`, the reply to each "start playback" request, and the buffers the
    audio graph delivers for each capture. */
module PlaybackCapture {
  import opened Types
  import Inference

  const CAPTURE_DURATION_MS: nat := 6000
  const SAMPLING_RATE: nat := 44100

  /** `Math.ceil((durationMs / 1000) * SAMPLING_RATE)`, in exact arithmetic. */
  function TotalSamples(durationMs: nat): (n: nat)
    ensures 10 * n - 9 <= durationMs * 441 <= 10 * n
  {
    (durationMs * 441 + 9) / 10
  }

  lemma CaptureLength()
    ensures TotalSamples(CAPTURE_DURATION_MS) == 264600
    ensures TotalSamples(CAPTURE_DURATION_MS) >= Inference.TARGET_LENGTH
  {
  }

  function Min(a: nat, b: nat): nat
  {
    if a <= b then a else b
  }

  /** The captured buffers, end to end. */
  function Concat(chunks: seq<seq<Sample>>): seq<Sample>
  {
    if chunks == [] then [] else Concat(chunks[..|chunks| - 1]) + chunks[|chunks| - 1]
  }

  /** The first `n` samples of `s`, zero-filled when `s` is shorter. */
  function Fill(s: seq<Sample>, n: nat): (r: seq<Sample>)
    ensures |r| == n
  {
    if |s| >= n then s[..n] else s + Inference.Zeros(n - |s|)
  }

  /** Copying the next chunk behind what has been merged so far is merging one chunk more. */
  lemma FillStep(merged: seq<Sample>, chunk: seq<Sample>, n: nat)
    ensures var offset := Min(|merged|, n);
      var toCopy := Min(|chunk|, n - offset);
      Fill(merged, n)[..offset] + chunk[..toCopy] + Fill(merged, n)[offset + toCopy..] == Fill(merged + chunk, n)
  {
    var offset := Min(|merged|, n);
    var toCopy := Min(|chunk|, n - offset);
    var lhs := Fill(merged, n)[..offset] + chunk[..toCopy] + Fill(merged, n)[offset + toCopy..];
    var rhs := Fill(merged + chunk, n);
    assert |lhs| == n;
    forall k | 0 <= k < n ensures lhs[k] == rhs[k] {
      if k < offset {
        assert lhs[k] == Fill(merged, n)[k] == merged[k];
        assert rhs[k] == (merged + chunk)[k];
      } else if k < offset + toCopy {
        assert lhs[k] == chunk[k - offset];
        assert rhs[k] == (merged + chunk)[k];
      } else {
        assert lhs[k] == Fill(merged, n)[k];
        assert lhs[k] == 0.0;
        assert k >= |merged + chunk|;
      }
    }
  }

  /** Once `n` samples are merged, later chunks change nothing. */
  lemma FillSaturated(merged: seq<Sample>, rest: seq<Sample>, n: nat)
    requires |merged| >= n
    ensures Fill(merged + rest, n) == Fill(merged, n)
  {
    assert (merged + rest)[..n] == merged[..n];
  }

  lemma {:induction false} ConcatAppend(chunks: seq<seq<Sample>>, more: seq<seq<Sample>>)
    ensures Concat(chunks + more) == Concat(chunks) + Concat(more)
    decreases |more|
  {
    if more == [] {
      assert chunks + more == chunks;
    } else {
      var init, last := more[..|more| - 1], more[|more| - 1];
      assert (chunks + more)[..|chunks + more| - 1] == chunks + init;
      assert (chunks + more)[|chunks + more| - 1] == last;
      assert Concat(chunks + more) == Concat(chunks + init) + last;
      assert Concat(more) == Concat(init) + last;
      ConcatAppend(chunks, init);
      assert Concat(chunks + more) == Concat(chunks) + Concat(init) + last;
    }
  }

  /** Copying chunk `k` into the buffer merged from the chunks before it. */
  lemma MergeStep(chunks: seq<seq<Sample>>, k: nat, n: nat)
    requires k < |chunks|
    ensures var prev := Concat(chunks[..k]);
      var offset := Min(|prev|, n);
      var toCopy := Min(|chunks[k]|, n - offset);
      && Min(|Concat(chunks[..k + 1])|, n) == offset + toCopy
      && Fill(prev, n)[..offset] + chunks[k][..toCopy] + Fill(prev, n)[offset + toCopy..]
         == Fill(Concat(chunks[..k + 1]), n)
  {
    assert chunks[..k + 1][..k] == chunks[..k];
    assert Concat(chunks[..k + 1]) == Concat(chunks[..k]) + chunks[k];
    FillStep(Concat(chunks[..k]), chunks[k], n);
  }

  /** Stopping once every chunk is copied or the buffer is full merges all the chunks. */
  lemma MergeDone(chunks: seq<seq<Sample>>, k: nat, n: nat)
    requires k <= |chunks|
    requires k == |chunks| || |Concat(chunks[..k])| >= n
    ensures Fill(Concat(chunks[..k]), n) == Fill(Concat(chunks), n)
  {
    assert chunks[..k] + chunks[k..] == chunks;
    ConcatAppend(chunks[..k], chunks[k..]);
    if k < |chunks| {
      FillSaturated(Concat(chunks[..k]), Concat(chunks[k..]), n);
    } else {
      assert chunks[..k] == chunks;
    }
  }

  /** The merge in `captureAudioOutput`: copy chunks into a zeroed buffer of `totalSamples`
      until it is full. */
  method MergeChunks(chunks: seq<seq<Sample>>, totalSamples: nat) returns (result: seq<Sample>)
    ensures result == Fill(Concat(chunks), totalSamples)
    ensures |Concat(chunks)| >= totalSamples ==> result == Concat(chunks)[..totalSamples]
  {
    var buffer := new Sample[totalSamples](_ => 0.0);
    assert buffer[..] == Fill(Concat(chunks[..0]), totalSamples) by {
      assert chunks[..0] == [];
    }
    var offset := 0;
    var k := 0;
    while k < |chunks|
      invariant k <= |chunks| && buffer.Length == totalSamples
      invariant offset == Min(|Concat(chunks[..k])|, totalSamples)
      invariant buffer[..] == Fill(Concat(chunks[..k]), totalSamples)
    {
      var chunk := chunks[k];
      var remaining := totalSamples - offset;
      var toCopy := Min(|chunk|, remaining);
      MergeStep(chunks, k, totalSamples);
      Inference.SetAt(buffer, chunk[..toCopy], offset);
      offset := offset + toCopy;
      k := k + 1;
      if offset >= totalSamples {
        break;
      }
    }
    result := buffer[..];
    MergeDone(chunks, k, totalSamples);
  }

  /** The merged buffer a capture of `durationMs` resolves with, from the buffers the
      stream delivered: the first `k` buffers, for the first `k` that hold enough samples,
      or None when the stream never delivers enough (the promise never settles). */
  function CapturedFrom(frames: seq<seq<Sample>>, totalSamples: nat, k: nat): (r: Option<seq<Sample>>)
    requires k <= |frames|
    decreases |frames| - k
  {
    if k == |frames| then None
    else if |Concat(frames[..k + 1])| >= totalSamples then Some(Fill(Concat(frames[..k + 1]), totalSamples))
    else CapturedFrom(frames, totalSamples, k + 1)
  }

  /** `captureAudioOutput`: collect buffers until `totalSamples` are in, then merge. */
  method CaptureAudioOutput(frames: seq<seq<Sample>>, durationMs: nat) returns (r: Option<seq<Sample>>)
    ensures r == CapturedFrom(frames, TotalSamples(durationMs), 0)
    ensures r.Some? ==> |r.value| == TotalSamples(durationMs) <= |Concat(frames)| &&
                        r.value == Concat(frames)[..TotalSamples(durationMs)]
    ensures r.None? <==> (frames == [] || |Concat(frames)| < TotalSamples(durationMs))
  {
    var totalSamples := TotalSamples(durationMs);
    var chunks: seq<seq<Sample>> := [];
    var collected := 0;
    var k := 0;
    while k < |frames|
      invariant k <= |frames| && chunks == frames[..k] && collected == |Concat(chunks)|
      invariant CapturedFrom(frames, totalSamples, 0) == CapturedFrom(frames, totalSamples, k)
      invariant k > 0 ==> collected < totalSamples
    {
      CaptureStep(frames, totalSamples, k);
      chunks := chunks + [frames[k]];
      collected := collected + |frames[k]|;
      if collected >= totalSamples {
        var merged := MergeChunks(chunks, totalSamples);
        r := Some(merged);
        CapturedPrefix(frames, totalSamples, k + 1);
        return;
      }
      k := k + 1;
    }
    CollectedShort(frames, totalSamples, k);
    r := None;
  }

  /** Taking buffer `k` adds its samples to the count, and while the count stays short the
      capture goes on to the next buffer. */
  lemma CaptureStep(frames: seq<seq<Sample>>, n: nat, k: nat)
    requires k < |frames|
    ensures frames[..k] + [frames[k]] == frames[..k + 1]
    ensures |Concat(frames[..k + 1])| == |Concat(frames[..k])| + |frames[k]|
    ensures |Concat(frames[..k + 1])| < n ==> CapturedFrom(frames, n, k) == CapturedFrom(frames, n, k + 1)
  {
    assert frames[..k + 1][..k] == frames[..k];
  }

  /** When the first `k` buffers hold enough, the merge equals the whole stream's prefix. */
  lemma CapturedPrefix(frames: seq<seq<Sample>>, n: nat, k: nat)
    requires 0 < k <= |frames| && |Concat(frames[..k])| >= n
    ensures |Concat(frames)| >= n && Concat(frames)[..n] == Fill(Concat(frames[..k]), n)
  {
    assert frames[..k] + frames[k..] == frames;
    ConcatAppend(frames[..k], frames[k..]);
    FillSaturated(Concat(frames[..k]), Concat(frames[k..]), n);
  }

  lemma CollectedShort(frames: seq<seq<Sample>>, n: nat, k: nat)
    requires k == |frames| && (k > 0 ==> |Concat(frames[..k])| < n)
    ensures frames == [] || |Concat(frames)| < n
  {
    assert frames[..k] == frames;
  }

  // ─── The player ────────────────────────────────────────────────

  /** A `Spotify.Player`, named by the initialisation that created it. */
  datatype Player = Player(creation: nat)

  /** What the player raised after `connect()`: "ready" with a device id, one of the
      failures that reject the initialisation promise, or nothing at all (`connect()`
      resolved true and no listener ever fires). */
  datatype ConnectEvent = ReadyEvent(deviceId: string) | InitializationError | AuthenticationError | ConnectFailed | NoEvent

  /** How the cached `ready` promise settled, or that it never settles. */
  datatype InitOutcome = InitResolved | InitRejected | InitPending

  /** What the "start playback" request gave. */
  datatype PlayReply = PlayThrew | PlayStatus(status: nat)

  /** What `captureAudioOutput` did: threw (`getDisplayMedia` refused), or delivered buffers. */
  datatype AudioCapture = DisplayMediaRefused | Buffers(frames: seq<seq<Sample>>)

  /** What `captureTrackAudio` gave. */
  datatype CaptureResult =
    | NotInitialized          // threw "Player not initialized"
    | NoAudio                 // returned null
    | Waveform(samples: seq<Sample>)
    | NeverSettles            // the capture promise never resolves

  class SpotifyPlaybackCapture {
    var player: Option<Player>
    var deviceId: Option<string>
    var accessToken: string
    var ready: Option<InitOutcome>
    /** Players created, disconnects, pauses attempted, playback requests sent (track uri
        and device id), in order. */
    var created: nat
    var disconnects: nat
    var pauses: nat
    var playRequests: seq<(string, string)>
    var captures: nat
    const sdkLoads: bool
    const connectEvent: nat -> ConnectEvent
    const playReply: nat -> PlayReply
    const audio: nat -> AudioCapture

    constructor (accessToken: string, sdkLoads: bool, connectEvent: nat -> ConnectEvent,
                 playReply: nat -> PlayReply, audio: nat -> AudioCapture)
      ensures this.accessToken == accessToken && player.None? && deviceId.None? && ready.None?
      ensures created == 0 && disconnects == 0 && pauses == 0 && playRequests == [] && captures == 0
      ensures this.sdkLoads == sdkLoads && this.connectEvent == connectEvent
      ensures this.playReply == playReply && this.audio == audio
    {
      this.accessToken := accessToken;
      player := None;
      deviceId := None;
      ready := None;
      created := 0;
      disconnects := 0;
      pauses := 0;
      playRequests := [];
      captures := 0;
      this.sdkLoads := sdkLoads;
      this.connectEvent := connectEvent;
      this.playReply := playReply;
      this.audio := audio;
    }

    /** `updateToken` */
    method UpdateToken(token: string)
      modifies this
      ensures accessToken == token
      ensures player == old(player) && deviceId == old(deviceId) && ready == old(ready)
      ensures created == old(created) && pauses == old(pauses) && playRequests == old(playRequests)
      ensures disconnects == old(disconnects) && captures == old(captures)
    {
      accessToken := token;
    }

    /** `isReady` */
    predicate IsReady()
      reads this
    {
      player.Some? && deviceId.Some?
    }

    /** `initialize`: the cached promise on every call after the first; the first loads the
        SDK, creates the player and waits for its first event. A player that raises no event
        leaves the promise pending, and every later call returns that same pending promise. */
    method Initialize() returns (outcome: InitOutcome)
      modifies this
      ensures old(ready).Some? ==>
        (outcome == old(ready).value && player == old(player) && deviceId == old(deviceId) &&
         created == old(created) && ready == old(ready))
      ensures old(ready).None? ==> ready == Some(outcome)
      ensures old(ready).None? && !sdkLoads ==>
        outcome == InitRejected && player == old(player) && deviceId == old(deviceId) && created == old(created)
      ensures old(ready).None? && sdkLoads ==>
        player == Some(Player(old(created))) && created == old(created) + 1 &&
        (outcome == InitResolved <==> connectEvent(old(created)).ReadyEvent?) &&
        (outcome == InitPending <==> connectEvent(old(created)).NoEvent?) &&
        (connectEvent(old(created)).ReadyEvent? ==> deviceId == Some(connectEvent(old(created)).deviceId)) &&
        (!connectEvent(old(created)).ReadyEvent? ==> deviceId == old(deviceId))
      ensures accessToken == old(accessToken) && pauses == old(pauses) && playRequests == old(playRequests)
      ensures disconnects == old(disconnects) && captures == old(captures)
    {
      if ready.Some? {
        return ready.value;
      }
      if !sdkLoads {
        ready := Some(InitRejected);
        return InitRejected;
      }
      var p := Player(created);
      var event := connectEvent(created);
      created := created + 1;
      if event.ReadyEvent? {
        deviceId := Some(event.deviceId);
        outcome := InitResolved;
      } else if event.NoEvent? {
        outcome := InitPending;
      } else {
        outcome := InitRejected;
      }
      player := Some(p);
      ready := Some(outcome);
    }

    /** The "not_ready" listener. */
    method OnNotReady()
      modifies this
      ensures deviceId.None? && !IsReady()
      ensures player == old(player) && ready == old(ready) && accessToken == old(accessToken)
      ensures created == old(created) && pauses == old(pauses) && playRequests == old(playRequests)
      ensures disconnects == old(disconnects) && captures == old(captures)
    {
      deviceId := None;
    }

    /** The "ready" listener: it records the device and calls the initialisation promise's
        `resolve()`, which settles a pending promise and leaves a settled one as it was. */
    method OnReady(device: string)
      modifies this
      ensures deviceId == Some(device)
      ensures IsReady() <==> player.Some?
      ensures old(ready) == Some(InitPending) ==> ready == Some(InitResolved)
      ensures old(ready) != Some(InitPending) ==> ready == old(ready)
      ensures player == old(player) && accessToken == old(accessToken)
      ensures created == old(created) && pauses == old(pauses) && playRequests == old(playRequests)
      ensures disconnects == old(disconnects) && captures == old(captures)
    {
      deviceId := Some(device);
      if ready == Some(InitPending) {
        ready := Some(InitResolved);
      }
    }

    /** `destroy`: disconnect and clear the three fields when a player exists; otherwise
        nothing. */
    method Destroy()
      modifies this
      ensures old(player).Some? ==>
        player.None? && deviceId.None? && ready.None? && disconnects == old(disconnects) + 1
      ensures old(player).None? ==>
        player == old(player) && deviceId == old(deviceId) && ready == old(ready) && disconnects == old(disconnects)
      ensures !IsReady()
      ensures accessToken == old(accessToken) && created == old(created) && pauses == old(pauses)
      ensures playRequests == old(playRequests) && captures == old(captures)
    {
      if player.Some? {
        disconnects := disconnects + 1;
        player := None;
        deviceId := None;
        ready := None;
      }
    }

    /** The guard of `captureTrackAudio`: a player and a truthy (non-empty) device id.
        Unlike `IsReady`, an empty device id fails it. */
    predicate HasDevice()
      reads this
    {
      player.Some? && deviceId.Some? && deviceId.value != ""
    }

    /** `captureTrackAudio(trackUri)` */
    method CaptureTrackAudio(trackUri: string) returns (r: CaptureResult)
      modifies this
      // without a player and a device id it throws before doing anything
      ensures !old(HasDevice()) ==>
        r == NotInitialized && playRequests == old(playRequests) && pauses == old(pauses) && captures == old(captures)
      ensures old(HasDevice()) ==> playRequests == old(playRequests) + [(trackUri, old(deviceId).value)]
      // the request itself threw: caught, paused, null
      ensures old(HasDevice()) && playReply(|old(playRequests)|).PlayThrew? ==>
        r == NoAudio && pauses == old(pauses) + 1 && captures == old(captures)
      // a failed start of playback returns null without pausing
      ensures old(HasDevice()) && playReply(|old(playRequests)|).PlayStatus? &&
              !(200 <= playReply(|old(playRequests)|).status <= 299) ==>
        r == NoAudio && pauses == old(pauses) && captures == old(captures)
      // playback started: one capture, whose outcome decides the result
      ensures old(HasDevice()) && playReply(|old(playRequests)|).PlayStatus? &&
              200 <= playReply(|old(playRequests)|).status <= 299 ==>
        captures == old(captures) + 1 &&
        match audio(old(captures))
        case DisplayMediaRefused => r == NoAudio && pauses == old(pauses) + 1
        case Buffers(frames) =>
          match CapturedFrom(frames, TotalSamples(CAPTURE_DURATION_MS), 0)
          case None => r == NeverSettles && pauses == old(pauses)
          case Some(w) => r == Waveform(w) && pauses == old(pauses) + 1
      // a waveform is the first six seconds of the captured stream
      ensures r.Waveform? ==>
        audio(old(captures)).Buffers? && |r.samples| == TotalSamples(CAPTURE_DURATION_MS) &&
        TotalSamples(CAPTURE_DURATION_MS) <= |Concat(audio(old(captures)).frames)| &&
        r.samples == Concat(audio(old(captures)).frames)[..TotalSamples(CAPTURE_DURATION_MS)]
      ensures r.NeverSettles? ==>
        audio(old(captures)).Buffers? &&
        (audio(old(captures)).frames == [] ||
         |Concat(audio(old(captures)).frames)| < TotalSamples(CAPTURE_DURATION_MS))
      ensures player == old(player) && deviceId == old(deviceId) && ready == old(ready)
      ensures accessToken == old(accessToken) && created == old(created) && disconnects == old(disconnects)
    {
      if player.None? || deviceId.None? || deviceId.value == "" {
        return NotInitialized;
      }
      var reply := playReply(|playRequests|);
      playRequests := playRequests + [(trackUri, deviceId.value)];
      if reply.PlayThrew? {
        pauses := pauses + 1;
        return NoAudio;
      }
      if !(200 <= reply.status <= 299) && reply.status != 204 {
        return NoAudio;
      }
      var captured := audio(captures);
      captures := captures + 1;
      if captured.DisplayMediaRefused? {
        pauses := pauses + 1;
        return NoAudio;
      }
      var waveform := CaptureAudioOutput(captured.frames, CAPTURE_DURATION_MS);
      if waveform.None? {
        return NeverSettles;
      }
      pauses := pauses + 1;
      r := Waveform(waveform.value);
    }
  }

  /** The module-level `_playbackCapture`. */
  class CaptureRegistry {
    var instance: Option<SpotifyPlaybackCapture>

    constructor ()
      ensures instance.None?
    {
      instance := None;
    }

    /** `getPlaybackCapture(accessToken)`: the one instance, created on the first call and
        only given the new token afterwards. */
    method Get(accessToken: string, sdkLoads: bool, connectEvent: nat -> ConnectEvent,
               playReply: nat -> PlayReply, audio: nat -> AudioCapture) returns (c: SpotifyPlaybackCapture)
      modifies this, if instance.Some? then {instance.value} else {}
      ensures instance == Some(c) && c.accessToken == accessToken
      // a reused instance only takes the new token
      ensures old(instance).Some? ==>
        (c == old(instance).value && c.player == old(c.player) && c.deviceId == old(c.deviceId) &&
         c.ready == old(c.ready))
      ensures old(instance).Some? ==>
        (c.created == old(c.created) && c.disconnects == old(c.disconnects) && c.pauses == old(c.pauses) &&
         c.playRequests == old(c.playRequests) && c.captures == old(c.captures))
      // a fresh instance is in the constructor's state, over the given browser and server
      ensures old(instance).None? ==> fresh(c) && c.player.None? && c.deviceId.None? && c.ready.None?
      ensures old(instance).None? ==>
        (c.created == 0 && c.disconnects == 0 && c.pauses == 0 && c.playRequests == [] && c.captures == 0)
      ensures old(instance).None? ==>
        (c.sdkLoads == sdkLoads && c.connectEvent == connectEvent && c.playReply == playReply && c.audio == audio)
    {
      if instance.None? {
        c := new SpotifyPlaybackCapture(accessToken, sdkLoads, connectEvent, playReply, audio);
        instance := Some(c);
      } else {
        c := instance.value;
        c.UpdateToken(accessToken);
      }
    }

    /** `destroyPlaybackCapture`: destroy the instance, if any, and forget it. */
    method DestroyInstance()
      modifies this, if instance.Some? then {instance.value} else {}
      ensures instance.None?
      ensures old(instance).Some? ==> !old(instance).value.IsReady()
      // the instance is destroyed as `Destroy` says
      ensures old(instance).Some? ==> var c := old(instance).value;
        && (old(c.player).Some? ==>
              c.player.None? && c.deviceId.None? && c.ready.None? && c.disconnects == old(c.disconnects) + 1)
        && (old(c.player).None? ==>
              c.player == old(c.player) && c.deviceId == old(c.deviceId) && c.ready == old(c.ready) &&
              c.disconnects == old(c.disconnects))
        && c.accessToken == old(c.accessToken) && c.created == old(c.created) && c.pauses == old(c.pauses)
        && c.playRequests == old(c.playRequests) && c.captures == old(c.captures)
    {
      if instance.Some? {
        instance.value.Destroy();
      }
      instance := None;
    }
  }
}
