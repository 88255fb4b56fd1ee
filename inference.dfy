/** Audio windowing and the classifier's session cache (goodbai-app/src/lib/inference.ts).

    The ONNX runtime is an oracle: whether `InferenceSession.create` resolves, and what
    `session.run` reports for a chunk (None when it throws). */
module Inference {
  import opened Types

  const SAMPLING_RATE: nat := 44100
  const MAX_TIME: nat := 5
  /** Five seconds at 44.1 kHz. */
  const TARGET_LENGTH: nat := SAMPLING_RATE * MAX_TIME

  lemma TargetLengthValue()
    ensures TARGET_LENGTH == 220500
  {
  }

  function Zeros(n: nat): (z: seq<Sample>)
    ensures |z| == n && forall i :: 0 <= i < n ==> z[i] == 0.0
  {
    seq(n, _ => 0.0)
  }

  /** Where a waveform of length `n <= t` starts inside the zero-padded chunk. */
  function PadOffset(n: nat, t: nat): nat
    requires n <= t
  {
    (t - n) / 2
  }

  /** Where the middle `t` samples of a waveform of length `n > t` start. */
  function CropStart(n: nat, t: nat): nat
    requires n > t
  {
    (n - t) / 2
  }

  /** What `extractMiddleChunk(waveform, targetLength)` returns. */
  function MiddleChunk(w: seq<Sample>, t: nat): (r: seq<Sample>)
    ensures |r| == t
  {
    if |w| <= t then
      Zeros(PadOffset(|w|, t)) + w + Zeros(t - |w| - PadOffset(|w|, t))
    else
      w[CropStart(|w|, t)..CropStart(|w|, t) + t]
  }

  /** A short waveform lands at the offset, with zeros before and after it. */
  lemma PaddedPlacement(w: seq<Sample>, t: nat)
    requires |w| <= t
    ensures var off := PadOffset(|w|, t); var r := MiddleChunk(w, t);
      && (forall i :: 0 <= i < |w| ==> r[off + i] == w[i])
      && (forall k :: 0 <= k < off ==> r[k] == 0.0)
      && (forall k :: off + |w| <= k < t ==> r[k] == 0.0)
  {
    var off := PadOffset(|w|, t);
    var r := MiddleChunk(w, t);
    assert r == Zeros(off) + w + Zeros(t - |w| - off);
    forall i | 0 <= i < |w| ensures r[off + i] == w[i] {
      assert (Zeros(off) + w)[off + i] == w[i];
    }
    forall k | off + |w| <= k < t ensures r[k] == 0.0 {
      assert r[k] == Zeros(t - |w| - off)[k - off - |w|];
    }
  }

  /** The padding is centred: the left pad is the right pad or one less. */
  lemma PaddingCentred(n: nat, t: nat)
    requires n <= t
    ensures var left := PadOffset(n, t); var right := t - n - left;
      left <= right <= left + 1
  {
  }

  /** A waveform that already has the target length is returned as it is. */
  lemma ExactLengthUnchanged(w: seq<Sample>, t: nat)
    requires |w| == t
    ensures MiddleChunk(w, t) == w
  {
    assert Zeros(0) == [];
    assert Zeros(0) + w + Zeros(0) == w;
  }

  /** A long waveform is cropped to its middle `t` samples: as many dropped before as after,
      or one fewer before. */
  lemma CropCentred(w: seq<Sample>, t: nat)
    requires |w| > t
    ensures var start := CropStart(|w|, t);
      && MiddleChunk(w, t) == w[start..start + t]
      && start <= |w| - t - start <= start + 1
      && forall i :: 0 <= i < t ==> MiddleChunk(w, t)[i] == w[start + i]
  {
  }

  /** `target.set(source, offset)`: the source's samples replace those at the offset. */
  method SetAt(target: array<Sample>, source: seq<Sample>, offset: nat)
    requires offset + |source| <= target.Length
    modifies target
    ensures target[..] == old(target[..])[..offset] + source + old(target[..])[offset + |source|..]
  {
    ghost var base := target[..];
    var i := 0;
    while i < |source|
      invariant 0 <= i <= |source|
      invariant forall k :: 0 <= k < target.Length ==>
        target[k] == if offset <= k < offset + i then source[k - offset] else base[k]
    {
      target[offset + i] := source[i];
      i := i + 1;
    }
    ghost var merged := base[..offset] + source + base[offset + |source|..];
    assert |merged| == target.Length;
    forall k | 0 <= k < target.Length
      ensures target[k] == merged[k]
    {
      if k < offset {
        assert merged[k] == base[k];
      } else if k < offset + |source| {
        assert merged[k] == source[k - offset];
      } else {
        assert merged[k] == base[offset + |source|..][k - offset - |source|];
      }
    }
  }

  /** Writing a short waveform over zeros at the pad offset gives the middle chunk. */
  lemma OverlayOnZeros(w: seq<Sample>, t: nat)
    requires |w| <= t
    ensures var off := PadOffset(|w|, t);
      Zeros(t)[..off] + w + Zeros(t)[off + |w|..] == MiddleChunk(w, t)
  {
    var off := PadOffset(|w|, t);
    assert Zeros(t)[..off] == Zeros(off);
    assert Zeros(t)[off + |w|..] == Zeros(t - |w| - off);
  }

  /** `extractMiddleChunk`: allocate a zeroed buffer and `set` the waveform into it at the
      offset, or slice out the middle. */
  method ExtractMiddleChunk(waveform: seq<Sample>, targetLength: nat) returns (chunk: seq<Sample>)
    ensures chunk == MiddleChunk(waveform, targetLength)
  {
    if |waveform| <= targetLength {
      var padded := new Sample[targetLength](_ => 0.0);
      assert padded[..] == Zeros(targetLength);
      var offset := (targetLength - |waveform|) / 2;
      SetAt(padded, waveform, offset);
      OverlayOnZeros(waveform, targetLength);
      chunk := padded[..];
    } else {
      var start := (|waveform| - targetLength) / 2;
      chunk := waveform[start..start + targetLength];
    }
  }

  // ─── The session cache ──────────────────────────────────────────

  /** A loaded ONNX session, named by the creation that produced it. */
  datatype Session = Session(creation: nat)

  /** What the cached `sessionPromise` settled to. */
  datatype SessionLoad = Loaded(session: Session) | LoadFailed

  class InferenceEngine {
    var session: Option<Session>
    var sessionPromise: Option<SessionLoad>
    /** Calls made to `InferenceSession.create`. */
    var creations: nat
    /** The chunks handed to `session.run`, in order. */
    var fed: seq<seq<Sample>>
    /** Whether `InferenceSession.create` resolves. */
    const createResolves: bool
    /** What `session.run` reports for a chunk: None when it throws. */
    const run: seq<Sample> -> Option<Score>

    /** The cache is coherent: a session exists iff the promise resolved to it, and the
        session was created at most once. */
    predicate Valid()
      reads this
    {
      && (session.Some? <==> sessionPromise.Some? && sessionPromise.value.Loaded?)
      && (session.Some? ==> sessionPromise == Some(Loaded(session.value)) && session.value.creation == 0)
      && (sessionPromise.Some? <==> creations == 1)
      && (sessionPromise.Some? ==> (sessionPromise.value.Loaded? <==> createResolves))
      && creations <= 1
      && (creations == 0 ==> fed == [])
      && (forall k :: 0 <= k < |fed| ==> |fed[k]| == TARGET_LENGTH)
    }

    constructor (createResolves: bool, run: seq<Sample> -> Option<Score>)
      ensures Valid()
      ensures session.None? && sessionPromise.None? && creations == 0 && fed == []
      ensures this.createResolves == createResolves && this.run == run
    {
      session := None;
      sessionPromise := None;
      creations := 0;
      fed := [];
      this.createResolves := createResolves;
      this.run := run;
    }

    /** `isReady` */
    predicate IsReady()
      reads this
    {
      session.Some?
    }

    /** `getSession`: the cached session, else the cached promise, else a new creation. */
    method GetSession() returns (s: Option<Session>)
      requires Valid()
      modifies this
      ensures Valid() && fed == old(fed)
      ensures old(session).Some? ==> session == old(session) && s == session && creations == old(creations)
      ensures old(sessionPromise).Some? ==> sessionPromise == old(sessionPromise) && creations == old(creations)
      ensures creations == 1 && (session.Some? <==> createResolves)
      ensures s == session
    {
      if session.Some? {
        return session;
      }
      if sessionPromise.None? {
        creations := creations + 1;
        if createResolves {
          session := Some(Session(0));
          sessionPromise := Some(Loaded(Session(0)));
        } else {
          sessionPromise := Some(LoadFailed);
        }
      }
      s := if sessionPromise.value.Loaded? then Some(sessionPromise.value.session) else None;
    }

    /** `warmup` */
    method Warmup()
      requires Valid()
      modifies this
      ensures Valid() && fed == old(fed)
      ensures old(session).Some? ==> session == old(session) && creations == old(creations)
      ensures IsReady() <==> createResolves
    {
      var _ := GetSession();
    }

    /** `predict`: the middle five seconds of the waveform go through the session; a failed
        load or run rejects this prediction only. */
    method Predict(audioData: seq<Sample>) returns (p: Option<Score>)
      requires Valid()
      modifies this
      ensures Valid() && creations == 1 && (session.Some? <==> createResolves)
      ensures old(session).Some? ==> session == old(session)
      ensures session.None? ==> p.None? && fed == old(fed)
      ensures session.Some? ==> fed == old(fed) + [MiddleChunk(audioData, TARGET_LENGTH)] &&
                                p == run(MiddleChunk(audioData, TARGET_LENGTH))
    {
      var s := GetSession();
      if s.None? {
        return None;
      }
      var chunk := ExtractMiddleChunk(audioData, TARGET_LENGTH);
      fed := fed + [chunk];
      p := run(chunk);
    }
  }

  /** From a fresh engine, any number of predictions create the session at most once, and
      the engine is ready afterwards exactly when that creation resolved. */
  method PredictAll(engine: InferenceEngine, inputs: seq<seq<Sample>>) returns (scores: seq<Option<Score>>)
    requires engine.Valid() && engine.creations == 0
    modifies engine
    ensures engine.Valid() && engine.creations == (if |inputs| > 0 then 1 else 0)
    ensures |scores| == |inputs|
    ensures |inputs| > 0 ==> (engine.IsReady() <==> engine.createResolves)
    ensures !engine.createResolves ==> forall k :: 0 <= k < |scores| ==> scores[k].None?
    ensures engine.createResolves ==>
      (|engine.fed| == |inputs| &&
       forall k :: 0 <= k < |inputs| ==> scores[k] == engine.run(MiddleChunk(inputs[k], TARGET_LENGTH)))
  {
    scores := [];
    var k := 0;
    while k < |inputs|
      invariant 0 <= k <= |inputs| && |scores| == k
      invariant engine.Valid() && engine.creations == (if k > 0 then 1 else 0)
      invariant k > 0 ==> (engine.IsReady() <==> engine.createResolves)
      invariant k == 0 ==> engine.session.None? && engine.sessionPromise.None? && engine.fed == []
      invariant !engine.createResolves ==> forall j :: 0 <= j < k ==> scores[j].None?
      invariant engine.createResolves ==>
        (|engine.fed| == k &&
         forall j :: 0 <= j < k ==> scores[j] == engine.run(MiddleChunk(inputs[j], TARGET_LENGTH)))
    {
      var p := engine.Predict(inputs[k]);
      scores := scores + [p];
      k := k + 1;
    }
  }
}
