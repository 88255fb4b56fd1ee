/** The scan progress bar (src/components/scan-progress.tsx): the percentage it fills,
    the phase label and which parts it shows. */
module ScanProgressView {
  import opened Types
  import Scanner

  /** `Math.round((processed / total) * 100)`, or 0 without tracks, in exact arithmetic:
      the nearest integer to 100·processed/total, halves rounded up. */
  function Percentage(p: ScanProgress): (pct: nat)
    ensures p.totalTracks == 0 ==> pct == 0
    ensures p.totalTracks > 0 ==>
      2 * pct * p.totalTracks <= 200 * p.processedTracks + p.totalTracks < 2 * (pct + 1) * p.totalTracks
  {
    if p.totalTracks > 0 then (200 * p.processedTracks + p.totalTracks) / (2 * p.totalTracks) else 0
  }

  /** While processed tracks do not exceed the total, the bar stays within 0..100, and it is
      full exactly when every track is processed. */
  lemma PercentageBounds(p: ScanProgress)
    requires p.processedTracks <= p.totalTracks
    ensures Percentage(p) <= 100
    ensures p.totalTracks > 0 ==> (Percentage(p) == 100 <==> 200 * p.processedTracks >= 199 * p.totalTracks)
    ensures p.totalTracks > 0 && p.processedTracks == p.totalTracks ==> Percentage(p) == 100
    ensures p.processedTracks == 0 ==> Percentage(p) == 0
  {
    if p.totalTracks > 0 {
      var t, n, q := p.totalTracks, p.processedTracks, Percentage(p);
      assert 2 * q * t <= 200 * n + t < 2 * (q + 1) * t;
      assert 200 * n + t <= 201 * t;
      if q > 100 {
        MulMonotone(101, q, t);
      }
      if q < 100 {
        MulMonotone(q + 1, 100, t);
      }
      if n == 0 && q > 0 {
        MulMonotone(1, q, t);
      }
    }
  }

  lemma MulMonotone(a: nat, b: nat, t: nat)
    requires a <= b
    ensures 2 * a * t <= 2 * b * t
  {
  }

  /** Processing more tracks never shrinks the bar. */
  lemma PercentageMonotone(p: ScanProgress, q: ScanProgress)
    requires p.totalTracks == q.totalTracks && p.processedTracks <= q.processedTracks
    ensures Percentage(p) <= Percentage(q)
  {
    if p.totalTracks > 0 {
      var t := p.totalTracks;
      if Percentage(p) > Percentage(q) {
        MulMonotone(Percentage(q) + 1, Percentage(p), t);
        assert false;
      }
    }
  }

  const LABEL_BLOCKLIST := "CROSS-REFERENCING NEGATIVE DB..."
  const LABEL_AUDIO := "EXECUTING SONICS ANALYSIS..."
  const LABEL_DONE := "SCAN TERMINATED"

  /** `phaseLabel` */
  function PhaseLabel(phase: Phase): string
  {
    if phase == PhaseBlocklist then LABEL_BLOCKLIST
    else if phase == PhaseAudio then LABEL_AUDIO
    else LABEL_DONE
  }

  /** Each phase has its own label, so the label tells the phase. */
  lemma PhaseLabelsDistinct(a: Phase, b: Phase)
    ensures PhaseLabel(a) == PhaseLabel(b) <==> a == b
    ensures PhaseLabel(PhaseComplete) == LABEL_DONE
  {
    assert LABEL_BLOCKLIST[0] != LABEL_AUDIO[0] && LABEL_AUDIO[0] != LABEL_DONE[0] && LABEL_BLOCKLIST[0] != LABEL_DONE[0];
  }

  /** The spinner and the Abort button. */
  predicate ShowsSpinner(p: ScanProgress)
  {
    p.phase != PhaseComplete
  }

  predicate ShowsAbort(p: ScanProgress)
  {
    p.phase != PhaseComplete
  }

  /** The "TARGET ::" line, shown when `currentTrack` is truthy: present and non-empty. */
  predicate ShowsCurrentTrack(p: ScanProgress)
  {
    p.currentTrack.Some? && p.currentTrack.value != ""
  }

  /** The final record of a scan hides the spinner, the Abort button and the track line; a
      running scan shows both controls together. */
  lemma CompletedViewIsStill(p: ScanProgress)
    ensures p.phase == PhaseComplete && p.currentTrack.None? ==> !ShowsSpinner(p) && !ShowsAbort(p) && !ShowsCurrentTrack(p)
    ensures ShowsSpinner(p) <==> ShowsAbort(p)
    ensures ShowsSpinner(p) <==> PhaseLabel(p.phase) != LABEL_DONE
  {
    PhaseLabelsDistinct(p.phase, PhaseComplete);
  }

  /** A scan nobody aborts ends with a full bar. */
  lemma UninterruptedScanEndsFull(tracks: seq<Track>, env: Scanner.Env, opts: Scanner.ScanOptions)
    requires |tracks| > 0
    ensures var p := Scanner.FinalProgress(tracks, env, opts, Scanner.NeverAborted);
      Percentage(p) == 100 && !ShowsSpinner(p) && PhaseLabel(p.phase) == LABEL_DONE
  {
    Scanner.FinalProgressShape(tracks, env, opts, Scanner.NeverAborted);
    var p := Scanner.FinalProgress(tracks, env, opts, Scanner.NeverAborted);
    assert p.totalTracks == p.processedTracks == |tracks|;
    PercentageBounds(p);
  }
}
