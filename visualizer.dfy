/**
 * The state script.js keeps for the equalizer at module level: the smoothed
 * bar heights, the computed bucket ranges, the pending animation-frame handle
 * and the audio element's paused flag, with the play/pause click handler, the
 * canplay and pagehide handlers and the per-frame callback that mutate them.
 *
 * `loopScheduled` is the host's side of the frame loop: whether a frame
 * callback is actually queued. requestAnimationFrame sets it and
 * cancelAnimationFrame clears it; the script itself only sees `rafId`.
 */
module Visualizer {
  import opened Wrappers
  import opened Equalizer

  class Visualizer {
    const barCount: nat
    /** The per-bar smoothed heights, one slot per bar element. */
    const smooth: array<real>
    var ranges: seq<Range>
    var rafId: Option<nat>
    /** initAudio has run: the audio context and element exist. */
    var audioReady: bool
    /** The audio element is paused (a fresh element starts paused). */
    var paused: bool
    var loopScheduled: bool

    ghost predicate Valid()
      reads this, smooth
    {
      && smooth.Length == barCount
      && (forall i :: 0 <= i < barCount ==> BASE <= smooth[i] <= PEAK)
      && Fits(ranges, BIN_COUNT)
      && (!paused ==> audioReady)
      && (loopScheduled ==> rafId.Some?)
    }

    /**
     * The handle variable says whether a frame is pending, and a frame is
     * pending exactly while the music plays.
     */
    ghost predicate LoopTracksPlayback()
      reads this
    {
      && (rafId.Some? <==> loopScheduled)
      && (loopScheduled <==> !paused)
    }

    /** Page load: one bar per slot, every bar at the floor, no audio yet. */
    constructor (barCount: nat)
      ensures Valid() && LoopTracksPlayback()
      ensures this.barCount == barCount && fresh(smooth)
      ensures forall i :: 0 <= i < barCount ==> smooth[i] == BASE
      ensures ranges == [] && rafId == None && !audioReady && paused && !loopScheduled
    {
      var heights := new real[barCount];
      for i := 0 to barCount
        invariant forall j :: 0 <= j < i ==> heights[j] == BASE
      {
        heights[i] := BASE;
      }
      this.barCount := barCount;
      smooth := heights;
      ranges := [];
      rafId := None;
      audioReady := false;
      paused := true;
      loopScheduled := false;
    }

    /** resetToBase: every bar drops straight to the floor. */
    method ResetToBase()
      requires Valid()
      modifies smooth
      ensures Valid()
      ensures forall i :: 0 <= i < barCount ==> smooth[i] == BASE
    {
      for i := 0 to barCount
        invariant forall j :: 0 <= j < i ==> smooth[j] == BASE
        invariant forall j :: i <= j < barCount ==> smooth[j] == old(smooth[j])
      {
        smooth[i] := BASE;
      }
    }

    /** The audio element's canplay event: the ranges are recomputed unconditionally. */
    method CanPlay(est: seq<Estimate>)
      requires Valid()
      requires |est| == barCount && WithinSpectrum(est, BIN_COUNT)
      modifies this
      ensures Valid()
      ensures ranges == RangesOf(est, BIN_COUNT)
      ensures rafId == old(rafId) && loopScheduled == old(loopScheduled)
      ensures paused == old(paused) && audioReady == old(audioReady)
    {
      ranges := ComputeRanges(est, BIN_COUNT);
    }

    /**
     * The play/pause button. `est` are the estimates the log-frequency
     * mapping gives for this sample rate, `playResolved` whether the awaited
     * play() resolved (a rejection ends the handler there), and `id` the
     * handle requestAnimationFrame returns (never 0, which the script reads
     * as no handle).
     */
    method Click(est: seq<Estimate>, playResolved: bool, id: nat)
      requires Valid() && id > 0
      requires |est| == barCount && WithinSpectrum(est, BIN_COUNT)
      modifies this, smooth
      ensures Valid() && audioReady
      ensures old(LoopTracksPlayback()) ==> LoopTracksPlayback()
      // Play: ranges only if none yet, a loop only if no handle is held.
      ensures old(paused) ==>
        && ranges == (if old(ranges) == [] then RangesOf(est, BIN_COUNT) else old(ranges))
        && paused == !playResolved
        && (if playResolved && old(rafId).None?
            then rafId == Some(id) && loopScheduled
            else rafId == old(rafId) && loopScheduled == old(loopScheduled))
        && (forall i :: 0 <= i < barCount ==> smooth[i] == old(smooth[i]))
      // Pause: the loop is cancelled, the handle dropped and the bars reset.
      ensures !old(paused) ==>
        && paused && rafId == None && !loopScheduled && ranges == old(ranges)
        && (forall i :: 0 <= i < barCount ==> smooth[i] == BASE)
    {
      audioReady := true;
      if paused {
        if |ranges| == 0 {
          ranges := ComputeRanges(est, BIN_COUNT);
        }
        if playResolved {
          paused := false;
          if rafId.None? {
            rafId := Some(id);
            loopScheduled := true;
          }
        }
      } else {
        paused := true;
        if rafId.Some? {
          loopScheduled := false;
          rafId := None;
        }
        ResetToBase();
      }
    }

    /**
     * pagehide as the script has it: the pending frame is cancelled but the
     * handle is kept, the audio paused and the bars reset.
     */
    method PageHide()
      requires Valid()
      modifies this, smooth
      ensures Valid() && paused
      ensures rafId == old(rafId) && !loopScheduled
      ensures ranges == old(ranges) && audioReady == old(audioReady)
      ensures forall i :: 0 <= i < barCount ==> smooth[i] == BASE
      ensures old(rafId).Some? ==> !LoopTracksPlayback()
    {
      if rafId.Some? {
        loopScheduled := false;
      }
      if audioReady {
        paused := true;
      }
      ResetToBase();
    }

    /** pagehide with the handle dropped as well, as the pause branch of Click does. */
    method PageHideFixed()
      requires Valid()
      modifies this, smooth
      ensures Valid() && paused && LoopTracksPlayback()
      ensures rafId == None && !loopScheduled
      ensures ranges == old(ranges) && audioReady == old(audioReady)
      ensures forall i :: 0 <= i < barCount ==> smooth[i] == BASE
    {
      if rafId.Some? {
        loopScheduled := false;
        rafId := None;
      }
      if audioReady {
        paused := true;
      }
      ResetToBase();
    }

    /**
     * One frame callback over the analyser bytes `data`: every bar moves one
     * smoothing step toward its target, then the next frame is requested and
     * its handle `nextId` (non-zero, like every requestAnimationFrame handle) stored.
     */
    method Frame(data: seq<byte>, compress: real -> real, exp: real -> real, nextId: nat)
      requires Valid() && loopScheduled && nextId > 0
      requires |data| == BIN_COUNT && Compresses(compress) && Bell(exp)
      modifies this, smooth
      ensures Valid()
      ensures forall i :: 0 <= i < barCount ==>
        smooth[i] == Smooth(old(smooth[i]), BarTarget(ranges, data, compress, exp, i, barCount))
      ensures rafId == Some(nextId) && loopScheduled
      ensures ranges == old(ranges) && paused == old(paused) && audioReady == old(audioReady)
      ensures old(LoopTracksPlayback()) ==> LoopTracksPlayback()
    {
      for i := 0 to barCount
        invariant unchanged(this)
        invariant forall j :: 0 <= j < i ==>
          smooth[j] == Smooth(old(smooth[j]), BarTarget(ranges, data, compress, exp, j, barCount))
        invariant forall j :: 0 <= j < barCount ==> BASE <= smooth[j] <= PEAK
        invariant forall j :: i <= j < barCount ==> smooth[j] == old(smooth[j])
      {
        var r := RangeFor(ranges, i);
        var sum := SumRange(data, r.start, r.end);
        var mag := sum as real / Max(1, r.end - r.start) as real;
        assert mag == Mean(data[r.start..r.end]);
        var vRaw := compress(mag);
        var weight := exp(Exponent(i, barCount));
        var target := Target(vRaw, weight);
        BarTargetBounds(ranges, data, compress, exp, i, barCount);
        smooth[i] := Smooth(smooth[i], target);
      }
      rafId := Some(nextId);
    }
  }

  /**
   * Play, leave the page, come back and press play again: the music plays
   * but the held stale handle stops Click from starting a new frame loop.
   */
  method StaleHandleAfterPageHide() returns (playing: bool, looping: bool)
    ensures playing && !looping
  {
    var v := new Visualizer(DEFAULT_BAR_COUNT);
    var est := seq(DEFAULT_BAR_COUNT, _ => Estimate(0, 1));
    v.Click(est, true, 1);
    v.PageHide();
    v.Click(est, true, 2);
    playing, looping := !v.paused, v.loopScheduled;
  }

  /** The same sequence with the corrected pagehide restarts the loop. */
  method LoopRestartsAfterFixedPageHide() returns (playing: bool, looping: bool)
    ensures playing && looping
  {
    var v := new Visualizer(DEFAULT_BAR_COUNT);
    var est := seq(DEFAULT_BAR_COUNT, _ => Estimate(0, 1));
    v.Click(est, true, 1);
    v.PageHideFixed();
    v.Click(est, true, 2);
    playing, looping := !v.paused, v.loopScheduled;
  }
}
