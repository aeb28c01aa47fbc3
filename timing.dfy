/** The timing-game oscillator shared by both cooking implementations: a phase in degrees
    advanced by 2 per animation frame, wrapping at 360, with a success window (160, 200). */
module Timing {

  const FullTurn := 360
  const PhaseStep := 2
  const WindowLow := 160
  const WindowHigh := 200

  /** The phase always lies in [0, 360). */
  predicate IsPhase(phase: int) {
    0 <= phase < FullTurn
  }

  /** One animation frame: `(phase + 2) % 360`. The phase is never negative, so
      JavaScript's truncating `%` and Dafny's Euclidean `%` agree. */
  function NextPhase(phase: int): (p: int)
    requires IsPhase(phase)
    ensures IsPhase(p)
    ensures phase + PhaseStep < FullTurn ==> p == phase + PhaseStep
    ensures phase + PhaseStep >= FullTurn ==> p == phase + PhaseStep - FullTurn
  {
    (phase + PhaseStep) % FullTurn
  }

  /** The success window: strictly between 160 and 200 degrees. */
  predicate InPerfectZone(phase: int) {
    WindowLow < phase < WindowHigh
  }

  /** The phase after `frames` frames of a loop that restarts at 0. */
  function PhaseAfter(frames: nat): (p: int)
    ensures IsPhase(p)
  {
    if frames == 0 then 0 else NextPhase(PhaseAfter(frames - 1))
  }

  /** Closed form: after n frames the phase is 2n mod 360. */
  lemma {:induction false} PhaseAfterClosedForm(frames: nat)
    ensures PhaseAfter(frames) == (PhaseStep * frames) % FullTurn
  {
    if frames > 0 {
      PhaseAfterClosedForm(frames - 1);
      var q := (PhaseStep * (frames - 1)) / FullTurn;
      var r := (PhaseStep * (frames - 1)) % FullTurn;
      assert PhaseStep * (frames - 1) == q * FullTurn + r;
      assert PhaseStep * frames == q * FullTurn + (r + PhaseStep);
      if r + PhaseStep < FullTurn {
        assert (PhaseStep * frames) % FullTurn == r + PhaseStep;
      } else {
        assert PhaseStep * frames == (q + 1) * FullTurn + (r + PhaseStep - FullTurn);
        assert (PhaseStep * frames) % FullTurn == r + PhaseStep - FullTurn;
      }
    }
  }

  /** During the first half-turn of frames the phase is exactly twice the frame count. */
  lemma {:induction false} PhaseFirstCycle(frames: nat)
    requires frames < 180
    ensures PhaseAfter(frames) == PhaseStep * frames
  {
    if frames > 0 {
      PhaseFirstCycle(frames - 1);
    }
  }

  /** The phase repeats every 180 frames. */
  lemma {:induction false} PhasePeriodic(frames: nat)
    ensures PhaseAfter(frames + 180) == PhaseAfter(frames)
  {
    if frames == 0 {
      PhaseFirstCycle(179);
    } else {
      PhasePeriodic(frames - 1);
    }
  }

  lemma {:induction false} PhaseCycles(q: nat, m: nat)
    requires m < 180
    ensures PhaseAfter(180 * q + m) == PhaseStep * m
  {
    if q == 0 {
      PhaseFirstCycle(m);
    } else {
      PhaseCycles(q - 1, m);
      PhasePeriodic(180 * (q - 1) + m);
    }
  }

  /** The success window is open exactly on frames 81..99 of every 180-frame cycle. */
  lemma PerfectFrames(frames: nat)
    ensures InPerfectZone(PhaseAfter(frames)) <==> 81 <= frames % 180 <= 99
  {
    PhaseCycles(frames / 180, frames % 180);
  }

  /** However long the player waits, every stretch of 180 consecutive frames contains a
      frame inside the success window, so the timing step can always be completed. */
  lemma PerfectWithinCycle(from: nat)
    ensures exists frames: nat :: from <= frames < from + 180 && InPerfectZone(PhaseAfter(frames))
  {
    var m := from % 180;
    var frames: nat := if m <= 81 then from + (81 - m) else from + (180 - m) + 81;
    assert frames % 180 == 81 by {
      assert from == 180 * (from / 180) + m;
      if m <= 81 {
        assert frames == 180 * (from / 180) + 81;
      } else {
        assert frames == 180 * (from / 180 + 1) + 81;
      }
    }
    PerfectFrames(frames);
  }
}
