/**
 * The step-delay gate that both movement scripts run in `Update`: every
 * frame adds the frame time to the timer; once the timer has reached the
 * total step time (step time plus delay) a step is attempted, and the timer
 * restarts from zero only when a direction was at hand and a step started.
 */
module StepTimer {

  /** The timer after one frame, and whether a step started on that frame. */
  datatype Tick = Tick(timer: real, starts: bool)

  function Advance(timer: real, dt: real, total: real, hasDirection: bool): (t: Tick)
    ensures t.starts <==> timer + dt >= total && hasDirection
    ensures t.starts ==> t.timer == 0.0
    ensures !t.starts ==> t.timer == timer + dt
  {
    var t := timer + dt;
    if t >= total && hasDirection then Tick(0.0, true) else Tick(t, false)
  }

  /** One frame as seen by the gate: its duration and whether a direction was at hand. */
  datatype Frame = Frame(dt: real, hasDirection: bool)

  /** The timer after a run of frames, and how many steps started during it. */
  datatype Run = Run(timer: real, steps: nat)

  function RunFrames(timer: real, total: real, frames: seq<Frame>): Run
    decreases |frames|
  {
    if frames == [] then Run(timer, 0)
    else
      var t := Advance(timer, frames[0].dt, total, frames[0].hasDirection);
      var rest := RunFrames(t.timer, total, frames[1..]);
      Run(rest.timer, rest.steps + if t.starts then 1 else 0)
  }

  /** Total time spanned by a run of frames. */
  function Elapsed(frames: seq<Frame>): real
    decreases |frames|
  {
    if frames == [] then 0.0 else frames[0].dt + Elapsed(frames[1..])
  }

  predicate NonNegative(frames: seq<Frame>) {
    forall i :: 0 <= i < |frames| ==> frames[i].dt >= 0.0
  }

  /**
   * No step starts before the timer has accumulated the total step time:
   * while the elapsed time keeps the timer below the total, every frame only
   * adds its duration.
   */
  lemma {:induction false} NoStepBeforeTotal(timer: real, total: real, frames: seq<Frame>)
    requires NonNegative(frames)
    requires timer + Elapsed(frames) < total
    ensures RunFrames(timer, total, frames) == Run(timer + Elapsed(frames), 0)
    decreases |frames|
  {
    if frames != [] {
      var rest := frames[1..];
      assert NonNegative(rest) by {
        forall i | 0 <= i < |rest| ensures rest[i].dt >= 0.0 { assert rest[i] == frames[i + 1]; }
      }
      ElapsedNonNegative(rest);
      NoStepBeforeTotal(timer + frames[0].dt, total, rest);
    }
  }

  /**
   * A step that is due but has no direction is retried: through frames with
   * no direction the timer keeps growing, so it stays at or above the total,
   * and no step starts; the next frame with a direction therefore starts one.
   */
  lemma {:induction false} DueStepWaitsForDirection(timer: real, total: real, frames: seq<Frame>)
    requires NonNegative(frames)
    requires timer >= total
    requires forall i :: 0 <= i < |frames| ==> !frames[i].hasDirection
    ensures RunFrames(timer, total, frames) == Run(timer + Elapsed(frames), 0)
    ensures timer + Elapsed(frames) >= total
    decreases |frames|
  {
    if frames != [] {
      var rest := frames[1..];
      assert NonNegative(rest) by {
        forall i | 0 <= i < |rest| ensures rest[i].dt >= 0.0 { assert rest[i] == frames[i + 1]; }
      }
      assert forall i :: 0 <= i < |rest| ==> !rest[i].hasDirection by {
        forall i | 0 <= i < |rest| ensures !rest[i].hasDirection { assert rest[i] == frames[i + 1]; }
      }
      DueStepWaitsForDirection(timer + frames[0].dt, total, rest);
    }
  }

  /**
   * Cadence: every started step consumed at least the total step time, so
   * the number of steps times the total never exceeds the starting timer plus
   * the elapsed time minus what is left on the timer.
   */
  lemma {:induction false} StepsBoundedByElapsed(timer: real, total: real, frames: seq<Frame>)
    ensures var r := RunFrames(timer, total, frames);
      r.steps as real * total <= timer + Elapsed(frames) - r.timer
    decreases |frames|
  {
    if frames != [] {
      var t := Advance(timer, frames[0].dt, total, frames[0].hasDirection);
      var rest := RunFrames(t.timer, total, frames[1..]);
      StepsBoundedByElapsed(t.timer, total, frames[1..]);
      var first := if t.starts then 1 else 0;
      assert first as real * total <= timer + frames[0].dt - t.timer;
      assert (rest.steps + first) as real * total == rest.steps as real * total + first as real * total;
    }
  }

  lemma {:induction false} ElapsedNonNegative(frames: seq<Frame>)
    requires NonNegative(frames)
    ensures Elapsed(frames) >= 0.0
    decreases |frames|
  {
    if frames != [] {
      var rest := frames[1..];
      assert NonNegative(rest) by {
        forall i | 0 <= i < |rest| ensures rest[i].dt >= 0.0 { assert rest[i] == frames[i + 1]; }
      }
      ElapsedNonNegative(rest);
    }
  }

  /**
   * From a timer that is not negative, with frames of non-negative duration,
   * at most (timer + elapsed) / total steps start.
   */
  lemma StepCountAtMost(timer: real, total: real, frames: seq<Frame>)
    requires NonNegative(frames)
    requires timer >= 0.0
    ensures RunFrames(timer, total, frames).steps as real * total <= timer + Elapsed(frames)
  {
    StepsBoundedByElapsed(timer, total, frames);
    TimerStaysNonNegative(timer, total, frames);
  }

  lemma {:induction false} TimerStaysNonNegative(timer: real, total: real, frames: seq<Frame>)
    requires NonNegative(frames)
    requires timer >= 0.0
    ensures RunFrames(timer, total, frames).timer >= 0.0
    decreases |frames|
  {
    if frames != [] {
      var rest := frames[1..];
      assert NonNegative(rest) by {
        forall i | 0 <= i < |rest| ensures rest[i].dt >= 0.0 { assert rest[i] == frames[i + 1]; }
      }
      TimerStaysNonNegative(Advance(timer, frames[0].dt, total, frames[0].hasDirection).timer, total, rest);
    }
  }
}
