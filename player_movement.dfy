/**
 * The controllable actor: the proximity list that switches step-by-step
 * movement on and off, the sign-quantised move from the two analog axes,
 * and the step-delay gate in front of it.
 */
module PlayerMovement {
  import opened Optional
  import opened Lattice
  import StepTimer
  import GameSettings
  import EnemyMovement

  /** A collider reported by a trigger zone, with its tag. */
  datatype Collider = Collider(id: nat, tag: string)

  const EnemyTag := "Enemy"

  /** The global movement events the player raises. */
  datatype Signal = StartsMoving | FinishedMoving

  /** Index of the first occurrence of `x` in `s`. */
  function FirstIndex<T(==)>(s: seq<T>, x: T): (i: nat)
    requires x in s
    ensures i < |s| && s[i] == x && x !in s[..i]
    decreases |s|
  {
    if s[0] == x then 0
    else
      assert s[1..][..FirstIndex(s[1..], x)] == s[1..FirstIndex(s[1..], x) + 1];
      FirstIndex(s[1..], x) + 1
  }

  /**
   * Removal of one occurrence from a list, as the list's own Remove does it:
   * the first occurrence goes, and a list without the element is unchanged.
   */
  function RemoveFirst<T(==)>(s: seq<T>, x: T): (r: seq<T>)
    ensures x in s ==> r == s[..FirstIndex(s, x)] + s[FirstIndex(s, x) + 1..]
    ensures x !in s ==> r == s
    decreases |s|
  {
    if s == [] then []
    else if s[0] == x then s[1..]
    else
      var r := [s[0]] + RemoveFirst(s[1..], x);
      assert x in s ==> r == s[..FirstIndex(s, x)] + s[FirstIndex(s, x) + 1..] by {
        if x in s {
          var i := FirstIndex(s[1..], x);
          assert FirstIndex(s, x) == i + 1;
          assert s[..i + 1] == [s[0]] + s[1..][..i];
          assert s[i + 2..] == s[1..][i + 1..];
        }
      }
      assert x !in s ==> r == s by {
        if x !in s { assert s == [s[0]] + s[1..]; }
      }
      r
  }

  /** Removing one occurrence takes exactly one copy of the element out of the list's multiset. */
  lemma RemoveFirstTakesOneCopy<T>(s: seq<T>, x: T)
    requires x in s
    ensures multiset(RemoveFirst(s, x)) == multiset(s) - multiset{x}
    ensures |RemoveFirst(s, x)| == |s| - 1
  {
    var i := FirstIndex(s, x);
    var before, after := s[..i], s[i + 1..];
    assert s == before + [x] + after;
    assert RemoveFirst(s, x) == before + after;
    calc {
      multiset(s) - multiset{x};
      multiset(before + [x] + after) - multiset{x};
      (multiset(before) + multiset{x} + multiset(after)) - multiset{x};
      multiset(before) + multiset(after);
      multiset(before + after);
    }
  }

  class Player {
    /** The player's hit points and animator; an enemy's attack lands here. */
    const body: EnemyMovement.Actor
    const settings: GameSettings.Settings
    const stepTime: real
    const stepDelayTime: real
    var stepDelayTimer: real
    var position: Point
    /** Enemy colliders currently inside the proximity trigger, in arrival order. */
    var enemiesAround: seq<Collider>
    /** Written by the lockstep scheduler; see README. */
    var canMove: bool
    var signals: seq<Signal>

    /** The step time plus the delay between steps. */
    function TotalStepTime(): (total: real)
      ensures total - stepDelayTime == stepTime
    {
      stepTime + stepDelayTime
    }

    /** The step-by-step flag is on exactly while an enemy is around. */
    ghost predicate ProximityAgrees()
      reads this, settings
    {
      settings.isStepByStep <==> enemiesAround != []
    }

    /** Placement in the scene followed by `Start`, which makes the first step due at once. */
    constructor (settings: GameSettings.Settings, hp: int, stepTime: real, stepDelayTime: real, position: Point)
      requires stepTime > 0.0
      ensures this.settings == settings && fresh(body) && body.hp == hp && body.animator == []
      ensures this.stepTime == stepTime && this.stepDelayTime == stepDelayTime
      ensures this.position == position && stepDelayTimer == TotalStepTime()
      ensures enemiesAround == [] && canMove && signals == []
      ensures ProximityAgrees() <==> !settings.isStepByStep
    {
      this.settings := settings;
      body := new EnemyMovement.Actor(hp);
      this.stepTime := stepTime;
      this.stepDelayTime := stepDelayTime;
      this.position := position;
      stepDelayTimer := stepTime + stepDelayTime;
      enemiesAround := [];
      canMove := true;
      signals := [];
    }

    /**
     * One frame: the timer runs the step-delay gate, with a direction at hand
     * whenever either axis is off centre; a started step is a walk to the
     * sign-quantised neighbouring cell.
     */
    method Update(dt: real, h: real, v: real) returns (started: Option<EnemyMovement.Action>)
      requires stepTime > 0.0
      modifies this`stepDelayTimer, this`signals, body`animator
      ensures var tick := StepTimer.Advance(old(stepDelayTimer), dt, TotalStepTime(), h != 0.0 || v != 0.0);
        && stepDelayTimer == tick.timer
        && started == (if tick.starts then Some(EnemyMovement.Walk(position, Add(position, Quantise(h, v)))) else None)
      ensures body.animator == old(body.animator) + EnemyMovement.StartTriggers(started)
      ensures signals == old(signals) + (if started.Some? then [StartsMoving] else [])
    {
      stepDelayTimer := stepDelayTimer + dt;
      started := None;
      if stepDelayTimer >= TotalStepTime() {
        started := Move(h, v);
      }
    }

    /**
     * A move attempt. With both axes at zero nothing happens. Otherwise the
     * Move trigger fires, the timer restarts, and the walk coroutine starts,
     * raising StartsMoving before the player has left its cell.
     */
    method Move(h: real, v: real) returns (started: Option<EnemyMovement.Action>)
      requires stepTime > 0.0
      modifies this`stepDelayTimer, this`signals, body`animator
      ensures h == 0.0 && v == 0.0 ==>
        started == None && stepDelayTimer == old(stepDelayTimer)
        && signals == old(signals) && body.animator == old(body.animator)
      ensures h != 0.0 || v != 0.0 ==>
        && started == Some(EnemyMovement.Walk(position, Add(position, Quantise(h, v))))
        && IsKingStep(Quantise(h, v))
        && stepDelayTimer == 0.0
        && body.animator == old(body.animator) + [EnemyMovement.MoveTrigger]
        && signals == old(signals) + [StartsMoving]
    {
      started := None;
      if h != 0.0 || v != 0.0 {
        var step := Quantise(h, v);
        body.animator := body.animator + [EnemyMovement.MoveTrigger];
        stepDelayTimer := 0.0;
        started := Some(EnemyMovement.Walk(position, Add(position, step)));
        signals := signals + [StartsMoving];
      }
    }

    /** The rest of the walk coroutine: the player ends on the target cell, then FinishedMoving is raised. */
    method FinishMove(walk: EnemyMovement.Action)
      requires walk.Walk?
      modifies this`position, this`signals
      ensures position == walk.end
      ensures signals == old(signals) + [FinishedMoving]
    {
      position := walk.end;
      signals := signals + [FinishedMoving];
    }

    /**
     * A collider entered the proximity trigger. Only an Enemy counts: it is
     * appended to the list and step-by-step movement is switched on.
     */
    method StartSbsOnTriggerEnter(other: Collider)
      modifies this`enemiesAround, settings
      ensures other.tag != EnemyTag ==>
        enemiesAround == old(enemiesAround) && settings.isStepByStep == old(settings.isStepByStep)
      ensures other.tag == EnemyTag ==>
        enemiesAround == old(enemiesAround) + [other] && settings.isStepByStep
      ensures old(ProximityAgrees()) ==> ProximityAgrees()
    {
      if other.tag != EnemyTag {
        return;
      }
      enemiesAround := enemiesAround + [other];
      settings.isStepByStep := true;
    }

    /**
     * A collider left the outer trigger. Only an Enemy counts: one occurrence
     * of it leaves the list, and step-by-step movement is switched off when
     * the list is then empty; otherwise the flag is left as it was.
     */
    method EndSbsOnTriggerExit(other: Collider)
      modifies this`enemiesAround, settings
      ensures other.tag != EnemyTag ==>
        enemiesAround == old(enemiesAround) && settings.isStepByStep == old(settings.isStepByStep)
      ensures other.tag == EnemyTag ==>
        && enemiesAround == RemoveFirst(old(enemiesAround), other)
        && settings.isStepByStep == (enemiesAround != [] && old(settings.isStepByStep))
      ensures old(ProximityAgrees()) ==> ProximityAgrees()
    {
      if other.tag != EnemyTag {
        return;
      }
      enemiesAround := RemoveFirst(enemiesAround, other);
      if |enemiesAround| == 0 {
        settings.isStepByStep := false;
      }
    }
  }
}
