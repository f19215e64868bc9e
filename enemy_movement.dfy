/**
 * An autonomous actor: its hit points, its random direction choice, its
 * free-running step gate and the lockstep step the scheduler asks of it,
 * which is either a free move or an attack on the player.
 */
module EnemyMovement {
  import opened Optional
  import opened Lattice
  import StepTimer
  import GameSettings

  /** The animator triggers the movement scripts fire. */
  datatype Trigger = MoveTrigger | AttackTrigger | FatalAttackTrigger | DeadTrigger

  /**
   * A coroutine a step starts, reduced to where it begins, the cell it heads
   * for and the damage it deals on arrival. `Strike` is the non-lethal
   * attack (advance half a step, deal damage, retreat); `FatalStrike` is the
   * lethal one (advance a full step, deal damage, stay).
   */
  datatype Action =
    | Walk(start: Point, end: Point)
    | Strike(start: Point, end: Point, damage: int)
    | FatalStrike(start: Point, end: Point, damage: int)

  /** Where the coroutine leaves the actor once it has run to the end. */
  function FinalPosition(a: Action): (p: Point)
    ensures a.Strike? ==> p == a.start
    ensures !a.Strike? ==> p == a.end
  {
    match a
    case Walk(_, end) => end
    case Strike(start, _, _) => start
    case FatalStrike(_, end, _) => end
  }

  function DamageDealt(a: Action): int {
    if a.Walk? then 0 else a.damage
  }

  /** The trigger fired when the coroutine starts. */
  function StartTrigger(a: Action): (t: Trigger)
    ensures t != DeadTrigger
    ensures (t == MoveTrigger <==> a.Walk?) && (t == AttackTrigger <==> a.Strike?)
    ensures t == FatalAttackTrigger <==> a.FatalStrike?
  {
    match a
    case Walk(_, _) => MoveTrigger
    case Strike(_, _, _) => AttackTrigger
    case FatalStrike(_, _, _) => FatalAttackTrigger
  }

  function StartTriggers(started: Option<Action>): seq<Trigger> {
    if started.Some? then [StartTrigger(started.value)] else []
  }

  /** Whether an actor with `hp` hit points survives a hit of `damage`. */
  predicate AliveAfterDamage(hp: int, damage: int) {
    hp - damage > 0
  }

  /** The Dead trigger fires whenever a hit leaves the hit points at or below zero. */
  function DeathTriggers(hp: int): seq<Trigger> {
    if hp <= 0 then [DeadTrigger] else []
  }

  /**
   * The hit-point side of an actor, together with its animator's trigger
   * log. The enemy keeps its own; the player's is what an enemy attacks.
   */
  class Actor {
    var hp: int
    var animator: seq<Trigger>

    constructor (hp: int)
      ensures this.hp == hp && animator == []
    {
      this.hp := hp;
      animator := [];
    }

    /** An actor moves only while its hit points are positive. */
    predicate CanMove()
      reads this
      ensures CanMove() <==> hp >= 1
    {
      hp > 0
    }

    /** Asks, without changing anything, whether a hit of `damage` leaves the actor alive. */
    method IsAliveAfterDamage(damage: int) returns (alive: bool)
      ensures alive <==> hp - damage > 0
      ensures alive == AliveAfterDamage(hp, damage)
    {
      alive := hp - damage > 0;
    }

    /**
     * Lowers the hit points by exactly `damage`; fires Dead when they end at
     * or below zero, again on every further hit (there is no once-only guard).
     * The actor can still move afterwards exactly when IsAliveAfterDamage
     * would have answered yes beforehand.
     */
    method GetDamage(damage: int)
      modifies this
      ensures hp == old(hp) - damage
      ensures animator == old(animator) + DeathTriggers(hp)
      ensures CanMove() <==> AliveAfterDamage(old(hp), damage)
    {
      hp := hp - damage;
      if hp <= 0 {
        animator := animator + [DeadTrigger];
      }
    }
  }

  /**
   * The direction draw: two integers, each drawn from {-1, 0, 1}, become a
   * lattice step, or no step when both are zero.
   */
  function GetMoveDirection(h: int, v: int): (d: Option<Point>)
    ensures d.None? <==> h == 0 && v == 0
    ensures d.Some? ==> IsKingStep(d.value)
    ensures d.Some? && -1 <= h <= 1 && -1 <= v <= 1 ==> d.value == Point(h, v)
  {
    if h == 0 && v == 0 then None else Some(Quantise(h as real, v as real))
  }

  /**
   * What chance and geometry decide for one lockstep step: the two random
   * draws, and whether the player stands within reach of the chosen cell.
   */
  datatype Roll = Roll(h: int, v: int, inReach: bool)

  /**
   * The coroutine a lockstep step starts: none for a dead enemy or an empty
   * draw; otherwise a walk to the neighbouring cell, or, with the player in
   * reach of it, an attack that is lethal exactly when the target's hit
   * points would not survive the enemy's damage. Only the non-lethal attack
   * brings the enemy back to where it started.
   */
  function ChooseAction(hp: int, position: Point, damage: int, targetHp: int, roll: Roll): (a: Option<Action>)
    ensures a.None? <==> hp <= 0 || (roll.h == 0 && roll.v == 0)
    ensures a.Some? ==> a.value.start == position && IsKingStep(Point(a.value.end.x - position.x, a.value.end.y - position.y))
    ensures a.Some? ==> a.value.end == Add(position, GetMoveDirection(roll.h, roll.v).value)
    ensures a.Some? ==> (a.value.Walk? <==> !roll.inReach)
    ensures a.Some? && !a.value.Walk? ==> a.value.damage == damage && (a.value.FatalStrike? <==> targetHp - damage <= 0)
    ensures a.Some? ==> (FinalPosition(a.value) == position <==> a.value.Strike?)
  {
    if hp <= 0 then None
    else match GetMoveDirection(roll.h, roll.v)
      case None => None
      case Some(dir) =>
        var end := Add(position, dir);
        if !roll.inReach then Some(Walk(position, end))
        else if AliveAfterDamage(targetHp, damage) then Some(Strike(position, end, damage))
        else Some(FatalStrike(position, end, damage))
  }

  class Enemy {
    const body: Actor
    const damage: int
    const stepTime: real
    const stepDelayTime: real
    var stepDelayTimer: real
    var position: Point

    /** The step time plus the delay between steps. */
    function TotalStepTime(): (total: real)
      ensures total - stepDelayTime == stepTime
    {
      stepTime + stepDelayTime
    }

    predicate CanMove()
      reads body
    {
      body.CanMove()
    }

    /** Placement in the scene followed by `Start`, which makes the first step due at once. */
    constructor (hp: int, damage: int, stepTime: real, stepDelayTime: real, position: Point)
      requires stepTime > 0.0
      ensures fresh(body) && body.hp == hp && body.animator == []
      ensures this.damage == damage && this.stepTime == stepTime && this.stepDelayTime == stepDelayTime
      ensures this.position == position
      ensures stepDelayTimer == TotalStepTime()
    {
      body := new Actor(hp);
      this.damage := damage;
      this.stepTime := stepTime;
      this.stepDelayTime := stepDelayTime;
      this.position := position;
      stepDelayTimer := stepTime + stepDelayTime;
    }

    /**
     * One frame in free-running mode. A dead enemy, or any enemy while
     * step-by-step movement is on, leaves its timer, its animator and its
     * position alone. Otherwise the timer runs the step-delay gate, and a
     * step that starts is always a walk (this path never attacks).
     */
    method Update(settings: GameSettings.Settings, dt: real, h: int, v: int) returns (started: Option<Action>)
      requires stepTime > 0.0
      modifies this`stepDelayTimer, body`animator
      ensures position == old(position) && body.hp == old(body.hp)
      ensures !CanMove() || settings.isStepByStep ==>
        stepDelayTimer == old(stepDelayTimer) && body.animator == old(body.animator) && started == None
      ensures CanMove() && !settings.isStepByStep ==>
        var tick := StepTimer.Advance(old(stepDelayTimer), dt, TotalStepTime(), GetMoveDirection(h, v).Some?);
        && stepDelayTimer == tick.timer
        && started == (if tick.starts then Some(Walk(position, Add(position, GetMoveDirection(h, v).value))) else None)
        && body.animator == old(body.animator) + StartTriggers(started)
    {
      started := None;
      if !CanMove() {
        return;
      }
      if settings.isStepByStep {
        return;
      }
      stepDelayTimer := stepDelayTimer + dt;
      if stepDelayTimer >= TotalStepTime() {
        var dir := GetMoveDirection(h, v);
        if dir.Some? {
          stepDelayTimer := 0.0;
          started := Some(Walk(position, Add(position, dir.value)));
          body.animator := body.animator + [MoveTrigger];
        }
      }
    }

    /**
     * The step the lockstep scheduler asks for: its synchronous part, up to
     * the first frame of the started coroutine. It fires the start trigger
     * and decides attack against free move, and lethal against non-lethal,
     * from the target's hit points now; nothing moves and no damage is dealt
     * yet (see Complete). The step timer is not touched. With a positive step
     * time every coroutine yields on its first frame, which is what makes
     * this split hold.
     */
    method DoStep(target: Actor, roll: Roll) returns (started: Option<Action>)
      requires stepTime > 0.0
      modifies body`animator
      ensures started == ChooseAction(body.hp, position, damage, target.hp, roll)
      ensures body.animator == old(body.animator) + StartTriggers(started)
      ensures !CanMove() ==> started == None && body.animator == old(body.animator)
    {
      started := None;
      if !CanMove() {
        return;
      }
      var dir := GetMoveDirection(roll.h, roll.v);
      if dir.Some? {
        var end := Add(position, dir.value);
        if roll.inReach {
          var alive := target.IsAliveAfterDamage(damage);
          if alive {
            started := Some(Strike(position, end, damage));
            body.animator := body.animator + [AttackTrigger];
          } else {
            started := Some(FatalStrike(position, end, damage));
            body.animator := body.animator + [FatalAttackTrigger];
          }
        } else {
          started := Some(Walk(position, end));
          body.animator := body.animator + [MoveTrigger];
        }
      }
    }

    /**
     * The rest of a started coroutine, once it has run its frames: the enemy
     * ends at the coroutine's final position, and an attack deals its damage
     * to the target exactly once.
     */
    method Complete(a: Action, target: Actor)
      modifies this`position, target
      ensures position == FinalPosition(a)
      ensures target.hp == old(target.hp) - DamageDealt(a)
      ensures target.animator == old(target.animator) + (if a.Walk? then [] else DeathTriggers(target.hp))
      ensures !a.Walk? ==> (target.CanMove() <==> AliveAfterDamage(old(target.hp), a.damage))
      ensures !a.Walk? ==>
        target.hp == AfterHits(old(target.hp), [a.damage]).0
        && target.animator == old(target.animator) + AfterHits(old(target.hp), [a.damage]).1
    {
      match a
      case Walk(_, end) =>
        position := end;
      case Strike(start, end, d) =>
        position := end;
        target.GetDamage(d);
        position := start;
      case FatalStrike(_, end, d) =>
        position := end;
        target.GetDamage(d);
    }
  }

  function Sum(hits: seq<int>): int
    decreases |hits|
  {
    if hits == [] then 0 else hits[0] + Sum(hits[1..])
  }

  /**
   * Hit points and Dead triggers after a run of hits, one GetDamage each
   * (Complete lands an attack as a run of one hit). The hit points drop by
   * the sum of the hits, each hit fires at most one trigger, and every
   * trigger fired is Dead.
   */
  function AfterHits(hp: int, hits: seq<int>): (r: (int, seq<Trigger>))
    ensures r.0 == hp - Sum(hits)
    ensures |r.1| <= |hits|
    ensures forall t :: t in r.1 ==> t == DeadTrigger
    decreases |hits|
  {
    if hits == [] then (hp, [])
    else
      var next := hp - hits[0];
      var rest := AfterHits(next, hits[1..]);
      (rest.0, DeathTriggers(next) + rest.1)
  }

  /**
   * Landing a run of hits is landing its first part, then the rest on the
   * hit points that part leaves. With OneHit this says which hit of a run
   * fires Dead: exactly those after which the hit points are at or below
   * zero.
   */
  lemma {:induction false} AfterHitsSplit(hp: int, a: seq<int>, b: seq<int>)
    ensures AfterHits(hp, a + b)
      == (AfterHits(hp - Sum(a), b).0, AfterHits(hp, a).1 + AfterHits(hp - Sum(a), b).1)
    decreases |a|
  {
    if a == [] {
      assert a + b == b;
      assert AfterHits(hp, a).1 + AfterHits(hp, b).1 == AfterHits(hp, b).1;
    } else {
      var next := hp - a[0];
      assert (a + b)[0] == a[0];
      assert (a + b)[1..] == a[1..] + b;
      AfterHitsSplit(next, a[1..], b);
      assert next - Sum(a[1..]) == hp - Sum(a);
      var first := DeathTriggers(next);
      var restA := AfterHits(next, a[1..]).1;
      var restB := AfterHits(hp - Sum(a), b).1;
      assert AfterHits(hp, a).1 == first + restA;
      assert AfterHits(hp, a + b).1 == first + (restA + restB);
      assert first + (restA + restB) == (first + restA) + restB;
    }
  }

  /** A single hit is one GetDamage. */
  lemma OneHit(hp: int, damage: int)
    ensures AfterHits(hp, [damage]) == (hp - damage, DeathTriggers(hp - damage))
  {
    assert [damage][1..] == [];
    assert AfterHits(hp - damage, []) == (hp - damage, []);
    assert DeathTriggers(hp - damage) + [] == DeathTriggers(hp - damage);
  }

  /**
   * A strike judged against the hit points it then lands on is judged
   * right: it is the lethal kind exactly when landing its damage takes the
   * target to zero or below, and exactly then does the landing fire Dead.
   */
  lemma StrikeVerdictHolds(hp: int, position: Point, damage: int, targetHp: int, roll: Roll)
    requires ChooseAction(hp, position, damage, targetHp, roll).Some?
    requires !ChooseAction(hp, position, damage, targetHp, roll).value.Walk?
    ensures var a := ChooseAction(hp, position, damage, targetHp, roll).value;
      var landed := AfterHits(targetHp, [DamageDealt(a)]);
      && (a.FatalStrike? <==> landed.0 <= 0)
      && (a.FatalStrike? <==> landed.1 == [DeadTrigger])
  {
  }

  /**
   * Two attacks started in the same round are both judged against the hit
   * points before the round. When each alone would leave the target alive
   * but together they do not, both start as the non-lethal kind (the
   * Attack trigger, ending back at the start), yet landing both takes the
   * target to zero or below and fires Dead: the target dies with no fatal
   * attack played.
   */
  lemma SimultaneousStrikesCanKill(hp1: int, position1: Point, damage1: int, roll1: Roll,
                                   hp2: int, position2: Point, damage2: int, roll2: Roll,
                                   targetHp: int)
    requires hp1 > 0 && hp2 > 0
    requires roll1.inReach && (roll1.h, roll1.v) != (0, 0)
    requires roll2.inReach && (roll2.h, roll2.v) != (0, 0)
    requires targetHp - damage1 > 0 && targetHp - damage2 > 0
    requires targetHp - damage1 - damage2 <= 0
    ensures var a1 := ChooseAction(hp1, position1, damage1, targetHp, roll1);
            var a2 := ChooseAction(hp2, position2, damage2, targetHp, roll2);
            && a1.Some? && a1.value.Strike? && FinalPosition(a1.value) == position1
            && a2.Some? && a2.value.Strike? && FinalPosition(a2.value) == position2
            && AfterHits(targetHp, [DamageDealt(a1.value), DamageDealt(a2.value)]).0 <= 0
            && AfterHits(targetHp, [DamageDealt(a1.value), DamageDealt(a2.value)]).1 == [DeadTrigger]
  {
  }

  /**
   * There is no once-only guard on death: once the hit points are at or
   * below zero, every further non-negative hit fires Dead again.
   */
  lemma {:induction false} DeadFiresOnEveryLaterHit(hp: int, hits: seq<int>)
    requires hp <= 0
    requires forall i :: 0 <= i < |hits| ==> hits[i] >= 0
    ensures AfterHits(hp, hits).1 == seq(|hits|, _ => DeadTrigger)
    decreases |hits|
  {
    if hits != [] {
      var rest := hits[1..];
      assert forall i :: 0 <= i < |rest| ==> rest[i] >= 0 by {
        forall i | 0 <= i < |rest| ensures rest[i] >= 0 { assert rest[i] == hits[i + 1]; }
      }
      DeadFiresOnEveryLaterHit(hp - hits[0], rest);
      assert seq(|hits|, _ => DeadTrigger) == [DeadTrigger] + seq(|rest|, _ => DeadTrigger);
    }
  }
}
