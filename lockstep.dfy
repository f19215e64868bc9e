/**
 * One lockstep round: after the player's step ends with step-by-step
 * movement on, every enemy is asked for its step, in array order, with the
 * player as the target. Both step managers run this same loop.
 */
module Lockstep {
  import opened Optional
  import opened Lattice
  import opened EnemyMovement

  /** No enemy's hit points are shared with another enemy in the list. */
  ghost predicate DistinctBodies(enemies: seq<Enemy>) {
    forall i, j :: 0 <= i < j < |enemies| ==> enemies[i].body != enemies[j].body
  }

  ghost function Bodies(enemies: seq<Enemy>): set<Actor> {
    set i | 0 <= i < |enemies| :: enemies[i].body
  }

  /**
   * What a round leaves behind: the i-th started coroutine is the one enemy
   * i chooses from its own state and the target's hit points as they were
   * before the round (a round deals no damage while it runs, so every
   * attack of the round is judged against the same hit points), each enemy
   * fired exactly its own start trigger, and no hit points changed.
   */
  twostate predicate RoundDone(enemies: seq<Enemy>, target: Actor, rolls: seq<Roll>, new started: seq<Option<Action>>)
    reads (set e | e in enemies), Bodies(enemies), target
  {
    && |rolls| == |enemies| == |started|
    && target.hp == old(target.hp)
    && forall i :: 0 <= i < |enemies| ==>
         && started[i] == ChooseAction(old(enemies[i].body.hp), enemies[i].position, enemies[i].damage, old(target.hp), rolls[i])
         && enemies[i].body.animator == old(enemies[i].body.animator) + StartTriggers(started[i])
         && enemies[i].body.hp == old(enemies[i].body.hp)
  }

  /** `DoStep(target)` on each enemy in array order; the started coroutines are returned in that order. */
  method DoSteps(enemies: seq<Enemy>, target: Actor, rolls: seq<Roll>) returns (started: seq<Option<Action>>)
    requires |rolls| == |enemies|
    requires DistinctBodies(enemies)
    requires forall e :: e in enemies ==> e.stepTime > 0.0
    modifies Bodies(enemies)
    ensures RoundDone(enemies, target, rolls, started)
  {
    started := [];
    for i := 0 to |enemies|
      invariant |started| == i
      invariant target.hp == old(target.hp)
      invariant forall k :: 0 <= k < |enemies| ==> enemies[k].body.hp == old(enemies[k].body.hp)
      invariant forall k :: 0 <= k < i ==>
        && started[k] == ChooseAction(old(enemies[k].body.hp), enemies[k].position, enemies[k].damage, old(target.hp), rolls[k])
        && enemies[k].body.animator == old(enemies[k].body.animator) + StartTriggers(started[k])
      invariant forall k :: i <= k < |enemies| ==> enemies[k].body.animator == old(enemies[k].body.animator)
    {
      var s := enemies[i].DoStep(target, rolls[i]);
      started := started + [s];
    }
  }
}
