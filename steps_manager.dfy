/**
 * The lockstep scheduler with a serialized enemy list: it runs a round when
 * the player's step ends in step-by-step mode and then keeps the player from
 * moving for one enemy step.
 */
module StepsManager {
  import opened Optional
  import opened EnemyMovement
  import PlayerMovement
  import Lockstep

  class StepsManager {
    const player: PlayerMovement.Player
    const enemies: seq<Enemy>
    /** Delays of the wait coroutines that are still waiting, oldest first. */
    var waits: seq<real>

    ghost predicate Valid() {
      && Lockstep.DistinctBodies(enemies) && player.body !in Lockstep.Bodies(enemies)
      && (forall e :: e in enemies ==> e.stepTime > 0.0)
    }

    constructor (player: PlayerMovement.Player, enemies: seq<Enemy>)
      requires Lockstep.DistinctBodies(enemies) && player.body !in Lockstep.Bodies(enemies)
      requires forall e :: e in enemies ==> e.stepTime > 0.0
      ensures this.player == player && this.enemies == enemies && waits == []
      ensures Valid()
    {
      this.player := player;
      this.enemies := enemies;
      waits := [];
    }

    /** The step-start handler does nothing. */
    method OnStepStart()
      ensures unchanged(player, player.body, player.settings)
    {
    }

    /**
     * The step-end handler. With step-by-step movement off nothing happens.
     * With it on, a round runs, then the wait coroutine starts: it bars the
     * player from moving and waits the first enemy's total step time. With no
     * enemy in the list, reading the first enemy fails inside the coroutine
     * after the bar is set, so the player stays barred and no wait is queued.
     */
    method OnStepEnd(rolls: seq<Roll>) returns (started: seq<Option<Action>>)
      requires Valid()
      requires |rolls| == |enemies|
      modifies Lockstep.Bodies(enemies), player`canMove, this`waits
      ensures unchanged(player.body, player.settings)
      ensures !player.settings.isStepByStep ==>
        && started == []
        && unchanged(Lockstep.Bodies(enemies))
        && player.canMove == old(player.canMove)
        && waits == old(waits)
      ensures player.settings.isStepByStep ==>
        && Lockstep.RoundDone(enemies, player.body, rolls, started)
        && !player.canMove
        && waits == old(waits) + (if enemies == [] then [] else [enemies[0].TotalStepTime()])
    {
      started := [];
      if player.settings.isStepByStep {
        started := Lockstep.DoSteps(enemies, player.body, rolls);
        player.canMove := false;
        if |enemies| > 0 {
          waits := waits + [enemies[0].TotalStepTime()];
        }
      }
    }

    /** The oldest wait has run out its delay: the player may move again. */
    method WaitElapsed()
      requires waits != []
      modifies this`waits, player`canMove
      ensures waits == old(waits[1..])
      ensures player.canMove
    {
      waits := waits[1..];
      player.canMove := true;
    }
  }
}
