/**
 * The lockstep scheduler that collects the scene's enemies at start: it runs
 * a round when the player's step ends in step-by-step mode, and does nothing
 * else.
 */
module EnemiesStepsManager {
  import opened Optional
  import opened EnemyMovement
  import PlayerMovement
  import Lockstep

  class EnemiesStepsManager {
    const player: PlayerMovement.Player
    var enemies: seq<Enemy>

    ghost predicate Valid()
      reads this
    {
      && Lockstep.DistinctBodies(enemies) && player.body !in Lockstep.Bodies(enemies)
      && (forall e :: e in enemies ==> e.stepTime > 0.0)
    }

    constructor (player: PlayerMovement.Player)
      ensures this.player == player && enemies == []
    {
      this.player := player;
      enemies := [];
    }

    /** `Start`: the enemies found in the scene, each once, become the fixed list. */
    method Start(found: seq<Enemy>)
      requires Lockstep.DistinctBodies(found) && player.body !in Lockstep.Bodies(found)
      requires forall e :: e in found ==> e.stepTime > 0.0
      modifies this`enemies
      ensures enemies == found && Valid()
    {
      enemies := found;
    }

    /** The step-start handler does nothing. */
    method OnStepStart()
      ensures unchanged(this, player, player.body, player.settings)
    {
    }

    /**
     * The step-end handler: with step-by-step movement on, a round runs;
     * otherwise nothing happens. The list and the player are left alone.
     */
    method OnStepEnd(rolls: seq<Roll>) returns (started: seq<Option<Action>>)
      requires Valid()
      requires |rolls| == |enemies|
      modifies Lockstep.Bodies(enemies)
      ensures enemies == old(enemies)
      ensures unchanged(player, player.body, player.settings)
      ensures !player.settings.isStepByStep ==> started == [] && unchanged(Lockstep.Bodies(enemies))
      ensures player.settings.isStepByStep ==> Lockstep.RoundDone(enemies, player.body, rolls, started)
    {
      started := [];
      if player.settings.isStepByStep {
        started := Lockstep.DoSteps(enemies, player.body, rolls);
      }
    }
  }
}
