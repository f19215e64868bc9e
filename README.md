# Step and combat core of a lockstep tactics game

This project models the movement and combat core of a small Unity game. There
is one player-controlled actor and several enemies on a ground-plane lattice.
It covers four scripts:

- **EnemyMovement**: an enemy's hit points, its random choice of a
  neighbouring cell, its free-running step-delay gate, and the step a lockstep
  round asks of it. That step is a walk, a non-lethal attack (advance, deal
  damage, retreat) or a lethal attack (advance, deal damage, stay).
- **PlayerMovement**: the proximity list that switches step-by-step (lockstep)
  movement on and off, the sign-quantised move from the two analog axes, and
  the step-delay gate.
- **StepsManager** and **EnemiesStepsManager**: the lockstep round. When the
  player's step ends in step-by-step mode, every enemy is asked for its step
  in array order. StepsManager then bars the player from moving for one enemy
  step.

Positions are integer lattice points (`x` along the actor's right vector, `y`
along its forward vector). Timers are `real`. The random draws and the
"player within reach of the chosen cell" test are method parameters (`Roll`,
`h`, `v`, `dt`). Animator triggers and the global movement events are logs
that the methods append to.

A coroutine is modelled in its two observable halves. The method that starts
it (`Enemy.DoStep`, `Enemy.Update`, `Player.Move`) runs it up to its first
frame and returns it as an `Action` value. `Enemy.Complete` and
`Player.FinishMove` apply the rest: the final position, the damage and the
closing event. This matters for a lockstep round. With a positive step time every attack
coroutine yields on its first frame, so all enemies of a round decide lethal
against non-lethal before any of that round's damage lands.
`EnemyMovement.SimultaneousStrikesCanKill` shows the result: two attacks each
judged non-lethal can still kill the player between them. Every enemy and the
player are built with a positive step time (the scripts' serialized default is 1).

The model follows the code in three places where a reader might expect otherwise:

- Dead fires on every hit that leaves the hit points at or below zero, not once only (`DeadFiresOnEveryLaterHit`).
- An attack does not re-check its target before the damage lands.
- No blocked move, obstacle zone, movement-pattern family or progression on kills exists in these scripts.

Modules: `Optional`, `Lattice`, `StepTimer` (the gate both actors share),
`GameSettings` (the global step-by-step flag as a shared object),
`EnemyMovement`, `PlayerMovement`, `Lockstep` (the round loop both managers
run), `StepsManager`, `EnemiesStepsManager`.

## Model

| member | source | states |
|---|---|---|
| Lattice.Sign | Assets/Scripts/Game/Player/PlayerMovement.cs:47-59 | the axis switch yields a value in {-1,0,1}, zero exactly for zero input, never of the opposite sign |
| Lattice.Quantise | Assets/Scripts/Game/Player/PlayerMovement.cs:45-66 | the quantised offset is the origin exactly when both axes are zero, otherwise one of the eight neighbouring offsets; each coordinate is zero exactly when its axis is zero and otherwise agrees with it in sign |
| StepTimer.Advance | Assets/Scripts/Game/Enemies/EnemyMovement.cs:36-45 | a step starts exactly when the accumulated timer reaches the total step time and a direction exists; a started step resets the timer to zero, otherwise the frame time is only added |
| StepTimer.NoStepBeforeTotal | Assets/Scripts/Game/Enemies/EnemyMovement.cs:36-45 | while the timer plus the elapsed frame time stays below the total step time, no step starts and the timer only accumulates |
| StepTimer.DueStepWaitsForDirection | Assets/Scripts/Game/Enemies/EnemyMovement.cs:37-44 | a due step with no direction is retried: the timer is not reset, stays at or above the total, and no step starts until a frame has a direction |
| StepTimer.StepsBoundedByElapsed | Assets/Scripts/Game/Player/PlayerMovement.cs:31-38 | over any run of frames, steps started times the total step time is at most the starting timer plus elapsed time minus the final timer |
| StepTimer.StepCountAtMost | Assets/Scripts/Game/Player/PlayerMovement.cs:31-38 | from a non-negative timer with non-negative frame times, at most (timer + elapsed) / total steps start |
| StepTimer.TimerStaysNonNegative | Assets/Scripts/Game/Player/PlayerMovement.cs:33-37 | with non-negative frame times the timer never goes negative |
| GameSettings.Settings.constructor | Assets/Scripts/Game/Utils/GlobalGameSettings.cs:5 | step-by-step movement starts switched off |
| EnemyMovement.Actor.CanMove | Assets/Scripts/Game/Enemies/EnemyMovement.cs:18 | an actor may move exactly while it has at least one hit point |
| EnemyMovement.FinalPosition | Assets/Scripts/Game/Enemies/EnemyMovement.cs:106-165 | the non-lethal attack ends back at its start; a walk and a lethal attack end on the target cell |
| EnemyMovement.StartTrigger | Assets/Scripts/Game/Enemies/EnemyMovement.cs:100-136 | a walk fires Move, a non-lethal attack Attack, a lethal attack FatalAttack; no step starts with Dead |
| EnemyMovement.AfterHits | Assets/Scripts/Game/Enemies/EnemyMovement.cs:172-177 | a run of GetDamage calls lowers the hit points by the sum of the hits, fires at most one trigger per hit, and every trigger it fires is Dead |
| EnemyMovement.AfterHitsSplit | Assets/Scripts/Game/Enemies/EnemyMovement.cs:172-177 | landing a run of hits is landing its first part and then the rest on the hit points that part leaves, triggers concatenated; with OneHit, each hit fires Dead exactly when it leaves the hit points at or below zero |
| EnemyMovement.OneHit | Assets/Scripts/Game/Enemies/EnemyMovement.cs:172-177 | one hit lowers the hit points by its damage and fires Dead exactly when they end at or below zero |
| EnemyMovement.Actor.constructor | Assets/Scripts/Game/Enemies/EnemyMovement.cs:15 | an actor starts with its configured hit points and an empty trigger log |
| EnemyMovement.Actor.IsAliveAfterDamage | Assets/Scripts/Game/Enemies/EnemyMovement.cs:167-170 | answers true exactly when hit points minus damage stay positive, and changes nothing |
| EnemyMovement.Actor.GetDamage | Assets/Scripts/Game/Enemies/EnemyMovement.cs:172-177 | hit points drop by exactly the damage; Dead fires exactly when they end at or below zero, with no once-only guard; the actor can move afterwards exactly when IsAliveAfterDamage would have said so |
| EnemyMovement.GetMoveDirection | Assets/Scripts/Game/Enemies/EnemyMovement.cs:64-93 | no direction exactly when both draws are zero; otherwise a neighbouring offset, equal to the draws themselves when they lie in {-1,0,1} |
| EnemyMovement.ChooseAction | Assets/Scripts/Game/Enemies/EnemyMovement.cs:48-62 | no step for a dead enemy or an empty draw; otherwise a step from the current cell to the cell the draws point at (current cell plus GetMoveDirection of the draws); an attack exactly when the player is in reach; a lethal attack exactly when the target's hit points minus the damage are at most zero; only the non-lethal attack ends back at the start |
| EnemyMovement.StrikeVerdictHolds | Assets/Scripts/Game/Enemies/EnemyMovement.cs:106-151 | an attack is the lethal kind exactly when landing its damage (one GetDamage) on the hit points it was judged against leaves them at or below zero, and exactly then the landing fires Dead |
| EnemyMovement.SimultaneousStrikesCanKill | Assets/Scripts/Game/Enemies/EnemyMovement.cs:108-150 | for any two live enemies in reach whose damages each leave the target alive but together do not: both start the non-lethal attack and end back at their start, yet landing both hits takes the target to zero or below and fires Dead |
| EnemyMovement.DeadFiresOnEveryLaterHit | Assets/Scripts/Game/Enemies/EnemyMovement.cs:172-177 | once hit points are at or below zero, every further non-negative hit fires Dead again |
| EnemyMovement.Enemy.TotalStepTime | Assets/Scripts/Game/Enemies/EnemyMovement.cs:19 | the total step time is the step time plus the delay between steps |
| PlayerMovement.Player.TotalStepTime | Assets/Scripts/Game/Player/PlayerMovement.cs:18 | the player's total step time is its step time plus the delay between steps |
| EnemyMovement.Enemy.constructor | Assets/Scripts/Game/Enemies/EnemyMovement.cs:23-26 | after Start the timer equals the total step time, so the first step is due at once |
| EnemyMovement.Enemy.Update | Assets/Scripts/Game/Enemies/EnemyMovement.cs:28-46 | a dead enemy, or any enemy in step-by-step mode, changes no timer, trigger or position; otherwise the timer runs the step-delay gate and a started step is a walk with the Move trigger |
| EnemyMovement.Enemy.DoStep | Assets/Scripts/Game/Enemies/EnemyMovement.cs:48-62 | starts exactly the step ChooseAction gives for its state and the target's current hit points and fires its start trigger; nothing else changes (a dead enemy changes nothing) |
| EnemyMovement.Enemy.Complete | Assets/Scripts/Game/Enemies/EnemyMovement.cs:106-165 | the enemy ends at the step's final position; an attack damages the target exactly once, with the hit points and triggers of one AfterHits step; a walk leaves it alone |
| PlayerMovement.FirstIndex | Assets/Scripts/Game/Player/PlayerMovement.cs:103 | the index found holds the element and no earlier index does |
| PlayerMovement.RemoveFirst | Assets/Scripts/Game/Player/PlayerMovement.cs:103 | list removal drops exactly the first occurrence and leaves a list without the element unchanged |
| PlayerMovement.RemoveFirstTakesOneCopy | Assets/Scripts/Game/Player/PlayerMovement.cs:103 | removal takes exactly one copy of the element out of the list's multiset and shortens it by one |
| PlayerMovement.Player.constructor | Assets/Scripts/Game/Player/PlayerMovement.cs:23-29 | after Start the timer equals the total step time and the proximity list is empty, so the flag agrees with the list exactly when it is off |
| PlayerMovement.Player.Update | Assets/Scripts/Game/Player/PlayerMovement.cs:31-38 | the timer runs the step-delay gate with a direction whenever an axis is off centre; a started step is a walk to the quantised neighbour, with the Move trigger and StartsMoving |
| PlayerMovement.Player.Move | Assets/Scripts/Game/Player/PlayerMovement.cs:40-68 | both axes zero: nothing changes; otherwise a walk to a neighbouring cell starts, the Move trigger fires, the timer resets to zero and StartsMoving is raised before the player moves |
| PlayerMovement.Player.FinishMove | Assets/Scripts/Game/Player/PlayerMovement.cs:74-85 | a walk (the only step the player starts) ends on its target cell, then FinishedMoving is raised |
| PlayerMovement.Player.StartSbsOnTriggerEnter | Assets/Scripts/Game/Player/PlayerMovement.cs:88-96 | a non-Enemy collider changes neither list nor flag; an Enemy is appended and switches step-by-step on; the flag stays equal to "list non-empty" |
| PlayerMovement.Player.EndSbsOnTriggerExit | Assets/Scripts/Game/Player/PlayerMovement.cs:98-107 | a non-Enemy collider changes neither list nor flag; an Enemy loses its first occurrence, and the flag goes off exactly when the list is then empty and is otherwise untouched; the flag stays equal to "list non-empty" |
| Lockstep.DoSteps | Assets/Scripts/Game/StepsManager.cs:27-28 | each enemy, in array order, starts exactly the step it chooses from its own state and the target's hit points before the round; each fires only its own trigger; no hit points change |
| StepsManager.StepsManager.constructor | Assets/Scripts/Game/StepsManager.cs:11-12 | the serialized player and enemy list are fixed, no wait is pending, and the manager's invariant (each enemy once, the player not among them, positive step times) holds |
| StepsManager.StepsManager.OnStepStart | Assets/Scripts/Game/StepsManager.cs:21 | the step-start handler changes nothing |
| StepsManager.StepsManager.OnStepEnd | Assets/Scripts/Game/StepsManager.cs:23-38 | flag off: no enemy is stepped and the player's CanMove is untouched; flag on: a round runs, CanMove becomes false, and a wait of the first enemy's total step time is queued (none with an empty list, which leaves the player barred) |
| StepsManager.StepsManager.WaitElapsed | Assets/Scripts/Game/StepsManager.cs:37-38 | when the oldest wait runs out the player may move again |
| EnemiesStepsManager.EnemiesStepsManager.constructor | Assets/Scripts/Game/EnemiesStepsManager.cs:12 | the enemy list starts empty |
| EnemiesStepsManager.EnemiesStepsManager.Start | Assets/Scripts/Game/EnemiesStepsManager.cs:14-20 | the enemies found in the scene become the list |
| EnemiesStepsManager.EnemiesStepsManager.OnStepStart | Assets/Scripts/Game/EnemiesStepsManager.cs:22 | the step-start handler changes nothing |
| EnemiesStepsManager.EnemiesStepsManager.OnStepEnd | Assets/Scripts/Game/EnemiesStepsManager.cs:24-31 | flag off: no enemy is stepped; flag on: a round runs; either way the list and the player, its CanMove included, are left alone |

## Left out

- Interpolated motion (`Vector3.Lerp` over frames), facing (`Quaternion.LookRotation`) and the float geometry of the right/forward basis: only a coroutine's start, target and final positions are modelled, and the basis is taken as the lattice axes.
- Floating-point rounding of timers and axis values: timers and axes are `real`.
- `Random.Range` and the `Vector3.Distance(...) < 0.8f` reach test: both are inputs (`Roll`).
- Unity's scheduling of coroutines and `WaitForSeconds`: when a started coroutine finishes is up to the caller of `Enemy.Complete`, `Player.FinishMove` and `StepsManager.WaitElapsed`.
- Subscription of the handlers to trigger and step events (ColliderEventReceiver, EventSystem, `OnStepStart`/`OnStepEnd` wiring) and the unused `StepType` argument of the handlers.
- The player's hit points, `IsAliveAfterDamage`, `GetDamage`, `CanMove`, `OnStepStart` and `OnStepEnd` are used by the scripts but declared in no shown file. The player's hit-point side is modelled as an `Actor`, like the enemy's. `CanMove` is a plain field, initially true, that the shown player code never reads.
- EnemyMovement.Enemy.constructor, PlayerMovement.Player.constructor, StepsManager.StepsManager.constructor, StepsManager.StepsManager.OnStepEnd, EnemiesStepsManager.EnemiesStepsManager.Start, Lockstep.DoSteps, EnemyMovement.Enemy.DoStep, EnemyMovement.Enemy.Update, PlayerMovement.Player.Move, PlayerMovement.Player.Update: require a positive step time (the constructors and both managers' invariants carry it). With a step time of zero or below the source runs a whole coroutine synchronously inside the call (moving the actor and, for an attack, landing its damage before the next enemy of the round decides); the model does not capture that run.
- EnemyMovement.Actor.GetDamage, EnemyMovement.Actor.IsAliveAfterDamage, EnemyMovement.AfterHits, EnemyMovement.DeadFiresOnEveryLaterHit: hit points and damage are unbounded integers; C#'s 32-bit `int` wrap-around is not modelled. For example, hit points 3 and a damage of int.MinValue wrap in C# to -2147483645, which fires Dead and stops the actor, while the model's hit points become 2147483651; and hit points 0 hit by 2147483647 and then 2 end at 2147483647 in C#, alive again.
- Lockstep.DoSteps, StepsManager.StepsManager.OnStepEnd, StepsManager.StepsManager.constructor: require each enemy to appear once in the serialized array; an enemy listed twice would be stepped twice in the source.
- EnemiesStepsManager.EnemiesStepsManager.Start: requires the found enemies to be distinct, which Unity's object search guarantees.
- Input (InputController), audio, music, menus, settings screen, progress persistence, shader demo: outside the core.
- The constants in GlobalGameSettings other than the flag are not read by the modelled scripts.
