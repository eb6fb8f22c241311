# Dash It — spawning, difficulty and player health, modelled in Dafny

Dash It is a Unity arcade game. The player dodges pairs of obstacles that
slide across the screen, and avoids enemies and projectiles that spawn over
time. This project models the game's spawning and difficulty core and states
properties about it:

- **Obstacles.**
  - `ObstacleSpawner` keeps one chain of obstacles alive.
  - It draws them from a `ObstacleDirectionalSpawner`, which alternates between the two builders that `ObstacleDirectionalSpawnerFactory` hands out for a horizontal or vertical spawn direction.
  - Each builder (`ObstacleDirectionalData`) produces the geometry: two bars with a fixed gap between them, a random split of the remaining space, and a random speed.
  - `MovementDirectionFactory` turns a `Direction` into a unit vector.
- **Removal signals.**
  - `ActionOnDisabled` raises a delegate when a pooled entity is disabled, unless the game is over.
  - The obstacle and enemy spawners subscribe to the signal of the entity they spawned last, so its removal triggers the next spawn.
- **Enemies.** `EnemySpawner` schedules each spawn after a random delay.
- **Projectiles.** `ProjectileSpawner` runs an endless loop that waits, flips a coin and spawns. Only a missing object pool ends it.
- **Difficulty.** `DifficultySystem` advances through difficulty stages as the score rises. It rewrites each spawner's `delayBetweenSpawn` as the recorded original delay times the stage's multiplier.
- **Player.** `PlayerHealth` counts hits and shrinks the player towards 60% of its size. It latches death, signals game over and destroys the player once the accumulated scale reaches 1.
- **Placement.** `PlaceAtCameraBounds` moves an object to the desired camera-bounds position, keeping the coordinates of a locked axis.

Modelling conventions:

- **Unity floats are `real`s.**
  - `Random.Range(a, b)` is the linear interpolation `Interpolate(a, b, t)` for a unit draw `t` in [0, 1], so range facts about random values are proved for every draw. `Vector2.Lerp` uses the same interpolation.
  - `Random.value` is a unit draw.
  - `Random.Range(0, 2)` is an index parameter in {0, 1}.
- **Unity's singletons are inputs.**
  - `ObjectPool.instance` is a `Pool` value, either `Missing` or `Present(obj)`.
  - `GameStateController.Instance` is a `GameState` value.
  - The score is an integer argument to `Update`.
- **A delegate is its invocation list.**
  - The list is a `seq<Handler>`: `+=` appends and `-=` removes the last occurrence, as in C#.
  - The empty list stands for a null delegate.
- **Controllers keep a ghost set of the signals they have held.** Each controller's `Valid()` says its handler occurs at most once, and only in the signal currently in its slot.
- **Coroutines are modelled as follows.**
  - A coroutine waiting in `WaitForSeconds` is a pending delay, in the enemy spawner.
  - A whole coroutine run is a list of events over a finite list of per-iteration draws, in the projectile spawner.

Behaviour of the code that a reader may not expect:

- **Stage progression.** It is checked only in a frame whose score differs from the last known score. A score that already passes a threshold at start does not advance the stage until the score changes (`Difficulty.ProgressionExample`).
- **Directions per spawner.** A directional spawner alternates the two opposite directions of one orientation, not horizontal and vertical.
- **`delayBetweenSpawn`.** The field is written by the difficulty system but never read by `ObstacleSpawner` or `EnemySpawner`. Their timing does not depend on the stage.
- **Projectile initial delay.** The initial delay of `ProjectileSpawner` is drawn from `minMaxTimeBetweenSpawns`. `minMaxTimeInitialDelay` only decides whether there is an initial wait at all.
- **Enemy spawning.** `EnemySpawner.Spawn` has no game-over check. An enemy without an `ActionOnDisabled` ends the enemy chain.
- **Duplicate obstacle spawners.** A spawner listed twice in the difficulty system's obstacle list ends with the delay computed from the original recorded for its last slot.

## Model

All source paths are under `Assets/Game/Scripts/`.

| member | source | states |
|---|---|---|
| Common.Interpolate | Assets/Game/Scripts/Obstacles/Spawn/Data/ObstacleDirectionalData.cs:94 | `Random.Range(lo, hi)` (and each coordinate of `Vector2.Lerp`) lies between its bounds in either order, and the parameters 0 and 1 give the bounds themselves |
| Movement.UnitVector | Assets/Game/Scripts/Obstacles/Movement/MovementDirectionFactory.cs:19-30 | every direction's vector has length one along a single axis of the plane |
| Movement.Make | Assets/Game/Scripts/Obstacles/Movement/MovementDirectionFactory.cs:13-34 | a movement exists exactly for the four declared direction codes (null otherwise); its vector is a unit axis vector and its speed is the given one |
| Movement.MakeDeclared | Assets/Game/Scripts/Obstacles/Movement/MovementDirectionFactory.cs:19-30 | Down, Up, Right and Left map to (0,-1,0), (0,1,0), (1,0,0) and (-1,0,0) with the given speed |
| Movement.UnitVectorInjective | Assets/Game/Scripts/Obstacles/Movement/MovementDirectionFactory.cs:19-30 | distinct directions move along distinct vectors |
| Movement.OppositeNegates | Assets/Game/Scripts/Obstacles/Movement/MovementDirectionFactory.cs:19-30 | the opposite direction moves along the negated vector, and opposite is an involution |
| ObstacleGeometry.FirstScale | Assets/Game/Scripts/Obstacles/Spawn/Data/ObstacleDirectionalData.cs:103 | the first bar's extent lies in [MINIMUM_SCALE, 1 - gap - MINIMUM_SCALE] |
| ObstacleGeometry.SecondScale | Assets/Game/Scripts/Obstacles/Spawn/Data/ObstacleDirectionalData.cs:104 | the first scale, the second scale and the gap sum to 1; a first scale in its drawing range leaves a second scale in the same range |
| ObstacleGeometry.GetDefaultContainer | Assets/Game/Scripts/Obstacles/Spawn/Data/ObstacleDirectionalData.cs:119-137 | the container takes the builder's direction and location, locks Y (horizontal) or X (vertical), leaves speed and scales at zero, and scales on height only exactly for horizontal obstacles (vertical: lines 188-206) |
| ObstacleGeometry.SetScale | Assets/Game/Scripts/Obstacles/Spawn/Data/ObstacleDirectionalData.cs:101-117 | only the `scale` of the two sides is written; every other side field is kept |
| ObstacleGeometry.Build | Assets/Game/Scripts/Obstacles/Spawn/Data/ObstacleDirectionalData.cs:90-99 | the two extents plus the orientation's gap fill exactly 1; they are the first and second scale in some order; the speed lies in MIN_MAX_MOVEMENT_SPEED; direction and location come from the builder, and the parent's locked axis is Y (horizontal) or X (vertical) |
| ObstacleGeometry.HorizontalBounds | Assets/Game/Scripts/Obstacles/Spawn/Data/ObstacleDirectionalData.cs:72-137 | horizontal bars are 0.02 thick in x, at least 0.05 long in y, leave a 0.35 gap, move at 1 to 1.5 units per second, and the first scale lies in [0.05, 0.60] |
| ObstacleGeometry.VerticalBounds | Assets/Game/Scripts/Obstacles/Spawn/Data/ObstacleDirectionalData.cs:143-206 | vertical bars are 0.02 thick in y, at least 0.05 long in x, leave a 0.45 gap, move at 1 to 2 units per second, and the first scale lies in [0.05, 0.50] |
| ObstacleGeometry.CoinChoosesSide | Assets/Game/Scripts/Obstacles/Spawn/Data/ObstacleDirectionalData.cs:106-115 | a coin of at least 0.5 gives the first scale to the left side and the rest to the right; a lower coin swaps them |
| ObstacleGeometry.DefaultPlacement | Assets/Game/Scripts/Obstacles/Spawn/Data/ObstacleDirectionalData.cs:119-137 | horizontal sides sit at Top and Bottom and scale on height only; vertical sides sit at Left and Right and do not; no side locks a scale side or an axis |
| SpawnerFactory.Make | Assets/Game/Scripts/Obstacles/Spawn/Direction/ObstacleDirectionalSpawnerFactory.cs:13-30 | a builder pair exists exactly for Horizontal (0) and Vertical (100); both builders share the orientation the code names, and the second moves opposite to the first |
| SpawnerFactory.MakePairs | Assets/Game/Scripts/Obstacles/Spawn/Direction/ObstacleDirectionalSpawnerFactory.cs:19-26 | the exact pairs: Left from RightOffScreen then Right from LeftOffScreen; Up from BottomOffScreen then Down from TopOffScreen |
| SpawnerFactory.MakeEntersFromBehind | Assets/Game/Scripts/Obstacles/Spawn/Direction/ObstacleDirectionalSpawnerFactory.cs:19-26 | every builder starts its obstacle off screen on the edge it moves away from |
| SpawnerFactory.PairMovesOpposite | Assets/Game/Scripts/Obstacles/Spawn/Direction/ObstacleDirectionalSpawnerFactory.cs:19-26 | the two builders of a pair travel along negated unit vectors, whichever comes first |
| Signals.RemoveLast | Assets/Game/Scripts/Obstacles/Spawn/ObstacleSpawner.cs:161-173 | `-=` shortens the invocation list by one exactly when the handler is in it |
| Signals.RemoveLastMultiset | Assets/Game/Scripts/Obstacles/Spawn/ObstacleSpawner.cs:161-173 | `-=` takes exactly one copy of the handler away and leaves every other handler |
| Signals.RemoveLastAbsent | Assets/Game/Scripts/Obstacles/Spawn/ObstacleSpawner.cs:161-173 | removing an absent handler leaves the list as it was |
| Signals.ActionOnDisabled.constructor | Assets/Game/Scripts/Points/ActionOnDisabled.cs:19 | a new signal has a null delegate |
| Signals.ActionOnDisabled.Subscribe | Assets/Game/Scripts/Obstacles/Spawn/ObstacleSpawner.cs:177-189 | `+=` appends the handler, adding one copy to the handler multiset |
| Signals.ActionOnDisabled.Unsubscribe | Assets/Game/Scripts/Obstacles/Spawn/ObstacleSpawner.cs:161-173 | `-=` removes the last occurrence, taking one copy out of the handler multiset |
| Signals.ActionOnDisabled.OnDisable | Assets/Game/Scripts/Points/ActionOnDisabled.cs:23-45 | the delegate is invoked, every handler once and in order, exactly when the game is not over and some handler is attached; nothing is invoked after game over |
| DirectionalSpawner.ObstacleDirectionalSpawner.constructor | Assets/Game/Scripts/Obstacles/Spawn/Direction/ObstacleDirectionSpawner.cs:31-47 | the builders are kept in order and the first builder used is the Random.Range(0, 2) draw |
| DirectionalSpawner.ObstacleDirectionalSpawner.SpawnNew | Assets/Game/Scripts/Obstacles/Spawn/Direction/ObstacleDirectionSpawner.cs:51-89 | without a pool it fails before building and keeps its builder index; otherwise the pooled obstacle is reset to the world origin, carries exactly the container the current builder built, and is then placed by its PlaceAtCameraBounds at the container's location (with a sprite renderer it stands at `PlacedPosition`, without one it stays at the origin and keeps its stored location and lock); its active flag is untouched, and the other builder becomes current |
| DirectionalSpawner.ObstacleDirectionalSpawner.SwitchLocations | Assets/Game/Scripts/Obstacles/Spawn/Direction/ObstacleDirectionSpawner.cs:93-99 | the index flips between 0 and 1 |
| DirectionalSpawner.ObstacleDirectionalSpawner.ApplyData | Assets/Game/Scripts/Obstacles/Spawn/Direction/ObstacleDirectionSpawner.cs:103-125 | left data goes to the Left child, right data to the Right child; SetupParent (ObstacleData.cs:58-63) has the obstacle's placement component store the location and lock and move the obstacle to `PlacedPosition` (without a sprite renderer nothing moves and the stored location and lock are kept), and hands direction and speed to the movement; the active flag is untouched |
| DirectionalSpawner.ObstacleDirectionalSpawner.ApplyIndividualObstacleData | Assets/Game/Scripts/Obstacles/Spawn/Direction/ObstacleDirectionSpawner.cs:129-141 | only the named child's setup changes; the other child, the movement and the active flag are kept |
| Obstacles.ObstacleSpawner.constructor | Assets/Game/Scripts/Obstacles/Spawn/ObstacleSpawner.cs:36 | a new spawner holds no directional spawner and no subscription |
| Obstacles.ObstacleSpawner.OnStart | Assets/Game/Scripts/Obstacles/Spawn/ObstacleSpawner.cs:69-77 | the directional spawner exists exactly when the factory knows the direction, and holds the factory's pair; one spawn is attempted, which succeeds exactly when the game is not over, the direction is declared and the pool exists; a success builds and places the obstacle with the first builder and moves the subscription to its signal, touching no other handler; a failure changes no subscription and leaves the pooled obstacle as it was |
| Obstacles.ObstacleSpawner.SpawnShape | Assets/Game/Scripts/Obstacles/Spawn/ObstacleSpawner.cs:97-147 | spawns exactly when the game is not over, a directional spawner exists and the pool exists; a failed spawn changes no subscription, no builder index and not the pooled obstacle; a spawn activates the obstacle, gives it the current builder's container and placement, flips the builder, removes SpawnShape from the old signal and appends it to the new one (no other handler of either list changes), so it occurs exactly once, in the new obstacle's signal only |
| Obstacles.ObstacleSpawner.Adopt | Assets/Game/Scripts/Obstacles/Spawn/ObstacleSpawner.cs:133-145 | the obstacle is activated, keeps its built data, and the subscription moves to its signal with no other handler touched |
| Obstacles.ObstacleSpawner.SwapSubscription | Assets/Game/Scripts/Obstacles/Spawn/ObstacleSpawner.cs:137-145 | the old signal's list loses its last SpawnShape, the new signal's list gains one at the end, nothing else on either list changes; afterwards SpawnShape occurs exactly once, in the slot's signal, and in no earlier signal |
| Obstacles.ObstacleSpawner.OnDisable | Assets/Game/Scripts/Obstacles/Spawn/ObstacleSpawner.cs:81-87 | afterwards SpawnShape is subscribed to no signal this spawner ever held |
| Obstacles.ObstacleSpawner.RemoveListener | Assets/Game/Scripts/Obstacles/Spawn/ObstacleSpawner.cs:161-173 | the current signal loses its SpawnShape handler; no held signal keeps one |
| Obstacles.ObstacleSpawner.AddListener | Assets/Game/Scripts/Obstacles/Spawn/ObstacleSpawner.cs:177-189 | the current signal gains SpawnShape at the end of its list, exactly once |
| Enemies.EnemySpawner.constructor | Assets/Game/Scripts/Enemy/EnemySpawner.cs:7 | a new spawner has no subscription and no pending spawn |
| Enemies.EnemySpawner.OnStart | Assets/Game/Scripts/Enemy/EnemySpawner.cs:11-15 | exactly one spawn is scheduled, after a delay drawn from minMaxSpawnDelay |
| Enemies.EnemySpawner.OnEnemyRemovedFromGame | Assets/Game/Scripts/Enemy/EnemySpawner.cs:21-29 | without a pool nothing is scheduled; otherwise one more spawn after a delay in minMaxSpawnDelay |
| Enemies.EnemySpawner.ScheduleSpawn | Assets/Game/Scripts/Enemy/EnemySpawner.cs:30-34 | the new delay is appended to the pending coroutines and lies in minMaxSpawnDelay |
| Enemies.EnemySpawner.FinishWait | Assets/Game/Scripts/Enemy/EnemySpawner.cs:30-34 | the finished coroutine leaves the pending list, and Spawn runs with all of Spawn's effects: the enemy placed and active, the subscription moved with no other handler touched, and the handler present exactly once |
| Enemies.EnemySpawner.Spawn | Assets/Game/Scripts/Enemy/EnemySpawner.cs:35-49 | spawns exactly when the pool exists, with no game-over check; a failure touches nothing; a spawn activates the enemy at the location, removes OnEnemyRemovedFromGame from the old signal and appends it to the enemy's signal (no other handler of either list changes), so it occurs exactly once, in that signal only |
| Enemies.EnemySpawner.OnDisable | Assets/Game/Scripts/Enemy/EnemySpawner.cs:17-20 | afterwards no signal this spawner held carries its handler |
| Enemies.EnemySpawner.AddListener | Assets/Game/Scripts/Enemy/EnemySpawner.cs:50-56 | the current signal gains the handler at the end of its list, exactly once |
| Enemies.EnemySpawner.RemoveListener | Assets/Game/Scripts/Enemy/EnemySpawner.cs:57-63 | the current signal loses its handler; no held signal keeps one |
| Projectiles.NextSpawnTime | Assets/Game/Scripts/Projectiles/ProjectileSpawner.cs:48-51 | the wait lies within minMaxTimeBetweenSpawns |
| Projectiles.InitialWait | Assets/Game/Scripts/Projectiles/ProjectileSpawner.cs:24-27 | there is an initial wait exactly when minMaxTimeInitialDelay is not zero, and it is drawn from minMaxTimeBetweenSpawns |
| Projectiles.StepAppends | Assets/Game/Scripts/Projectiles/ProjectileSpawner.cs:31-44 | one iteration keeps the events so far and appends its wait, then a spawn exactly when the coin allows it and the pool exists; it breaks the loop exactly when the coin allows a spawn and the pool is missing |
| Projectiles.RunBounded | Assets/Game/Scripts/Projectiles/ProjectileSpawner.cs:29-45 | the loop makes at most two events per iteration, and its first event is a wait |
| Projectiles.SpawnShapes | Assets/Game/Scripts/Projectiles/ProjectileSpawner.cs:22-46 | the loop with `continue` and `break` produces the initial wait followed by the events of the iteration-by-iteration specification, and stops exactly when it does |
| Projectiles.StoppedStaysStopped | Assets/Game/Scripts/Projectiles/ProjectileSpawner.cs:41-44 | after `break`, later iterations change nothing |
| Projectiles.StopsIffPoolMissing | Assets/Game/Scripts/Projectiles/ProjectileSpawner.cs:29-56 | the loop ends exactly when some attempted spawn finds no pool; no other input ends it |
| Projectiles.WaitsInRange | Assets/Game/Scripts/Projectiles/ProjectileSpawner.cs:31-32 | every wait in the loop lies within minMaxTimeBetweenSpawns |
| Projectiles.RunningLoopCounts | Assets/Game/Scripts/Projectiles/ProjectileSpawner.cs:29-45 | while the pool exists, each iteration waits once, and the number of spawns equals the number of coins not above chanceToSpawn |
| Difficulty.LastIndexOf | Assets/Game/Scripts/Game/DifficultySystem.cs:190-200 | the index of the last slot holding a spawner (used to say which original a duplicated spawner ends with) |
| Difficulty.LastIndexOfSnoc | Assets/Game/Scripts/Game/DifficultySystem.cs:190-200 | visiting one more slot moves only that spawner's last index |
| Difficulty.NextStage | Assets/Game/Scripts/Game/DifficultySystem.cs:146-161 | the stage advances by at most one and stays in the list; it advances exactly when a next stage exists and the score reached its threshold |
| Difficulty.Frame | Assets/Game/Scripts/Game/DifficultySystem.cs:121-131 | an unchanged score changes nothing; otherwise the score is recorded and the stage advances by at most one, only when earned, and always when a changed score reaches the next threshold |
| Difficulty.Frames | Assets/Game/Scripts/Game/DifficultySystem.cs:121-131 | over any run of frames the stage never decreases and never leaves the list |
| Difficulty.FramesTrackLastScore | Assets/Game/Scripts/Game/DifficultySystem.cs:125-129 | the last known score is always the most recent score |
| Difficulty.FramesAdvanceAtMostOncePerChange | Assets/Game/Scripts/Game/DifficultySystem.cs:121-161 | stages gained are at most the number of score changes |
| Difficulty.FramesStageEarned | Assets/Game/Scripts/Game/DifficultySystem.cs:146-161 | any stage reached beyond the start was earned by some observed score at or above its threshold |
| Difficulty.ProgressionExample | Assets/Game/Scripts/Game/DifficultySystem.cs:121-161 | with thresholds 0/100/300: rising scores reach the last stage; a jump to 999 gains one stage; a score past a threshold at start gains nothing until it changes |
| Difficulty.Clamp | Assets/Game/Scripts/Game/DifficultySystem.cs:173-177 | an index past the last stage is brought back to the last stage; an index in range is kept |
| Difficulty.Baseline | Assets/Game/Scripts/Game/DifficultySystem.cs:196 | the baseline of a slot is its recorded original, or 1.0 when none was recorded |
| Difficulty.ApplyObstacleDelays | Assets/Game/Scripts/Game/DifficultySystem.cs:188-206 | every listed spawner's delay is the original of its last slot (1.0 when none was recorded) times the multiplier; no other field of any spawner is written |
| Difficulty.DifficultySystem.constructor | Assets/Game/Scripts/Game/DifficultySystem.cs:47-57 | the fields start at stage 0, score 0, no recorded originals |
| Difficulty.DifficultySystem.Start | Assets/Game/Scripts/Game/DifficultySystem.cs:74-118 | only the spawners' delays are written; without stages the component disables itself and changes no delay; otherwise it records each original delay (1.0 for an empty slot), clamps and applies the stage, and records the score |
| Difficulty.DifficultySystem.Update | Assets/Game/Scripts/Game/DifficultySystem.cs:121-131 | only the spawners' delays are written; a disabled component changes nothing; otherwise the stage and score follow `Frame`, and delays change only when the stage does; all recorded baseline delays are kept, so a stage is always applied to the delays recorded at start and never compounds |
| Difficulty.DifficultySystem.CheckDifficultyProgression | Assets/Game/Scripts/Game/DifficultySystem.cs:146-161 | the stage becomes `NextStage` of the last known score and is applied; only spawner delays are written, and with no advance none changes; all recorded baseline delays are kept |
| Difficulty.DifficultySystem.ApplyCurrentStageDifficulty | Assets/Game/Scripts/Game/DifficultySystem.cs:164-213 | only the spawners' delays are written; without stages nothing changes; otherwise the index is clamped and every delay becomes its original times the stage multiplier; applying an applied stage again changes nothing |
| Player.LerpParameter | Assets/Game/Scripts/Player/PlayerHealth.cs:44-53 | the interpolation parameter lies in [0, 1] and is 1 once the accumulated scale reached 1 |
| Player.Damage | Assets/Game/Scripts/Player/PlayerHealth.cs:22-29 | a dead player ignores damage; otherwise one more hit, and death exactly when the accumulated scale reaches 1 |
| Player.DamageCountsToDeath | Assets/Game/Scripts/Player/PlayerHealth.cs:22-61 | from a fresh player, n hits leave min(n, hitPoints) counted hits, and the player is dead exactly when n >= hitPoints |
| Player.DamageFrom | Assets/Game/Scripts/Player/PlayerHealth.cs:22-61 | the same count from any living hit count below hitPoints |
| Player.DeadStaysDead | Assets/Game/Scripts/Player/PlayerHealth.cs:24-28 | once dead, further damage changes nothing |
| Player.ScaleBetweenInitialAndMinimum | Assets/Game/Scripts/Player/PlayerHealth.cs:15-20 | each coordinate of the player's size stays between 60% of the initial one and the initial one, for either sign of the initial scale, and is 60% once the scale reached 1 |
| Player.PlayerHealth.constructor | Assets/Game/Scripts/Player/PlayerHealth.cs:4-13 | a new player has no hits, is alive and has not signalled game over |
| Player.PlayerHealth.Start | Assets/Game/Scripts/Player/PlayerHealth.cs:15-20 | alive, the initial size recorded, the minimum size 60% of it |
| Player.PlayerHealth.OnEnable | Assets/Game/Scripts/Player/PlayerHealth.cs:31-35 | the accumulated scale is reset; the death latch is untouched |
| Player.PlayerHealth.ApplyDamage | Assets/Game/Scripts/Player/PlayerHealth.cs:22-29 | the health follows `Damage`; a living player shrinks to the interpolated size; game over is signalled and the player destroyed exactly on the killing hit with a controller present |
| Player.PlayerHealth.ScaleDown | Assets/Game/Scripts/Player/PlayerHealth.cs:44-53 | one more hit, the size interpolated towards the minimum, and death exactly when the scale reached 1 |
| Player.PlayerHealth.OnDead | Assets/Game/Scripts/Player/PlayerHealth.cs:55-61 | the death latch is set; game over and Destroy happen only with a controller present |
| Placement.PlacedPosition | Assets/Game/Scripts/Obstacles/Place/PlaceAtCameraBounds.cs:75-94 | every locked coordinate keeps the reset position, every free one takes the desired position; z is 0 unless both axes are locked |
| Placement.PlaceAtCameraBounds.constructor | Assets/Game/Scripts/Obstacles/Place/PlaceAtCameraBounds.cs:39-49 | the Inspector defaults: location Left, no locked axis |
| Placement.PlaceAtCameraBounds.BothAxisLocked | Assets/Game/Scripts/Obstacles/Place/PlaceAtCameraBounds.cs:97-100 | placement stops early exactly when the lock keeps both coordinates |
| Placement.PlaceAtCameraBounds.Setup | Assets/Game/Scripts/Obstacles/Place/PlaceAtCameraBounds.cs:64-100 | without a sprite renderer nothing changes; otherwise the location and lock are stored and the object ends at `PlacedPosition` |

## Left out

- **Unity engine behaviour.** Rendering, physics, input, audio, `Debug.Log`, `GetComponent` lookups and `Destroy` (a flag here) are not part of this model.
- **Coroutine timing.** `WaitForSeconds` is recorded as a delay value. Time does not pass in the model, and a coroutine stopping when its component is disabled is not modelled.
- **Pool internals.** `ObjectPool` itself is not part of this model; a pool is present or missing, and hands out a given object.
- **Score and camera inputs.**
  - `Score` and `GetCurrentScore` are not modelled: the current score is a parameter of `Update` and `Start`.
  - `PointWithinBounds` is not modelled: the enemy's spawn location is a parameter.
  - `BoundsFactory` and the bounds placements are not modelled: the desired position is a parameter of `Setup`.
- **`PointsSpawner`.** Only the `delayBetweenSpawn` field the difficulty system reads and writes is modelled.
- **Obstacle children.** What `ObstacleData.SetupObstacle` does with a child's data (its `ScaleToScreenSize` and its own `PlaceAtCameraBounds`) is not modelled; the model records the data each child receives. Likewise `MoveInDirection.Setup` is recorded as the direction and speed it receives.
- **Other scripts.** `BoundsCheck`, `ScaleToScreenSize`, `ObstacleData`'s own placement work, the movement scripts, `GameStateController`, `DashButton`, the music and sound managers and the collision interactables are not part of this model.
- **`DifficultySystem.Awake`.** The singleton setup is not modelled.
- Projectiles.SpawnShapes: the spawned projectile source's random position and sound effect are reduced to a `Spawned` event.
- Player.PlayerHealth.ApplyDamage: the `SpawnDamageEffect` call does nothing in the source and is left out. The scale is modelled in x and y only; z is not tracked.
- Player.LerpParameter: the accumulated float scale is the exact ratio hits / hitPoints. Float rounding is not modelled, so near-boundary rounding of the sum of 1/hitPoints steps is not captured.
- Common.Interpolate: only the range of a random draw is modelled, not Unity's distribution over it.
- `Vector2 !=`: Unity compares with a small tolerance; the model compares exactly (`Projectiles.InitialWait`).
- Null references: a renderer, prefab or null stage list that would throw is treated as follows.
  - A null stage list is the empty list.
  - A null directional spawner makes `SpawnShape` do nothing, where the source throws a `NullReferenceException`.
  - Other null-reference paths are not modelled.
