# WebSurviveZombieFps: player and zombie core in Dafny

This project models the two per-tick state machines of the game:

- **The player** (`src/sprite/player.ts`) covers:
  - health change with clamping and game over;
  - idle regeneration against the health snapshot that every update takes;
  - the fire-rate-gated, ammunition-counted shot over the two loadouts (pistol and rifle);
  - instant reload, walking, and the steadied-aim posture;
  - the pitch clamp of the mouse look, respawn after a fall, and the free-look unlock.
- **The zombie** (`src/sprite/zombies/zombie.ts`) covers:
  - the constructor's random draws;
  - damage intake and the death latch;
  - the per-tick update: mesh set-up, the chase step, attack entry versus attack hit (decided by the clip name), the walk fallback, the 500 ms hurt expiry, the 3000 ms removal of a dead body, the one-shot death clip, the fidelity hysteresis flag, and the jittered ambient-sound timer.

Both source files mutate fields step by step, so each is modelled by a class whose methods update fields in place:

- `PlayerModel.Gun` and `PlayerModel.Player` in `player.dfy`;
- `ZombieModel.Zombie` in `zombie.dfy`.

Every method is proved against pure functions of its old state:

- `PlayerLogic` in `player_logic.dfy`;
- `ZombieLogic` in `zombie_logic.dfy`.

The lemmas about the game sit next to those functions. `Common` (`common.dfy`) holds an option type, a 3-vector, JavaScript's `String.prototype.includes`, three.js's `randInt`, and three.js's `randFloat`, which only the corrected attack-strength roll uses.

Inputs outside the program are parameters:

- Time is passed as `now: int`, in milliseconds.
- Every random number (`Math.random()` inside `randInt`) is a parameter `r` in [0, 1).
- Every `randomChoice` result is a parameter constrained to its choice set.
- The keyboard and mouse are passed as `Keys` and `Cursor` values.
- The camera's flattened view direction and its world direction are passed as `forward` and `aim`.
- The head-bob value `sin(1.5 * camera_move_y)` is passed as `bob`.
- Whether the shared loaders have finished, and which clips and sounds exist, are fields of `ZombieLogic.Env`.

Each `setTimeout` callback of `shoot` is a method of its own. `Shoot` reports the delays it schedules as `Callbacks` (its `fire` and `kick` fields), and `GunKeys`, `Event`, `InputIfFreeLook` and `Update` hand them on to their caller, which runs the callback when the delay has elapsed:

- `Player.FireIntervalElapsed`;
- `Player.ShotKickElapsed`;
- `Player.EmptyKickElapsed`.

A zombie's attack reaches the player through `Player.SetHealthPoint`, just as `attack_player` calls `set_health_point`.

Distances are compared squared (`Math.sqrt` is monotone, so `dist < 2` is `d2 < 4`), and angles are in degrees.

The classes run the code as written, including at the three places listed under "## Findings". There, the intended behaviour is defined beside the as-written one and proved about, but the classes do not run it.

Behaviour of the code worth knowing, which the model follows:

- A zombie stays hurt at exactly 500 ms and is cleared only after more than 500 ms (`HurtBoundary`).
- Zombie health is not clamped: a 6-point hit on 5 health leaves -1 (`GetDamage`).
- A hurt zombie in range still attacks, because the attack branch looks only at `is_death` (`HitOnlyInsideAttack`).
- Damage is dealt on every tick in range once the clip is an attack clip, not once per attack entry (`HitRepeatsEveryTick`).
- A player whose health lands exactly on 0 keeps the game running, because the game-over condition is a strict `< 0` (`ExactZeroKeepsGameRunning`).
- Regeneration heals min(h + 0.1, max) (`Regenerated`).

## Model

| member | source | states |
|---|---|---|
| Common.RandInt | src/sprite/zombies/zombie.ts:46 | three.js `randInt(low, high)` on integral bounds lies in [low, high] |
| Common.RandFloat | src/sprite/zombies/zombie.ts:47 | corrected: three.js `randFloat(low, high)`, the draw this line evidently intended, lies in [low, high) |
| Common.RandIntOnReals | src/sprite/zombies/zombie.ts:47 | the `randInt` formula on bounds that are not integers gives `low` plus a whole number, and for a non-empty range lies in [low, high + 1) |
| Common.ContainsAt | src/sprite/zombies/zombie.ts:274 | `includes` finds every occurrence, at any offset |
| Common.ContainsSomewhere | src/sprite/zombies/zombie.ts:301 | whatever `includes` finds occurs at some offset; with `ContainsAt`, `includes` is "occurs at some offset" |
| PlayerLogic.HealthAfter | src/sprite/player.ts:413-422 | health after `set_health_point` lies in [0, max]: 0 below zero, max above max, otherwise exactly `health + hp` |
| PlayerLogic.HealthAfterIsNearest | src/sprite/player.ts:413-422 | the clamped health is the admissible value nearest to `health + hp` |
| PlayerLogic.ExactZeroKeepsGameRunning | src/sprite/player.ts:415-419 | landing exactly on 0 gives health 0 without stopping the game |
| PlayerLogic.Regenerated | src/sprite/player.ts:435-439 | when idle (snapshot equals health, below max) health rises to min(h + 0.1, max); otherwise it is untouched |
| PlayerLogic.IdleUpdatesClimb | src/sprite/player.ts:435-439 | n idle updates give min(h + 0.1 n, max) |
| PlayerLogic.ShotAttempt | src/sprite/player.ts:283-359 | fired iff not firing, body and gun mesh present and charge > 0; then the charge in hand drops by 1, the other charge is kept, `is_fire` and `fire_backward` are set; empty only sets `fire_backward`; ignored changes nothing; charges stay in range |
| PlayerLogic.ShotCallbacks | src/sprite/player.ts:292-356 | the fire-rate timer starts iff the shot fired, with the interval of the loadout in hand; the 100 ms recoil timer starts iff the shot fired or clicked empty; an ignored pull starts neither |
| PlayerLogic.EveryFlagHasItsTimer | src/sprite/player.ts:295-355 | the fire-rate timer starts exactly when `is_fire` is newly set, and the recoil timer exactly when the pull was not ignored, which always leaves `fire_backward` set |
| PlayerLogic.GunInput | src/sprite/player.ts:254-268 | the gun keys of `event`: there is a shot iff the left button is held; the posture follows Space; the loadout in hand is kept; without a shot the gun is only reloaded (on R) and postured; charges stay in range |
| PlayerLogic.Reloaded | src/sprite/player.ts:254-260 | the loadout in hand is refilled to its maximum, the other loadout and the flags are kept |
| PlayerLogic.SecondPullInsideIntervalIgnored | src/sprite/player.ts:284-302 | while the fire-rate timer runs, a second pull is ignored and costs no charge |
| PlayerLogic.ShotsFiredBounded | src/sprite/player.ts:292-318 | n pulls, each after the fire interval, fire min(n, charge) shots |
| PlayerLogic.ReloadThenFire | src/sprite/player.ts:254-266 | after a reload an idle gun with a non-empty magazine fires |
| PlayerLogic.CameraAt | src/sprite/player.ts:187-191 | the camera sits over the body, 0.9 to 1.1 above it |
| PlayerLogic.ShotBullets | src/sprite/player.ts:320-345 | a shot that fires adds exactly one bullet, starting at `BulletOrigin` and flying along the camera's direction; any other outcome adds none |
| PlayerLogic.BulletOrigin | src/sprite/player.ts:326-339 | the bullet starts at the camera in the steadied-aim posture, otherwise offset by the drawn jitter, at most 0.5 on x and on y |
| PlayerLogic.ClampPitch | src/sprite/player.ts:387-389 | the pitch lies in [-60, 60] and is left alone inside it |
| PlayerLogic.ClampPitchIdempotent | src/sprite/player.ts:389 | clamping twice is clamping once |
| PlayerLogic.DeltaX | src/sprite/player.ts:381 | no horizontal cursor movement gives no yaw change; with positive sensitivity and smoothing the yaw change has the sign of the movement |
| PlayerLogic.DeltaY | src/sprite/player.ts:382 | the same for the vertical movement and the pitch |
| PlayerLogic.CursorCentred | src/sprite/player.ts:201-206 | the cursor is centred iff it lies less than 10 pixels from the window centre on each axis |
| PlayerLogic.LeftOfIsQuarterTurn | src/sprite/player.ts:245 | `camera.up x direction` is square to the direction and as long; two quarter turns face backwards |
| PlayerLogic.Step | src/sprite/player.ts:239-248 | corrected, with the direction read as a value: without a movement key the step is zero |
| PlayerLogic.StrafeIndependentOfForward | src/sprite/player.ts:239-248 | corrected: the step is the forward part plus the sideways part, each independent of the other keys |
| PlayerLogic.StepAsWrittenAgreesWithoutW | src/sprite/player.ts:239-248 | the step as the code runs it equals the corrected step unless W is held with A or D |
| PlayerLogic.StepAsWrittenSlowsStrafe | src/sprite/player.ts:275 | as written, W+A facing +z strafes 0.01, not 0.1 |
| PlayerLogic.StepAsWrittenStrafeAlone | src/sprite/player.ts:244-245 | as written, A alone strafes 0.1 |
| PlayerLogic.StepStrafesFully | src/sprite/player.ts:239-248 | corrected, W+A facing +z strafes 0.1 as well |
| PlayerModel.Gun.constructor | src/sprite/player.ts:292-318 | a gun with both magazines full, not firing, with the two fire intervals |
| PlayerModel.Player.constructor | src/sprite/player.ts:17-49 | full health, snapshot equal to it, game running, pitch 0, no bullets |
| PlayerModel.Player.Load | src/sprite/player.ts:138-139 | the body exists, at (-7, 10, 21) |
| PlayerModel.Player.SetHealthPoint | src/sprite/player.ts:407-433 | with the health widget, health becomes `HealthAfter` and the game stops iff the sum is below 0; without it nothing changes |
| PlayerModel.Player.AutoRegenerate | src/sprite/player.ts:435-439 | health becomes `Regenerated` (with the widget) and the game keeps running |
| PlayerModel.Player.UpdatePosition | src/sprite/player.ts:181-197 | the camera goes to `CameraAt` the body; the bob phase advances by 0.1 while moving |
| PlayerModel.Player.MoveBodyAlongDirection | src/sprite/player.ts:272-281 | with a body, it moves by 0.1 times the direction on x and z and is moving, and the caller's direction is left scaled by 0.1 |
| PlayerModel.Player.Reload | src/sprite/player.ts:254-260 | the gun becomes `Reloaded` |
| PlayerModel.Player.Shoot | src/sprite/player.ts:283-359 | the gun follows `ShotAttempt`; a shot appends exactly one bullet at `BulletOrigin` and keeps the earlier ones; the flash is 2 iff fired; the timers it starts are `ShotCallbacks` of the outcome, with the gun's own intervals |
| PlayerModel.Player.FireIntervalElapsed | src/sprite/player.ts:300-302 | `is_fire` is cleared |
| PlayerModel.Player.ShotKickElapsed | src/sprite/player.ts:321-324 | `fire_backward` is cleared and the flash goes back to 1 |
| PlayerModel.Player.EmptyKickElapsed | src/sprite/player.ts:353-355 | `fire_backward` is cleared |
| PlayerModel.Player.WalkForward | src/sprite/player.ts:239-242 | the body moves by the W/S step; a W step leaves the shared direction scaled, an S step (on a clone) leaves it alone |
| PlayerModel.Player.WalkSideways | src/sprite/player.ts:244-248 | the body moves by the A/D step along the direction it is given |
| PlayerModel.Player.StopWhenIdle | src/sprite/player.ts:250-252 | with no movement key the player is not moving |
| PlayerModel.Player.Walk | src/sprite/player.ts:239-252 | the body moves by `StepAsWritten`, the A/D step reading the direction as the W step left it; moving iff a movement key is held (with a body) |
| PlayerModel.Player.GunKeys | src/sprite/player.ts:254-268 | the shot and the new gun are `GunInput` of the old gun; the bullet list grows by `ShotBullets` only; the flash is 2 iff fired; the timers started are `ShotCallbacks` of the shot |
| PlayerModel.Player.Event | src/sprite/player.ts:234-269 | the body moves by `StepAsWritten`; the shot and the gun are `GunInput` of the old gun; bullets, flash and timers as `GunKeys` states |
| PlayerModel.Player.MoveHead | src/sprite/player.ts:375-397 | with free look, yaw and pitch follow the cursor and the pitch stays clamped; without it nothing changes |
| PlayerModel.Player.RespawnAfterDeath | src/sprite/player.ts:399-405 | a body below -5 goes back to (0, 10, 0) |
| PlayerModel.Player.IsStartCamera | src/sprite/player.ts:200-225 | free look, once on, stays on; it comes on when the player camera is active and the cursor is centred |
| PlayerModel.Player.FollowAndRegenerate | src/sprite/player.ts:456-458 | the camera goes to `CameraAt` the body and the bob phase advances while moving; then regeneration as `Regenerated`, game still running |
| PlayerModel.Player.InputIfFreeLook | src/sprite/player.ts:463-465 | with free look, body, movement flag, gun, bullets, flash and timers are as `Event` states; without it none of them changes, there is no shot and no timer starts |
| PlayerModel.Player.RespawnAndSnapshot | src/sprite/player.ts:467-472 | a fallen body is put back at the respawn point; free look unlocks as `IsStartCamera` states; the snapshot equals the health at the end of the update |
| PlayerModel.Player.InputThenRespawn | src/sprite/player.ts:463-472 | input as `InputIfFreeLook` states, then respawn, free-look unlock and snapshot as `RespawnAndSnapshot` states |
| PlayerModel.Player.Update | src/sprite/player.ts:454-473 | health regenerated once and snapshotted; the camera follows the body as it was before the input; with free look the body moves by `StepAsWritten`, and the gun, bullets, flash and timers change as `Event` states; a fallen body respawns; no input and no timer without free look; the game keeps running |
| ZombieLogic.Velocity | src/sprite/zombies/zombie.ts:49-79 | the chase divisor lies in [200, 400] for type 2 and in [300, 500] otherwise |
| ZombieLogic.DamageRollAsWrittenOutcomes | src/sprite/zombies/zombie.ts:47 | as written, the attack strength is 0.4 or 1.4 (1.4 for every draw from 5/6 up) |
| ZombieLogic.DamageRollAsWritten | src/sprite/zombies/zombie.ts:47 | as written, the attack strength lies in [0.4, 1.6) |
| ZombieLogic.DamageRoll | src/sprite/zombies/zombie.ts:47 | corrected, the attack strength lies in [0.4, 0.6) |
| ZombieLogic.Initial | src/sprite/zombies/zombie.ts:32-71 | a new zombie is neither attacking, hurt nor dead, has no mesh yet, is at low fidelity, and its timers start at `now` |
| ZombieLogic.GetDamage | src/sprite/zombies/zombie.ts:82-103 | on a dead zombie nothing changes; otherwise health drops by exactly `damage`, it is hurt since `now`, it dies iff health reaches 0 or less (death time `now`), else the clip is "gethit" and the death time is kept; no other field changes |
| ZombieLogic.Setup | src/sprite/zombies/zombie.ts:225-228 | the mesh is set up once; with a mesh to clone it exists afterwards |
| ZombieLogic.Chase | src/sprite/zombies/zombie.ts:247-256 | only the positions change, the height is kept, and nothing moves unless the zombie chases |
| ZombieLogic.ChaseCloses | src/sprite/zombies/zombie.ts:244-250 | a chase step moves the zombie by `diff / v` on x and z, leaving `k = (v - 1) / v` of the offset to the player on each axis with `0 <= k < 1`, so it closes in along the line without overshooting; the squared distance scales by k^2 |
| ZombieLogic.AttackEntry | src/sprite/zombies/zombie.ts:274-285 | attack flag set, clip "attack4" for type 2 and "attack" + pick otherwise |
| ZombieLogic.WalkEntry | src/sprite/zombies/zombie.ts:293-297 | attack flag cleared, clip "walk" at the walk speed |
| ZombieLogic.DeathEntry | src/sprite/zombies/zombie.ts:301-305 | death clip "death" + pick, latched |
| ZombieLogic.Behave | src/sprite/zombies/zombie.ts:273-306 | only animation fields change; a hit iff in range, alive and already in an attack clip, for exactly `AttackDamage` |
| ZombieLogic.AttackDamage | src/sprite/zombies/zombie.ts:208-218 | the player takes -damage, or -damage/1.5 from type 2 |
| ZombieLogic.AttackRange | src/sprite/zombies/zombie.ts:270 | the attack range is positive |
| ZombieLogic.Timers | src/sprite/zombies/zombie.ts:308-318 | hurt survives iff at most 500 ms have passed; removal iff dead for more than 3000 ms |
| ZombieLogic.Lod | src/sprite/zombies/zombie.ts:323-350 | the flag becomes "beyond 5"; a switch is reported iff it flips, low when set and high when cleared |
| ZombieLogic.RoadSound | src/sprite/zombies/zombie.ts:362-372 | corrected, a sound is requested for every pick iff the sound exists and is idle |
| ZombieLogic.RoadSoundAsWritten | src/sprite/zombies/zombie.ts:362-366 | as written, a sound is requested iff the sound exists, is idle and the pick is not empty, and it is then the file of the pick |
| ZombieLogic.RoadSoundAsWrittenSkipsFirst | src/sprite/zombies/zombie.ts:363-365 | as written, "zombieRoad.mp3" is never requested |
| ZombieLogic.RoadSoundPlaysEveryPick | src/sprite/zombies/zombie.ts:363-366 | corrected, the two picks request the two files |
| ZombieLogic.Ambient | src/sprite/zombies/zombie.ts:354-374 | when due, the timer restarts at `now` with a delay in [1000, 10000] and asks for `RoadSoundAsWritten`; otherwise nothing changes |
| ZombieLogic.Play | src/sprite/zombies/zombie.ts:178-200 | only the speed and the last action change; the clip becomes the last action iff it can be started, and `Inv` is kept |
| ZombieLogic.Tick | src/sprite/zombies/zombie.ts:220-375 | a tick keeps death, health and death time, never sets hurt, keeps the death-clip latch and `Inv` |
| ZombieLogic.RunKeepsInv | src/sprite/zombies/zombie.ts:82-318 | every sequence of hits and updates keeps `Inv` |
| ZombieLogic.DeathIsFinal | src/sprite/zombies/zombie.ts:83-98 | once dead, always dead, with the same health and death time |
| ZombieLogic.DeathClipIsFinal | src/sprite/zombies/zombie.ts:300-306 | the death clip is chosen once and never replaced |
| ZombieLogic.DeadBodyStaysPut | src/sprite/zombies/zombie.ts:247-250 | a dead zombie that was set up never moves |
| ZombieLogic.HitOnlyInsideAttack | src/sprite/zombies/zombie.ts:273-288 | a tick deals damage iff it acts, the player is in range, the zombie is alive and its clip is an attack clip |
| ZombieLogic.AttackEntryDealsNothing | src/sprite/zombies/zombie.ts:274-285 | the first tick in range starts an attack clip and deals no damage |
| ZombieLogic.EntryThenHit | src/sprite/zombies/zombie.ts:247-288 | two ticks in range: entry, then a hit of `AttackDamage` |
| ZombieLogic.HitRepeatsEveryTick | src/sprite/zombies/zombie.ts:273-288 | after a hit, the next tick in range hits again |
| ZombieLogic.HitInterruptsAttack | src/sprite/zombies/zombie.ts:100-101 | a bullet that does not kill makes the next tick deal no damage |
| ZombieLogic.WalkFallback | src/sprite/zombies/zombie.ts:292-297 | out of range, alive, not hurt: walk is requested and the attack flag cleared; an existing walk is left alone |
| ZombieLogic.HurtBoundary | src/sprite/zombies/zombie.ts:308-312 | still hurt at 500 ms, cleared after |
| ZombieLogic.RemovalAfterDelay | src/sprite/zombies/zombie.ts:314-318 | the body is removed only, and always, after more than 3000 ms of death |
| ZombieLogic.LodFollowsDistance | src/sprite/zombies/zombie.ts:323-350 | after a tick the flag says which side of 5 the player is on; a switch iff it flipped |
| ZombieLogic.OneSwitchPerCrossing | src/sprite/zombies/zombie.ts:323-350 | two readings on the same side switch at most once |
| ZombieLogic.AmbientTimerRestarts | src/sprite/zombies/zombie.ts:354-358 | the ambient timer fires iff due, then restarts at `now` with a delay of 1 to 10 s and asks for the sound as written |
| ZombieModel.Zombie.constructor | src/sprite/zombies/zombie.ts:34-80 | the new zombie is `Initial` with health `randInt(3, 6)`, chase divisor `Velocity`, strength `DamageRollAsWritten` and walk speed `randInt(4, 10) / 100` |
| ZombieModel.Zombie.PlayAnimation | src/sprite/zombies/zombie.ts:178-200 | the speed is recorded; the clip becomes the last action iff the loader holds it and the mesh exists |
| ZombieModel.Zombie.GetDamage | src/sprite/zombies/zombie.ts:82-103 | the new state is `GetDamage` of the old one |
| ZombieModel.Zombie.SetupMesh | src/sprite/zombies/zombie.ts:105-165 | with a mesh to clone, mesh and body are placed at the spawn point |
| ZombieModel.Zombie.LoadOnce | src/sprite/zombies/zombie.ts:225-228 | the new state is `Setup` of the old one |
| ZombieModel.Zombie.ChasePlayer | src/sprite/zombies/zombie.ts:244-256 | the new state is `Chase` of the old one |
| ZombieModel.Zombie.AttackPlayer | src/sprite/zombies/zombie.ts:208-218 | the player's `set_health_point` receives `AttackDamage` |
| ZombieModel.Zombie.StartAttack | src/sprite/zombies/zombie.ts:274-285 | the new state is `AttackEntry` of the old one |
| ZombieModel.Zombie.StartWalk | src/sprite/zombies/zombie.ts:293-297 | the new state is `WalkEntry` of the old one |
| ZombieModel.Zombie.StartDeathClip | src/sprite/zombies/zombie.ts:301-305 | the new state is `DeathEntry` of the old one |
| ZombieModel.Zombie.Animate | src/sprite/zombies/zombie.ts:273-306 | the new state and the hit are `Behave` of the old state; the player took the hit |
| ZombieModel.Zombie.ExpireTimers | src/sprite/zombies/zombie.ts:308-318 | the new state is `Timers` of the old one |
| ZombieModel.Zombie.UpdateFidelity | src/sprite/zombies/zombie.ts:323-350 | the two consecutive conditions amount to `Lod` |
| ZombieModel.Zombie.AmbientTimer | src/sprite/zombies/zombie.ts:354-374 | the new state and the requested sound are `Ambient` of the old state, whose request is `RoadSoundAsWritten` |
| ZombieModel.Zombie.Update | src/sprite/zombies/zombie.ts:220-375 | the new state and the effects are `Tick` of the old state and the player's body; the player took the hit |

## Left out

- Rendering, physics and audio are not modelled: the mesh and its traversal in `change_material`, `AnimationMixer` and its cross-fades, quaternions, the flashlight position, the health widget's opacity, gravity, `jump` and collision shapes, and the loading and playback of sounds and music (`set_sound`, `set_music`, `update_music`, the near-death sound).
- Orientation maths is not modelled: the `atan2` facing of the zombie (zombie.ts:259-266) and the camera direction vectors (`getDirection`, `updateFlashLightPosition`). They are floating-point trigonometry in library calls, so the view direction comes in as a parameter.
- `update_change_weapon_sound` and `object.gun.switch_gun` are not modelled: the gun's own source file is not part of this model, so the loadout choice is a field that only the constructor sets.
- `Bullet.update` is not modelled: the bullet class is not part of this model, and bullets are values that are only ever appended.
- The removal of a dead zombie's physics body and collide box from the world (zombie.ts:95-96) is not modelled; the model keeps only the removal of its mesh, after 3000 ms.
- The fidelity switch is reported as an effect (`Low` or `High`). Which material is applied, and whether the loader holds it, is rendering.
- The asynchronous sound-buffer callback of the ambient timer is not modelled. The model reports the sound file requested.
- Timers are modelled as separate callback methods that the caller invokes, not as concurrency.
- Numbers are mathematical reals and integers. JavaScript's floating-point rounding is not modelled.
- PlayerModel.Player.Update: does not call `moveHead`, because the source's `update` does not either; `MoveHead` stands alone.
- ZombieLogic.Tick: its own contract states only the facts every tick keeps; what each part does is stated by the stage functions and the lemmas about `Tick`.

## Findings

| source | as written | input that shows it | evidently intended | confidence | as-written member | corrected member |
|---|---|---|---|---|---|---|
| src/sprite/zombies/zombie.ts:363-365 | `randomChoice(["", "2"])` then `if (road_type)`: the empty pick is falsy | a due timer, an idle sound, and the pick "" | both `zombieRoad.mp3` and `zombieRoad2.mp3` are played | high, not executed | ZombieLogic.RoadSoundAsWrittenSkipsFirst | ZombieLogic.RoadSound |
| src/sprite/zombies/zombie.ts:47 | `randInt(0.4, 0.6)` computes `0.4 + floor(r * 1.2)` | r = 0.9 gives 1.4 | an attack strength between 0.4 and 0.6 | high, not executed | ZombieLogic.DamageRollAsWrittenOutcomes | ZombieLogic.DamageRoll |
| src/sprite/player.ts:275 | `direction.multiplyScalar(velocity)` scales the shared direction in place, so the A/D direction is built from the scaled vector after a W step | W and A held while facing +z: a strafe of 0.01 | the same 0.1 strafe as with A alone | medium, not executed | PlayerLogic.StepAsWrittenSlowsStrafe | PlayerLogic.StrafeIndependentOfForward |
