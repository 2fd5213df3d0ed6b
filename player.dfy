/** The player of src/sprite/player.ts as an object whose methods update its
    fields in place, together with the game's gun object it drives. Every
    method is proved against the functions of `PlayerLogic`. */
module PlayerModel {
  import opened Common
  import opened PlayerLogic

  /** The gun object (`object.gun`). Its own source file is not part of
      this model; its fields are the ones the player reads and writes. */
  class Gun {
    var isGunLoader: bool
    var pistolChargeNow: int
    var pistolChargeMax: int
    var riffleChargeNow: int
    var riffleChargeMax: int
    var isFire: bool
    var fireBackward: bool
    var isShootingPosition: bool
    /** The gun mesh has been loaded. */
    var hasMesh: bool
    const pistolFireInterval: nat
    const riffleFireInterval: nat

    function State(): GunState
      reads this
    {
      GunState(isGunLoader, pistolChargeNow, pistolChargeMax, riffleChargeNow, riffleChargeMax,
               isFire, fireBackward, isShootingPosition)
    }

    /** `GunValid(State())`, reading only the four charge fields. */
    ghost predicate Valid()
      reads this`pistolChargeNow, this`pistolChargeMax, this`riffleChargeNow, this`riffleChargeMax
      ensures Valid() <==> GunValid(State())
    {
      0 <= pistolChargeNow <= pistolChargeMax && 0 <= riffleChargeNow <= riffleChargeMax
    }

    /** A gun with both magazines full, not firing. */
    constructor (pistolInHand: bool, pistolMax: nat, riffleMax: nat,
                 pistolInterval: nat, riffleInterval: nat, meshLoaded: bool)
      ensures Valid()
      ensures State() == GunState(pistolInHand, pistolMax, pistolMax, riffleMax, riffleMax, false, false, false)
      ensures hasMesh == meshLoaded
      ensures pistolFireInterval == pistolInterval && riffleFireInterval == riffleInterval
    {
      isGunLoader := pistolInHand;
      pistolChargeNow, pistolChargeMax := pistolMax, pistolMax;
      riffleChargeNow, riffleChargeMax := riffleMax, riffleMax;
      isFire, fireBackward, isShootingPosition := false, false, false;
      hasMesh := meshLoaded;
      pistolFireInterval, riffleFireInterval := pistolInterval, riffleInterval;
    }

  }

  class Player {
    const gun: Gun
    const maxHealth: real
    var health: real
    /** Snapshot of `health` taken at the end of every update. */
    var previousHealth: real
    /** The global `game_running` flag, which only this class clears. */
    var gameRunning: bool
    /** The health widget's DOM element was found. */
    var hasHealthDom: bool
    /** `cannon_body` exists, and where it is. */
    var hasBody: bool
    var bodyPos: Vec3
    var isMoving: bool
    var cameraMoveY: real
    var cameraPos: Vec3
    /** Pitch and yaw, in degrees. */
    var angleX: real
    var angleY: real
    var enableCamera: bool
    /** Every bullet fired, in firing order. */
    var allBullets: seq<Bullet>
    var flashIntensity: real

    ghost predicate Valid()
      reads this`health, this`angleX
      reads gun`pistolChargeNow, gun`pistolChargeMax, gun`riffleChargeNow, gun`riffleChargeMax
    {
      && maxHealth == MaxHealth
      && 0.0 <= health <= maxHealth
      && -PitchLimit <= angleX <= PitchLimit
      && gun.Valid()
    }

    constructor (g: Gun, healthDomFound: bool)
      requires g.Valid()
      ensures Valid() && gun == g
      ensures health == previousHealth == MaxHealth && gameRunning && hasHealthDom == healthDomFound
      ensures !hasBody && !isMoving && !enableCamera && allBullets == []
      ensures angleX == 0.0 && angleY == 0.0 && cameraMoveY == 0.0 && flashIntensity == 1.0
    {
      gun := g;
      maxHealth := MaxHealth;
      health, previousHealth := MaxHealth, MaxHealth;
      gameRunning, hasHealthDom := true, healthDomFound;
      hasBody, bodyPos := false, Vec3(0.0, 0.0, 0.0);
      isMoving, cameraMoveY, cameraPos := false, 0.0, Vec3(0.0, 0.0, 0.0);
      angleX, angleY, enableCamera := 0.0, 0.0, false;
      allBullets, flashIntensity := [], 1.0;
    }

    /** `load`, physics part: the body is created at the spawn point. */
    method Load()
      modifies this`hasBody, this`bodyPos
      ensures hasBody && bodyPos == SpawnPoint
    {
      hasBody := true;
      bodyPos := SpawnPoint;
    }

    /** `set_health_point(hp)`. Without the health widget nothing happens. */
    method SetHealthPoint(hp: real)
      requires Valid()
      modifies this`health, this`gameRunning
      ensures Valid()
      ensures hasHealthDom ==> health == HealthAfter(old(health), hp, maxHealth)
      ensures hasHealthDom ==> gameRunning == (old(gameRunning) && !StopsGame(old(health), hp))
      ensures !hasHealthDom ==> health == old(health) && gameRunning == old(gameRunning)
    {
      if !hasHealthDom {
        return;
      }
      health := health + hp;
      if health < 0.0 {
        health := 0.0;
        gameRunning := false;
      } else if health > maxHealth {
        health := maxHealth;
      }
    }

    /** `auto_regenerate`: heal `RegenAmount` when health did not move since
        the last snapshot and is below the maximum. It never ends the game. */
    method AutoRegenerate()
      requires Valid()
      modifies this`health, this`gameRunning
      ensures Valid() && gameRunning == old(gameRunning)
      ensures health == if hasHealthDom then Regenerated(previousHealth, old(health), maxHealth) else old(health)
    {
      if previousHealth == health && health < maxHealth {
        SetHealthPoint(RegenAmount);
      }
    }

    /** `update_position`, model part: the camera follows the body with a
        head bob (`bob` is the value of `sin(1.5 * camera_move_y)`), and the
        bob phase advances while walking. */
    method UpdatePosition(bob: real)
      modifies this`cameraPos, this`cameraMoveY
      ensures cameraPos == if hasBody then CameraAt(bodyPos, bob) else old(cameraPos)
      ensures cameraMoveY == old(cameraMoveY) + (if hasBody && isMoving then 0.1 else 0.0)
    {
      if !hasBody {
        return;
      }
      cameraPos := Vec3(bodyPos.x, bodyPos.y + 1.0 + bob / BobDivisor, bodyPos.z);
      if isMoving {
        cameraMoveY := cameraMoveY + 0.1;
      }
    }

    /** `moveBodyAlongDirection(direction)`: one step of length 0.1 along
        `direction` in the ground plane. The step is taken by scaling the
        caller's vector in place, so `scaled` is that vector afterwards. */
    method MoveBodyAlongDirection(direction: Planar) returns (scaled: Planar)
      modifies this`bodyPos, this`isMoving
      ensures bodyPos == Moved(old(bodyPos), if hasBody then Stride(direction) else Still)
      ensures isMoving == (hasBody || old(isMoving))
      ensures scaled == if hasBody then Stride(direction) else direction
    {
      scaled := direction;
      if !hasBody {
        return;
      }
      scaled := Stride(direction);
      bodyPos := Vec3(bodyPos.x + scaled.x, bodyPos.y, bodyPos.z + scaled.z);
      isMoving := true;
    }

    /** The KeyR branch of `event`: the loadout in hand is refilled. */
    method Reload()
      requires Valid()
      modifies gun`pistolChargeNow, gun`riffleChargeNow
      ensures Valid()
      ensures gun.State() == Reloaded(old(gun.State()))
    {
      if gun.isGunLoader {
        gun.pistolChargeNow := gun.pistolChargeMax;
      } else {
        gun.riffleChargeNow := gun.riffleChargeMax;
      }
    }

    /** `shoot`. `jx` and `jy` are the two `randomChoice` draws, `aim` the
        camera's world direction. A shot appends exactly one bullet and
        leaves the earlier ones in place. `timers` are the callbacks the
        call starts: after a shot the caller runs `FireIntervalElapsed`
        after `timers.fire` ms and `ShotKickElapsed` after `timers.kick` ms;
        after an empty click it runs `EmptyKickElapsed` after `timers.kick`
        ms. */
    method Shoot(jx: real, jy: real, aim: Vec3) returns (outcome: ShotOutcome, timers: Callbacks)
      requires Valid() && jx in Jitters && jy in Jitters
      modifies this`allBullets, this`flashIntensity
      modifies gun`pistolChargeNow, gun`riffleChargeNow, gun`isFire, gun`fireBackward
      ensures Valid()
      ensures ShotAttempt(old(gun.State()), hasBody && gun.hasMesh) == ShotResult(outcome, gun.State())
      ensures allBullets == old(allBullets) +
        (if outcome == Fired then [Bullet(BulletOrigin(cameraPos, jx, jy, gun.isShootingPosition), aim)] else [])
      ensures flashIntensity == if outcome == Fired then 2.0 else old(flashIntensity)
      ensures timers == ShotCallbacks(Some(outcome), gun.isGunLoader, gun.pistolFireInterval, gun.riffleFireInterval)
    {
      if gun.isFire || !hasBody || !gun.hasMesh {
        return Ignored, Callbacks(None, None);
      }
      var gunUsed := false;
      var fire: Option<nat> := None;
      if gun.isGunLoader {
        if gun.pistolChargeNow > 0 {
          gun.pistolChargeNow := gun.pistolChargeNow - 1;
          gun.isFire := true;
          gun.fireBackward := true;
          flashIntensity := 2.0;
          gunUsed := true;
          fire := Some(gun.pistolFireInterval);
        }
      } else {
        if gun.riffleChargeNow > 0 {
          gun.riffleChargeNow := gun.riffleChargeNow - 1;
          gun.isFire := true;
          gun.fireBackward := true;
          flashIntensity := 2.0;
          gunUsed := true;
          fire := Some(gun.riffleFireInterval);
        }
      }
      if gunUsed {
        var origin := cameraPos;
        if !gun.isShootingPosition {
          origin := Vec3(origin.x + jx, origin.y + jy, origin.z);
        }
        allBullets := allBullets + [Bullet(origin, aim)];
        outcome, timers := Fired, Callbacks(fire, Some(KickMs));
      } else {
        gun.fireBackward := true;
        outcome, timers := Empty, Callbacks(None, Some(KickMs));
      }
    }

    /** Fire-rate timer of a shot: the gun may fire again. */
    method FireIntervalElapsed()
      requires Valid()
      modifies gun`isFire
      ensures Valid() && !gun.isFire
    {
      gun.isFire := false;
    }

    /** Recoil timer of a shot: the kick and the muzzle flash end. */
    method ShotKickElapsed()
      requires Valid()
      modifies gun`fireBackward, this`flashIntensity
      ensures Valid() && !gun.fireBackward && flashIntensity == 1.0
    {
      gun.fireBackward := false;
      flashIntensity := 1.0;
    }

    /** Recoil timer of an empty click. */
    method EmptyKickElapsed()
      requires Valid()
      modifies gun`fireBackward
      ensures Valid() && !gun.fireBackward
    {
      gun.fireBackward := false;
    }

    /** The W/S part of `event`: W wins over S. W steps along `direction`
        itself and so scales it; S steps along a negated clone and leaves it
        alone. `after` is `direction` once the step is taken. */
    method WalkForward(keys: Keys, direction: Planar) returns (after: Planar)
      modifies this`bodyPos, this`isMoving
      ensures bodyPos == Moved(old(bodyPos), if hasBody then ForwardStep(keys, direction) else Still)
      ensures isMoving == if hasBody && (keys.w || keys.s) then true else old(isMoving)
      ensures after == if hasBody && keys.w then Stride(direction) else direction
    {
      after := direction;
      if keys.w {
        after := MoveBodyAlongDirection(direction);
      } else if keys.s {
        var _ := MoveBodyAlongDirection(Negated(direction));
      }
    }

    /** The A/D part of `event`: A wins over D; the sideways direction is a
        quarter turn to the left of `direction`, built afresh. */
    method WalkSideways(keys: Keys, direction: Planar)
      modifies this`bodyPos, this`isMoving
      ensures bodyPos == Moved(old(bodyPos), if hasBody then StrafeStep(keys, direction) else Still)
      ensures isMoving == if hasBody && (keys.a || keys.d) then true else old(isMoving)
    {
      if keys.a {
        var _ := MoveBodyAlongDirection(LeftOf(direction));
      } else if keys.d {
        var _ := MoveBodyAlongDirection(Negated(LeftOf(direction)));
      }
    }

    /** The walking part of `event`; with none of W, S, A, D held the
        player stops moving. The sideways step reads `direction` as the W
        step left it. */
    method Walk(keys: Keys, forward: Planar)
      modifies this`bodyPos, this`isMoving
      ensures bodyPos == Moved(old(bodyPos), if hasBody then StepAsWritten(keys, forward) else Still)
      ensures isMoving == if !keys.w && !keys.s && !keys.a && !keys.d then false
                          else if hasBody then true else old(isMoving)
    {
      ghost var start := bodyPos;
      var direction := WalkForward(keys, forward);
      ghost var mid := bodyPos;
      WalkSideways(keys, direction);
      StepsCompose(start, mid, bodyPos, keys, forward, hasBody);
      StopWhenIdle(keys);
    }

    /** The last walking condition of `event`: no movement key, no movement. */
    method StopWhenIdle(keys: Keys)
      modifies this`isMoving
      ensures isMoving == if !keys.w && !keys.s && !keys.a && !keys.d then false else old(isMoving)
    {
      if !keys.w && !keys.s && !keys.a && !keys.d {
        isMoving := false;
      }
    }

    /** The gun part of `event`: the reload key, then the trigger, then the
        steadied-aim posture. Reloading and firing in one call fires from the
        full magazine; the posture read by a shot is the one set by the
        previous call. */
    method GunKeys(keys: Keys, aim: Vec3, jx: real, jy: real) returns (shot: Option<ShotOutcome>, timers: Callbacks)
      requires Valid() && jx in Jitters && jy in Jitters
      modifies this`allBullets, this`flashIntensity
      modifies gun`pistolChargeNow, gun`riffleChargeNow, gun`isFire, gun`fireBackward, gun`isShootingPosition
      ensures Valid()
      ensures InputResult(shot, gun.State()) == GunInput(old(gun.State()), keys, hasBody && gun.hasMesh)
      ensures allBullets == old(allBullets) + ShotBullets(shot, cameraPos, jx, jy, old(gun.isShootingPosition), aim)
      ensures flashIntensity == if shot == Some(Fired) then 2.0 else old(flashIntensity)
      ensures timers == ShotCallbacks(shot, gun.isGunLoader, gun.pistolFireInterval, gun.riffleFireInterval)
    {
      if keys.r {
        Reload();
      }
      shot, timers := None, Callbacks(None, None);
      if keys.fire {
        var outcome;
        outcome, timers := Shoot(jx, jy, aim);
        shot := Some(outcome);
      }
      gun.isShootingPosition := keys.space;
    }

    /** `event`: walking, then the gun keys. `forward` is the camera
        direction flattened onto the ground. */
    method Event(keys: Keys, forward: Planar, aim: Vec3, jx: real, jy: real)
      returns (shot: Option<ShotOutcome>, timers: Callbacks)
      requires Valid() && jx in Jitters && jy in Jitters
      modifies this`bodyPos, this`isMoving, this`allBullets, this`flashIntensity
      modifies gun`pistolChargeNow, gun`riffleChargeNow, gun`isFire, gun`fireBackward, gun`isShootingPosition
      ensures Valid()
      ensures bodyPos == Moved(old(bodyPos), if hasBody then StepAsWritten(keys, forward) else Still)
      ensures isMoving == if !keys.w && !keys.s && !keys.a && !keys.d then false
                          else if hasBody then true else old(isMoving)
      ensures InputResult(shot, gun.State()) == GunInput(old(gun.State()), keys, hasBody && gun.hasMesh)
      ensures allBullets == old(allBullets) + ShotBullets(shot, cameraPos, jx, jy, old(gun.isShootingPosition), aim)
      ensures flashIntensity == if shot == Some(Fired) then 2.0 else old(flashIntensity)
      ensures timers == ShotCallbacks(shot, gun.isGunLoader, gun.pistolFireInterval, gun.riffleFireInterval)
    {
      Walk(keys, forward);
      shot, timers := GunKeys(keys, aim, jx, jy);
    }

    /** `moveHead`: with free look on, yaw and pitch follow the cursor and
        the pitch is held within [-60, 60] degrees. */
    method MoveHead(c: Cursor)
      requires Valid()
      modifies this`angleX, this`angleY
      ensures Valid()
      ensures enableCamera ==> angleY == old(angleY) - DeltaX(c) && angleX == ClampPitch(old(angleX) - DeltaY(c))
      ensures !enableCamera ==> angleX == old(angleX) && angleY == old(angleY)
    {
      if !enableCamera {
        return;
      }
      angleY := angleY - DeltaX(c);
      angleX := ClampPitch(angleX - DeltaY(c));
    }

    /** `respawn_after_death`: a body that fell below the floor is put back. */
    method RespawnAfterDeath()
      modifies this`bodyPos
      ensures bodyPos == if hasBody && old(bodyPos).y < FallLimit then RespawnPoint else old(bodyPos)
    {
      if !hasBody {
        return;
      }
      if bodyPos.y < FallLimit {
        bodyPos := RespawnPoint;
      }
    }

    /** `isStartCamera`: free look, once on, stays on; it is switched on
        when the player camera is active and the cursor is centred. */
    method IsStartCamera(c: Cursor, orbitCameraActive: bool)
      modifies this`enableCamera
      ensures enableCamera == (old(enableCamera) || (!orbitCameraActive && CursorCentred(c)))
    {
      if enableCamera {
        return;
      }
      if orbitCameraActive {
        return;
      }
      if CursorCentred(c) {
        enableCamera := true;
      }
    }

    /** The first part of `update`: the camera follows the body, then idle
        regeneration. */
    method FollowAndRegenerate(bob: real)
      requires Valid()
      modifies this`cameraPos, this`cameraMoveY, this`health, this`gameRunning
      ensures Valid() && gameRunning == old(gameRunning)
      ensures health == if hasHealthDom then Regenerated(previousHealth, old(health), maxHealth) else old(health)
      ensures cameraPos == if hasBody then CameraAt(bodyPos, bob) else old(cameraPos)
      ensures cameraMoveY == old(cameraMoveY) + (if hasBody && isMoving then 0.1 else 0.0)
    {
      UpdatePosition(bob);
      AutoRegenerate();
    }

    /** The input part of `update`: keyboard and mouse are only read once
        free look is on. */
    method InputIfFreeLook(keys: Keys, forward: Planar, aim: Vec3, jx: real, jy: real)
      returns (shot: Option<ShotOutcome>, timers: Callbacks)
      requires Valid() && jx in Jitters && jy in Jitters
      modifies this`bodyPos, this`isMoving, this`allBullets, this`flashIntensity
      modifies gun`pistolChargeNow, gun`riffleChargeNow, gun`isFire, gun`fireBackward, gun`isShootingPosition
      ensures Valid()
      ensures bodyPos == Moved(old(bodyPos), if enableCamera && hasBody then StepAsWritten(keys, forward) else Still)
      ensures isMoving == if enableCamera && !keys.w && !keys.s && !keys.a && !keys.d then false
                          else if enableCamera && hasBody then true else old(isMoving)
      ensures InputResult(shot, gun.State()) ==
              if enableCamera then GunInput(old(gun.State()), keys, hasBody && gun.hasMesh) else InputResult(None, old(gun.State()))
      ensures allBullets == old(allBullets) + ShotBullets(shot, cameraPos, jx, jy, old(gun.isShootingPosition), aim)
      ensures flashIntensity == if shot == Some(Fired) then 2.0 else old(flashIntensity)
      ensures timers == ShotCallbacks(shot, gun.isGunLoader, gun.pistolFireInterval, gun.riffleFireInterval)
    {
      shot, timers := None, Callbacks(None, None);
      if enableCamera {
        shot, timers := Event(keys, forward, aim, jx, jy);
      }
    }

    /** The last part of `update`: respawn, free-look unlock, and the health
        snapshot that the next update's regeneration compares against. */
    method RespawnAndSnapshot(c: Cursor, orbitCameraActive: bool)
      modifies this`bodyPos, this`enableCamera, this`previousHealth
      ensures previousHealth == health
      ensures bodyPos == if hasBody && old(bodyPos).y < FallLimit then RespawnPoint else old(bodyPos)
      ensures enableCamera == (old(enableCamera) || (!orbitCameraActive && CursorCentred(c)))
    {
      RespawnAfterDeath();
      IsStartCamera(c, orbitCameraActive);
      previousHealth := health;
    }

    /** The second half of `update`: input (only with free look on), then
        respawn, free-look unlock and the health snapshot. */
    method InputThenRespawn(keys: Keys, forward: Planar, aim: Vec3, jx: real, jy: real,
                            c: Cursor, orbitCameraActive: bool)
      returns (shot: Option<ShotOutcome>, timers: Callbacks)
      requires Valid() && jx in Jitters && jy in Jitters
      modifies this`bodyPos, this`isMoving, this`allBullets, this`flashIntensity, this`enableCamera, this`previousHealth
      modifies gun`pistolChargeNow, gun`riffleChargeNow, gun`isFire, gun`fireBackward, gun`isShootingPosition
      ensures Valid()
      ensures previousHealth == health
      ensures var moved := Moved(old(bodyPos), if old(enableCamera) && hasBody then StepAsWritten(keys, forward) else Still);
              bodyPos == if hasBody && moved.y < FallLimit then RespawnPoint else moved
      ensures isMoving == if old(enableCamera) && !keys.w && !keys.s && !keys.a && !keys.d then false
                          else if old(enableCamera) && hasBody then true else old(isMoving)
      ensures InputResult(shot, gun.State()) ==
              if old(enableCamera) then GunInput(old(gun.State()), keys, hasBody && gun.hasMesh) else InputResult(None, old(gun.State()))
      ensures allBullets == old(allBullets) + ShotBullets(shot, cameraPos, jx, jy, old(gun.isShootingPosition), aim)
      ensures flashIntensity == if shot == Some(Fired) then 2.0 else old(flashIntensity)
      ensures timers == ShotCallbacks(shot, gun.isGunLoader, gun.pistolFireInterval, gun.riffleFireInterval)
      ensures enableCamera == (old(enableCamera) || (!orbitCameraActive && CursorCentred(c)))
    {
      shot, timers := InputIfFreeLook(keys, forward, aim, jx, jy);
      RespawnAndSnapshot(c, orbitCameraActive);
    }

    /** `update`: camera follow, idle regeneration, input (only with free
        look on), respawn, free-look unlock, and finally the health snapshot.
        The frame leaves the view angles and the loaded-object flags alone. */
    method Update(keys: Keys, forward: Planar, aim: Vec3, jx: real, jy: real, bob: real,
                  c: Cursor, orbitCameraActive: bool)
      returns (shot: Option<ShotOutcome>, timers: Callbacks)
      requires Valid() && jx in Jitters && jy in Jitters
      modifies this`cameraPos, this`cameraMoveY, this`health, this`gameRunning
      modifies this`bodyPos, this`isMoving, this`allBullets, this`flashIntensity, this`enableCamera, this`previousHealth
      modifies gun`pistolChargeNow, gun`riffleChargeNow, gun`isFire, gun`fireBackward, gun`isShootingPosition
      ensures Valid()
      ensures previousHealth == health
      ensures health == if hasHealthDom then Regenerated(old(previousHealth), old(health), maxHealth) else old(health)
      ensures gameRunning == old(gameRunning)
      ensures cameraPos == if hasBody then CameraAt(old(bodyPos), bob) else old(cameraPos)
      ensures cameraMoveY == old(cameraMoveY) + (if hasBody && old(isMoving) then 0.1 else 0.0)
      ensures var moved := Moved(old(bodyPos), if old(enableCamera) && hasBody then StepAsWritten(keys, forward) else Still);
              bodyPos == if hasBody && moved.y < FallLimit then RespawnPoint else moved
      ensures isMoving == if old(enableCamera) && !keys.w && !keys.s && !keys.a && !keys.d then false
                          else if old(enableCamera) && hasBody then true else old(isMoving)
      ensures InputResult(shot, gun.State()) ==
              if old(enableCamera) then GunInput(old(gun.State()), keys, hasBody && gun.hasMesh) else InputResult(None, old(gun.State()))
      ensures allBullets == old(allBullets) + ShotBullets(shot, cameraPos, jx, jy, old(gun.isShootingPosition), aim)
      ensures flashIntensity == if shot == Some(Fired) then 2.0 else old(flashIntensity)
      ensures timers == ShotCallbacks(shot, gun.isGunLoader, gun.pistolFireInterval, gun.riffleFireInterval)
      ensures enableCamera == (old(enableCamera) || (!orbitCameraActive && CursorCentred(c)))
    {
      FollowAndRegenerate(bob);
      shot, timers := InputThenRespawn(keys, forward, aim, jx, jy, c, orbitCameraActive);
    }
  }
}
