/** The decisions of the player in src/sprite/player.ts, as functions of the
    values they read: health change and clamping, idle regeneration, the
    fire-rate-gated shot over the two loadouts, reload, the pitch clamp and
    the keyboard step. The class `PlayerModel.Player` performs these updates
    on its fields and is proved against the functions here. */
module PlayerLogic {
  import opened Common

  /** `max_health`, also the health a player starts with. */
  const MaxHealth: real := 100.0
  /** The heal `auto_regenerate` asks for on an idle tick. */
  const RegenAmount: real := 0.1
  /** The pitch limit of `moveHead`, in degrees. */
  const PitchLimit: real := 60.0
  /** The choice set of the bullet-origin jitter, on x and on y. */
  const Jitters: seq<real> := [-0.5, -0.3, 0.0, 0.3, 0.5]
  /** Delay of the recoil ("fire backward") reset after a shot or an empty
      click. */
  const KickMs: int := 100
  /** `health_movement_intensity`: divisor of the head bob. */
  const BobDivisor: real := 10.0
  /** Height below which `respawn_after_death` puts the body back. */
  const FallLimit: real := -5.0
  const RespawnPoint: Vec3 := Vec3(0.0, 10.0, 0.0)
  /** `position`: where the physics body is created. */
  const SpawnPoint: Vec3 := Vec3(-7.0, 10.0, 21.0)
  /** Half-width, in pixels, of the screen-centre box that unlocks free look. */
  const CursorSlack: real := 10.0

  // ---------------------------------------------------------------------
  // Health

  /** Health after `set_health_point(hp)` when the health widget exists:
      `health + hp`, raised to 0 below zero and lowered to the maximum
      above it. */
  function HealthAfter(health: real, hp: real, maxHealth: real): (r: real)
    requires 0.0 <= maxHealth
    ensures 0.0 <= r <= maxHealth
    ensures health + hp < 0.0 ==> r == 0.0
    ensures health + hp > maxHealth ==> r == maxHealth
    ensures 0.0 <= health + hp <= maxHealth ==> r == health + hp
  {
    var h := health + hp;
    if h < 0.0 then 0.0
    else if h > maxHealth then maxHealth
    else h
  }

  /** The change that ends the game: the sum drops strictly below zero. */
  predicate StopsGame(health: real, hp: real) {
    health + hp < 0.0
  }

  /** The clamped health is the point of [0, maxHealth] nearest to
      `health + hp`: no admissible health is closer. */
  lemma HealthAfterIsNearest(health: real, hp: real, maxHealth: real, y: real)
    requires 0.0 <= y <= maxHealth
    ensures Abs(HealthAfter(health, hp, maxHealth) - (health + hp)) <= Abs(y - (health + hp))
  {
  }

  /** Landing exactly on zero clamps nothing and does not end the game,
      because the game-over condition is strict. */
  lemma ExactZeroKeepsGameRunning(health: real, hp: real, maxHealth: real)
    requires 0.0 <= maxHealth && health + hp == 0.0
    ensures HealthAfter(health, hp, maxHealth) == 0.0 && !StopsGame(health, hp)
  {
  }

  // ---------------------------------------------------------------------
  // Idle regeneration

  /** `auto_regenerate`'s guard: health did not move since the snapshot
      taken at the end of the previous update, and is below the maximum. */
  predicate Idle(previousHealth: real, health: real, maxHealth: real) {
    previousHealth == health && health < maxHealth
  }

  /** Health after `auto_regenerate` when the health widget exists. */
  function Regenerated(previousHealth: real, health: real, maxHealth: real): (r: real)
    requires 0.0 <= health <= maxHealth
    ensures health <= r <= maxHealth
    ensures Idle(previousHealth, health, maxHealth) ==> r == Min(health + RegenAmount, maxHealth) && r > health
    ensures !Idle(previousHealth, health, maxHealth) ==> r == health
  {
    if Idle(previousHealth, health, maxHealth) then HealthAfter(health, RegenAmount, maxHealth)
    else health
  }

  /** Health after `n` updates during which nothing else changes health:
      each update regenerates, then re-takes the snapshot. */
  function IdleUpdates(health: real, n: nat, maxHealth: real): real
    requires 0.0 <= health <= maxHealth
    decreases n
  {
    if n == 0 then health
    else IdleUpdates(Regenerated(health, health, maxHealth), n - 1, maxHealth)
  }

  /** An idle player gains exactly `RegenAmount` per update until the
      maximum, and then stays there. */
  lemma {:induction false} IdleUpdatesClimb(health: real, n: nat, maxHealth: real)
    requires 0.0 <= health <= maxHealth
    ensures IdleUpdates(health, n, maxHealth) == Min(health + n as real * RegenAmount, maxHealth)
    decreases n
  {
    if n > 0 {
      var next := Regenerated(health, health, maxHealth);
      IdleUpdatesClimb(next, n - 1, maxHealth);
    }
  }

  // ---------------------------------------------------------------------
  // The gun: two loadouts, pistol (`is_gun_loader`) and rifle

  /** The fields of the game's gun object that the player reads and writes. */
  datatype GunState = GunState(
    isGunLoader: bool,
    pistolNow: int, pistolMax: int,
    riffleNow: int, riffleMax: int,
    isFire: bool, fireBackward: bool, isShootingPosition: bool)

  /** No loadout holds a negative charge or more than its magazine. */
  predicate GunValid(g: GunState) {
    0 <= g.pistolNow <= g.pistolMax && 0 <= g.riffleNow <= g.riffleMax
  }

  /** Charge of the loadout in hand, of the other one, and the magazine in hand. */
  function Charge(g: GunState): int { if g.isGunLoader then g.pistolNow else g.riffleNow }
  function OtherCharge(g: GunState): int { if g.isGunLoader then g.riffleNow else g.pistolNow }
  function ChargeMax(g: GunState): int { if g.isGunLoader then g.pistolMax else g.riffleMax }

  /** Loadout choice, magazines and aiming posture agree. */
  predicate SameSetup(a: GunState, b: GunState) {
    a.isGunLoader == b.isGunLoader && a.pistolMax == b.pistolMax && a.riffleMax == b.riffleMax
    && a.isShootingPosition == b.isShootingPosition
  }

  /** What a pull of the trigger did: nothing (`is_fire` still set, no body
      or no gun mesh), a shot, or the empty-weapon click. */
  datatype ShotOutcome = Ignored | Fired | Empty
  datatype ShotResult = ShotResult(outcome: ShotOutcome, gun: GunState)

  /** The gun side of `shoot`; `ready` says that the physics body and the
      gun mesh exist. */
  function ShotAttempt(g: GunState, ready: bool): (r: ShotResult)
    ensures r.outcome == Fired <==> !g.isFire && ready && Charge(g) > 0
    ensures r.outcome == Empty <==> !g.isFire && ready && Charge(g) <= 0
    ensures r.outcome == Ignored ==> r.gun == g
    ensures r.outcome == Fired ==>
      && Charge(r.gun) == Charge(g) - 1 && OtherCharge(r.gun) == OtherCharge(g)
      && r.gun.isFire && r.gun.fireBackward && SameSetup(r.gun, g)
    ensures r.outcome == Empty ==> r.gun == g.(fireBackward := true)
    ensures GunValid(g) ==> GunValid(r.gun)
  {
    if g.isFire || !ready then ShotResult(Ignored, g)
    else if g.isGunLoader && g.pistolNow > 0 then
      ShotResult(Fired, g.(pistolNow := g.pistolNow - 1, isFire := true, fireBackward := true))
    else if !g.isGunLoader && g.riffleNow > 0 then
      ShotResult(Fired, g.(riffleNow := g.riffleNow - 1, isFire := true, fireBackward := true))
    else ShotResult(Empty, g.(fireBackward := true))
  }

  /** The `setTimeout` callbacks a call of `shoot` starts, as delays in ms:
      the fire-rate timer that clears `is_fire`, and the recoil timer that
      clears `fire_backward`. */
  datatype Callbacks = Callbacks(fire: Option<nat>, kick: Option<int>)

  /** The callbacks started by `shot` (`None`: the trigger was not pulled),
      with the pistol in hand or not: a shot starts the fire-rate timer of
      the loadout in hand and the recoil timer, an empty click only the
      recoil timer, an ignored pull neither. */
  function ShotCallbacks(shot: Option<ShotOutcome>, pistolInHand: bool, pistolInterval: nat, riffleInterval: nat)
    : (c: Callbacks)
    ensures c.fire.Some? <==> shot == Some(Fired)
    ensures c.fire.Some? ==> c.fire.value == if pistolInHand then pistolInterval else riffleInterval
    ensures c.kick.Some? <==> shot == Some(Fired) || shot == Some(Empty)
    ensures c.kick.Some? ==> c.kick.value == KickMs
  {
    match shot
    case Some(Fired) => Callbacks(Some(if pistolInHand then pistolInterval else riffleInterval), Some(KickMs))
    case Some(Empty) => Callbacks(None, Some(KickMs))
    case _ => Callbacks(None, None)
  }

  /** Every flag a pull sets has a timer that clears it: the fire-rate timer
      starts exactly when the pull sets `is_fire`, and the recoil timer
      starts whenever the pull leaves `fire_backward` set by it. */
  lemma EveryFlagHasItsTimer(g: GunState, ready: bool, pistolInterval: nat, riffleInterval: nat)
    ensures var r := ShotAttempt(g, ready);
            var c := ShotCallbacks(Some(r.outcome), g.isGunLoader, pistolInterval, riffleInterval);
            && (c.fire.Some? <==> !g.isFire && r.gun.isFire)
            && (c.kick.Some? <==> r.outcome != Ignored)
            && (c.kick.Some? ==> r.gun.fireBackward)
  {
  }

  /** The KeyR branch of `event`: the loadout in hand is refilled at once. */
  function Reloaded(g: GunState): (r: GunState)
    ensures Charge(r) == ChargeMax(g) && OtherCharge(r) == OtherCharge(g) && SameSetup(r, g)
    ensures r.isFire == g.isFire && r.fireBackward == g.fireBackward
    ensures GunValid(g) ==> GunValid(r)
  {
    if g.isGunLoader then g.(pistolNow := g.pistolMax) else g.(riffleNow := g.riffleMax)
  }

  /** What the gun keys of one `event` call did: the pull, if the button
      was held, and the gun afterwards. */
  datatype InputResult = InputResult(shot: Option<ShotOutcome>, gun: GunState)

  /** The gun part of `event`: reload if R is held, then a pull if the
      left button is held, then the posture from Space. */
  function GunInput(g: GunState, k: Keys, ready: bool): (r: InputResult)
    ensures r.shot.Some? <==> k.fire
    ensures r.gun.isShootingPosition == k.space
    ensures r.gun.isGunLoader == g.isGunLoader
    ensures !k.fire ==> r.gun == (if k.r then Reloaded(g) else g).(isShootingPosition := k.space)
    ensures GunValid(g) ==> GunValid(r.gun)
  {
    var loaded := if k.r then Reloaded(g) else g;
    if k.fire then
      var a := ShotAttempt(loaded, ready);
      InputResult(Some(a.outcome), a.gun.(isShootingPosition := k.space))
    else InputResult(None, loaded.(isShootingPosition := k.space))
  }

  /** While the fire-rate timer runs a second pull is ignored: two pulls
      inside one fire interval make exactly one shot. */
  lemma SecondPullInsideIntervalIgnored(g: GunState, ready: bool)
    requires ShotAttempt(g, ready).outcome == Fired
    ensures ShotAttempt(ShotAttempt(g, ready).gun, ready).outcome == Ignored
    ensures Charge(ShotAttempt(ShotAttempt(g, ready).gun, ready).gun) == Charge(g) - 1
  {
  }

  /** Number of shots among `n` pulls when the fire-rate timer has elapsed
      before each of them. */
  function ShotsFired(g: GunState, n: nat, ready: bool): nat
    decreases n
  {
    if n == 0 then 0
    else
      var r := ShotAttempt(g.(isFire := false), ready);
      (if r.outcome == Fired then 1 else 0) + ShotsFired(r.gun, n - 1, ready)
  }

  /** However often the trigger is pulled, the gun fires exactly as many
      shots as the loadout has charges (and no more than the pulls). */
  lemma {:induction false} ShotsFiredBounded(g: GunState, n: nat)
    requires GunValid(g)
    ensures ShotsFired(g, n, true) == if n <= Charge(g) then n else Charge(g)
    decreases n
  {
    if n > 0 {
      var r := ShotAttempt(g.(isFire := false), true);
      ShotsFiredBounded(r.gun, n - 1);
    }
  }

  /** A freshly reloaded, idle gun with a non-empty magazine always fires. */
  lemma ReloadThenFire(g: GunState)
    requires GunValid(g) && ChargeMax(g) > 0 && !g.isFire
    ensures ShotAttempt(Reloaded(g), true).outcome == Fired
  {
  }

  // ---------------------------------------------------------------------
  // Camera and bullets

  /** Where `update_position` puts the camera: above the body, raised by
      1 and by the head bob `bob / BobDivisor`. */
  function CameraAt(body: Vec3, bob: real): (c: Vec3)
    ensures c.x == body.x && c.z == body.z
    ensures -1.0 <= bob <= 1.0 ==> body.y + 0.9 <= c.y <= body.y + 1.1
  {
    Vec3(body.x, body.y + 1.0 + bob / BobDivisor, body.z)
  }

  datatype Bullet = Bullet(origin: Vec3, direction: Vec3)

  /** Origin of a new bullet: the camera position, moved on x and y by the
      drawn jitter unless the player holds the steadied-aim posture.
      (`posX ? posX : 0` maps every drawn value to itself.) */
  function BulletOrigin(camera: Vec3, jx: real, jy: real, steady: bool): (p: Vec3)
    ensures p.z == camera.z
    ensures steady ==> p == camera
    ensures !steady ==> p.x - camera.x == jx && p.y - camera.y == jy
    ensures jx in Jitters && jy in Jitters ==> Abs(p.x - camera.x) <= 0.5 && Abs(p.y - camera.y) <= 0.5
  {
    if steady then camera else Vec3(camera.x + jx, camera.y + jy, camera.z)
  }
  /** The bullets a pull appends: one, from `BulletOrigin` along `aim`, for
      a shot, none otherwise. */
  function ShotBullets(shot: Option<ShotOutcome>, camera: Vec3, jx: real, jy: real, steady: bool, aim: Vec3)
    : (b: seq<Bullet>)
    ensures |b| == if shot == Some(Fired) then 1 else 0
    ensures forall i :: 0 <= i < |b| ==> b[i].direction == aim && b[i].origin == BulletOrigin(camera, jx, jy, steady)
  {
    if shot == Some(Fired) then [Bullet(BulletOrigin(camera, jx, jy, steady), aim)] else []
  }


  // ---------------------------------------------------------------------
  // Looking around

  /** The mouse and window readings `moveHead` and `isStartCamera` use. */
  datatype Cursor = Cursor(
    x: real, y: real, previousX: real, previousY: real,
    sensibility: real, smoothFactor: real,
    windowWidth: real, windowHeight: real)

  /** `THREE.MathUtils.clamp(angle, -60, 60)`. */
  function ClampPitch(angle: real): (r: real)
    ensures -PitchLimit <= r <= PitchLimit
    ensures -PitchLimit <= angle <= PitchLimit ==> r == angle
    ensures angle > PitchLimit ==> r == PitchLimit
    ensures angle < -PitchLimit ==> r == -PitchLimit
  {
    if angle < -PitchLimit then -PitchLimit
    else if angle > PitchLimit then PitchLimit
    else angle
  }

  /** Clamping twice is clamping once. */
  lemma ClampPitchIdempotent(angle: real)
    ensures ClampPitch(ClampPitch(angle)) == ClampPitch(angle)
  {
  }

  /** Cursor movement since the previous reading, scaled by the sensitivity
      and the smoothing factor (degrees). */
  function DeltaX(c: Cursor): (d: real)
    ensures c.x == c.previousX ==> d == 0.0
    ensures c.sensibility > 0.0 && c.smoothFactor > 0.0 ==> (d > 0.0 <==> c.x > c.previousX)
  {
    Scaled(c.x - c.previousX, c.sensibility * c.smoothFactor)
  }

  function DeltaY(c: Cursor): (d: real)
    ensures c.y == c.previousY ==> d == 0.0
    ensures c.sensibility > 0.0 && c.smoothFactor > 0.0 ==> (d > 0.0 <==> c.y > c.previousY)
  {
    Scaled(c.y - c.previousY, c.sensibility * c.smoothFactor)
  }

  /** A movement scaled by a factor; a positive factor keeps its sign. */
  function Scaled(m: real, f: real): (d: real)
    ensures m == 0.0 ==> d == 0.0
    ensures f > 0.0 ==> (d > 0.0 <==> m > 0.0)
  {
    if f > 0.0 && m > 0.0 then PositiveProduct(m, f); m * f
    else if f > 0.0 && m < 0.0 then PositiveProduct(-m, f); m * f
    else m * f
  }

  /** `isStartCamera`'s condition: the cursor is strictly inside the box of
      half-width `CursorSlack` around the window centre. */
  predicate CursorCentred(c: Cursor)
    ensures CursorCentred(c) <==>
      Abs(c.x - c.windowWidth / 2.0) < CursorSlack && Abs(c.y - c.windowHeight / 2.0) < CursorSlack
  {
    && c.x > c.windowWidth / 2.0 - CursorSlack && c.x < c.windowWidth / 2.0 + CursorSlack
    && c.y > c.windowHeight / 2.0 - CursorSlack && c.y < c.windowHeight / 2.0 + CursorSlack
  }

  // ---------------------------------------------------------------------
  // Walking

  /** The keys and button `event` reads. */
  datatype Keys = Keys(w: bool, s: bool, a: bool, d: bool, r: bool, space: bool, fire: bool)

  /** A displacement or direction in the ground plane (x, z). */
  datatype Planar = Planar(x: real, z: real)

  function Add(p: Planar, q: Planar): Planar { Planar(p.x + q.x, p.z + q.z) }
  /** `direction.multiplyScalar(velocity)` for the player's `velocity` of 0.1:
      one keyboard step along `p`. */
  function Stride(p: Planar): Planar { Planar(0.1 * p.x, 0.1 * p.z) }
  function Negated(p: Planar): Planar { Planar(-p.x, -p.z) }
  /** No displacement. */
  const Still: Planar := Planar(0.0, 0.0)

  /** A body position moved within the ground plane; the height is kept. */
  function Moved(p: Vec3, d: Planar): Vec3 { Vec3(p.x + d.x, p.y, p.z + d.z) }

  /** Two moves in a row are one move by the sum of the displacements. */
  lemma MovedTwice(p: Vec3, d: Planar, e: Planar)
    ensures Moved(Moved(p, d), e) == Moved(p, Add(d, e))
  {
  }

  /** `camera.up x direction` for the default up vector (0, 1, 0): the
      direction a quarter turn to the left. */
  function LeftOf(dir: Planar): Planar {
    Planar(dir.z, -dir.x)
  }

  /** The sideways direction is square to `dir` and as long, and two
      quarter turns face backwards. */
  lemma LeftOfIsQuarterTurn(dir: Planar)
    ensures var l := LeftOf(dir);
            && l.x * dir.x + l.z * dir.z == 0.0
            && l.x * l.x + l.z * l.z == dir.x * dir.x + dir.z * dir.z
            && LeftOf(l) == Negated(dir)
  {
  }

  /** Forward part of a keyboard step: W wins over S. */
  function ForwardStep(k: Keys, forward: Planar): Planar {
    if k.w then Stride(forward)
    else if k.s then Stride(Negated(forward))
    else Planar(0.0, 0.0)
  }

  /** Sideways part of a keyboard step: A wins over D. */
  function StrafeStep(k: Keys, forward: Planar): Planar {
    if k.a then Stride(LeftOf(forward))
    else if k.d then Stride(Negated(LeftOf(forward)))
    else Planar(0.0, 0.0)
  }

  /** Displacement of the body by one `event` call, with the direction
      vector read as a value: forward part plus sideways part. */
  function Step(k: Keys, forward: Planar): (p: Planar)
    ensures !k.w && !k.s && !k.a && !k.d ==> p == Planar(0.0, 0.0)
  {
    Add(ForwardStep(k, forward), StrafeStep(k, forward))
  }

  /** The sideways speed does not depend on whether W or S is held. */
  lemma StrafeIndependentOfForward(k: Keys, forward: Planar)
    ensures Step(k, forward) == Add(Step(k.(a := false, d := false), forward),
                                    Step(k.(w := false, s := false), forward))
  {
    var zero := Planar(0.0, 0.0);
    var f, l := ForwardStep(k, forward), StrafeStep(k, forward);
    assert ForwardStep(k.(a := false, d := false), forward) == f;
    assert StrafeStep(k.(a := false, d := false), forward) == zero;
    assert ForwardStep(k.(w := false, s := false), forward) == zero;
    assert StrafeStep(k.(w := false, s := false), forward) == l;
  }

  /** Displacement of the body by one `event` call as the source computes
      it: `moveBodyAlongDirection(direction)` scales `direction` in place, so
      after a W step the strafe direction is built from the scaled vector. */
  function StepAsWritten(k: Keys, forward: Planar): Planar {
    Add(ForwardStep(k, forward), StrafeStep(k, if k.w then Stride(forward) else forward))
  }

  /** Without W, or without A and D, the step as written is the intended
      step; only W with A or D sets them apart. */
  lemma StepAsWrittenAgreesWithoutW(k: Keys, forward: Planar)
    requires !k.w || (!k.a && !k.d)
    ensures StepAsWritten(k, forward) == Step(k, forward)
  {
  }

  // Facing +z (forward (0, 1)) with W and A held.
  const HoldWA: Keys := Keys(true, false, true, false, false, false, false)
  const HoldA: Keys := Keys(false, false, true, false, false, false, false)
  const FacingZ: Planar := Planar(0.0, 1.0)

  lemma ForwardFacingZ()
    ensures ForwardStep(HoldWA, FacingZ) == Stride(FacingZ) == Planar(0.0, 0.1)
    ensures ForwardStep(HoldA, FacingZ) == Planar(0.0, 0.0)
  {
  }

  lemma StrafeFacingZ()
    ensures StrafeStep(HoldWA, FacingZ) == StrafeStep(HoldA, FacingZ) == Planar(0.1, 0.0)
  {
  }

  lemma StrafeFromScaledDirection()
    ensures StrafeStep(HoldWA, Planar(0.0, 0.1)) == Planar(0.01, 0.0)
  {
  }

  /** The forward move followed by the sideways move, built from the
      direction as the forward move left it, is the whole step as written;
      `moved` says whether the moves took place at all. */
  lemma StepsCompose(start: Vec3, mid: Vec3, end: Vec3, k: Keys, forward: Planar, moved: bool)
    requires mid == Moved(start, if moved then ForwardStep(k, forward) else Still)
    requires end == Moved(mid, if moved then StrafeStep(k, if moved && k.w then Stride(forward) else forward)
                               else Still)
    ensures end == Moved(start, if moved then StepAsWritten(k, forward) else Still)
  {
    MovedTwice(start, ForwardStep(k, forward), StrafeStep(k, if k.w then Stride(forward) else forward));
  }

  /** Holding W and A while facing +z, the source strafes 0.01 per tick, a
      tenth of the 0.1 it strafes with A alone (`StepAsWrittenStrafeAlone`);
      the value reading strafes 0.1 either way (`StepStrafesFully`). */
  lemma StepAsWrittenSlowsStrafe()
    ensures StepAsWritten(HoldWA, FacingZ) == Planar(0.01, 0.1)
  {
    ForwardFacingZ();
    StrafeFromScaledDirection();
  }

  lemma StepAsWrittenStrafeAlone()
    ensures StepAsWritten(HoldA, FacingZ) == Planar(0.1, 0.0)
  {
    ForwardFacingZ();
    StrafeFacingZ();
  }

  lemma StepStrafesFully()
    ensures Step(HoldWA, FacingZ) == Planar(0.1, 0.1)
  {
    ForwardFacingZ();
    StrafeFacingZ();
  }
}
