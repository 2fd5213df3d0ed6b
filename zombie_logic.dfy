/** The decisions of a zombie in src/sprite/zombies/zombie.ts, as functions
    of its state and of what one tick reads: damage intake and the death
    latch, the chase step, the attack entry and the attack hit, the walk
    fallback, the hurt and death timers, the one-shot death clip, the
    fidelity hysteresis and the ambient-sound timer. The class
    `ZombieModel.Zombie` performs these updates on its fields and is proved
    against the functions here. */
module ZombieLogic {
  import opened Common

  /** How long a hit keeps the zombie hurt; it clears only after more. */
  const HurtMs: int := 500
  /** How long a body stays after death; it is removed only after more. */
  const RemovalMs: int := 3000
  /** `obtimisation_range`: the distance at which fidelity switches. */
  const LodRange: real := 5.0
  /** The playback speeds `play_animation` is asked for. */
  const GetHitSpeed: real := 0.04
  const AttackSpeed: real := 0.08
  const HeavyAttackSpeed: real := 0.12
  const DeathSpeed: real := 0.08
  /** The mesh hangs this far below the physics body. */
  const MeshDrop: real := 1.2
  /** The choice sets of the three `randomChoice` draws. */
  const AttackPicks: seq<string> := ["1", "2", "3"]
  const DeathPicks: seq<string> := ["1", "2"]
  const RoadPicks: seq<string> := ["", "2"]

  // ---------------------------------------------------------------------
  // What a zombie is

  /** The parts of a zombie fixed at construction: its type and spawn point
      (`properties`), its chase divisor, its attack strength and the speed
      of its walk clip. */
  datatype Traits = Traits(zombieType: int, spawn: Vec3, velocity: int, damage: real, walkSpeed: real)

  predicate TraitsValid(t: Traits) {
    if t.zombieType == 2 then 200 <= t.velocity <= 400 else 300 <= t.velocity <= 500
  }

  /** An animation clip started by `play_animation`; `once` unless asked to
      loop. */
  datatype Clip = Clip(name: string, once: bool)

  /** The shared `objectLoader`: whether its assets finished loading and
      the names of the clips it holds. */
  datatype AnimLoader = AnimLoader(finishLoad: bool, animations: set<string>)

  /** The fields of a zombie that change after construction. */
  datatype ZombieState = ZombieState(
    health: real,
    finishLoad: bool,
    hasMesh: bool,
    bodyPos: Vec3,
    meshPos: Vec3,
    meshRemoved: bool,
    animationName: string,
    animationSpeed: real,
    lastAction: Option<Clip>,
    isAttack: bool,
    isHurt: bool,
    isDeath: bool,
    isPlayDeath: bool,
    hurtTime: int,
    deathTime: int,
    materialChange: bool,
    roadInterval: int,
    nextRoadInterval: int)

  /** Facts every reachable state keeps: the death clip and the removal of
      the body only come after death, a clip only plays on a mesh, and a
      mesh only exists once loading was attempted. */
  predicate Inv(s: ZombieState) {
    && (s.isPlayDeath ==> s.isDeath)
    && (s.meshRemoved ==> s.isDeath && s.hasMesh)
    && (s.lastAction.Some? ==> s.hasMesh)
    && (s.hasMesh ==> s.finishLoad)
  }

  /** The chase divisor of the constructor: `randInt(300, 500)`, drawn
      again as `randInt(200, 400)` for type 2. */
  function Velocity(zombieType: int, r: real, r2: real): (v: int)
    requires 0.0 <= r < 1.0 && 0.0 <= r2 < 1.0
    ensures zombieType == 2 ==> 200 <= v <= 400
    ensures zombieType != 2 ==> 300 <= v <= 500
  {
    if zombieType == 2 then RandInt(200, 400, r2) else RandInt(300, 500, r)
  }

  /** `damage = randInt(0.4, 0.6)` as written: the integer formula on these
      bounds gives 0.4 plus a whole number. */
  function DamageRollAsWritten(r: real): (d: real)
    requires 0.0 <= r < 1.0
    ensures 0.4 <= d < 1.6
  {
    RandIntOnReals(0.4, 0.6, r)
  }

  /** The roll is 0.4, or 1.4 for every draw from 5/6 up: it never lies
      strictly between 0.4 and 0.6. */
  lemma DamageRollAsWrittenOutcomes(r: real)
    requires 0.0 <= r < 1.0
    ensures DamageRollAsWritten(r) == 0.4 || DamageRollAsWritten(r) == 1.4
    ensures DamageRollAsWritten(r) == 1.4 <==> r * 1.2 >= 1.0
  {
    var f := (r * 1.2).Floor;
    assert 0.0 <= r * 1.2 < 1.2;
    assert f == 0 || f == 1;
  }

  /** The intended strength: a real drawn from [0.4, 0.6). */
  function DamageRoll(r: real): (d: real)
    requires 0.0 <= r < 1.0
    ensures 0.4 <= d < 0.6
  {
    RandFloat(0.4, 0.6, r)
  }

  /** A freshly constructed zombie, at time `now`, before its mesh exists. */
  function Initial(health: real, now: int): (s: ZombieState)
    ensures Inv(s) && !s.finishLoad && !s.hasMesh
    ensures !s.isAttack && !s.isHurt && !s.isDeath && s.animationName == ""
    ensures s.materialChange && s.hurtTime == now && s.roadInterval == now && s.nextRoadInterval == 0
  {
    ZombieState(health, false, false, Vec3(0.0, 0.0, 0.0), Vec3(0.0, 0.0, 0.0), false,
                "", 0.0, None, false, false, false, false, now, now, true, now, 0)
  }

  // ---------------------------------------------------------------------
  // Animation bookkeeping

  /** The clip `name` can be started: the loader exists, holds a clip of
      that name, and the zombie has a mesh. */
  predicate Playable(loader: Option<AnimLoader>, name: string, hasMesh: bool) {
    loader.Some? && name in loader.value.animations && hasMesh
  }

  /** `play_animation(name, speed, loop)`: the speed is always recorded;
      the clip becomes the last action only when it can be started. */
  function Play(s: ZombieState, loader: Option<AnimLoader>, name: string, speed: real, loop: bool): (r: ZombieState)
    ensures r == s.(animationSpeed := speed, lastAction := r.lastAction)
    ensures Playable(loader, name, s.hasMesh) ==> r.lastAction == Some(Clip(name, !loop))
    ensures !Playable(loader, name, s.hasMesh) ==> r.lastAction == s.lastAction
    ensures Inv(s) ==> Inv(r)
  {
    s.(animationSpeed := speed,
       lastAction := if Playable(loader, name, s.hasMesh) then Some(Clip(name, !loop)) else s.lastAction)
  }

  // ---------------------------------------------------------------------
  // Taking damage

  /** `get_damage(damage)` at time `now`. */
  function GetDamage(s: ZombieState, damage: real, now: int, loader: Option<AnimLoader>): (r: ZombieState)
    ensures s.isDeath ==> r == s
    ensures !s.isDeath ==> r.health == s.health - damage && r.isHurt && r.hurtTime == now
    ensures r.isDeath <==> s.isDeath || s.health - damage <= 0.0
    ensures r.isDeath && !s.isDeath ==> r.deathTime == now
    ensures !r.isDeath ==> r.animationName == "gethit" && r.animationSpeed == GetHitSpeed
    ensures r.bodyPos == s.bodyPos && r.isAttack == s.isAttack && r.isPlayDeath == s.isPlayDeath
    ensures r.hasMesh == s.hasMesh && r.meshRemoved == s.meshRemoved && r.materialChange == s.materialChange
    ensures r == s.(health := r.health, isHurt := r.isHurt, hurtTime := r.hurtTime,
                    isDeath := r.isDeath, deathTime := r.deathTime, animationName := r.animationName,
                    animationSpeed := r.animationSpeed, lastAction := r.lastAction)
    ensures !r.isDeath ==> r.deathTime == s.deathTime
    ensures Inv(s) ==> Inv(r)
  {
    if s.isDeath then s
    else
      var h := s.(isHurt := true, hurtTime := now, health := s.health - damage);
      if h.health <= 0.0 then h.(isDeath := true, deathTime := now)
      else Play(h.(animationName := "gethit"), loader, "gethit", GetHitSpeed, false)
  }

  // ---------------------------------------------------------------------
  // One tick of `update`

  /** What a tick reads besides the zombie: the time, the shared loader,
      whether the mesh to clone exists, the ambient sound (absent, or
      whether it is playing), and the random draws. */
  datatype Env = Env(
    now: int,
    loader: Option<AnimLoader>,
    meshSource: bool,
    roadSound: Option<bool>,
    attackPick: string,
    deathPick: string,
    roadDraw: real,
    roadPick: string)

  predicate EnvValid(e: Env) {
    e.attackPick in AttackPicks && e.deathPick in DeathPicks && e.roadPick in RoadPicks
    && 0.0 <= e.roadDraw < 1.0
  }

  datatype Fidelity = Low | High

  /** What a tick does outside the zombie: the health change asked of the
      player, the material switch, and the ambient sound file requested. */
  datatype Effects = Effects(hit: Option<real>, fidelity: Option<Fidelity>, ambient: Option<string>)

  const NoEffects: Effects := Effects(None, None, None)

  datatype TickResult = TickResult(state: ZombieState, effects: Effects)

  /** Squared ground distance; `Math.sqrt` is monotone, so every distance
      comparison of `update` is the same comparison on squares. */
  function SquaredDistance(p: Vec3, q: Vec3): (d: real)
    ensures d >= 0.0
  {
    (p.x - q.x) * (p.x - q.x) + (p.z - q.z) * (p.z - q.z)
  }

  /** `zombie_distance_attack`: 2 for type 1, 4 for every other type. */
  function AttackRange(zombieType: int): (d: real)
    ensures d > 0.0
  {
    if zombieType == 1 then 2.0 else 4.0
  }

  predicate InRange(zombieType: int, d2: real) {
    d2 < AttackRange(zombieType) * AttackRange(zombieType)
  }

  /** The health change `attack_player` asks of the player. */
  function AttackDamage(t: Traits): (hp: real)
    ensures t.damage > 0.0 ==> hp < 0.0
    ensures t.zombieType == 2 ==> hp * 1.5 == -t.damage
    ensures t.zombieType != 2 ==> hp == -t.damage
  {
    if t.zombieType == 2 then -t.damage / 1.5 else -t.damage
  }

  /** `setup_mesh` on the first tick after loading, and the finish flag. */
  function Setup(s: ZombieState, t: Traits, meshSource: bool): (r: ZombieState)
    ensures r.finishLoad && (s.finishLoad ==> r == s)
    ensures !s.finishLoad ==> r.hasMesh == (s.hasMesh || meshSource)
    ensures r == s.(finishLoad := r.finishLoad, hasMesh := r.hasMesh, bodyPos := r.bodyPos, meshPos := r.meshPos)
    ensures s.hasMesh ==> r.hasMesh
    ensures Inv(s) ==> Inv(r)
  {
    if s.finishLoad then s
    else if !meshSource then s.(finishLoad := true)
    else s.(hasMesh := true, meshPos := t.spawn, bodyPos := t.spawn, finishLoad := true)
  }

  /** The zombie chases only when it neither attacks, nor is hurt, nor is
      dead. */
  predicate Chasing(s: ZombieState) {
    !s.isAttack && !s.isHurt && !s.isDeath
  }

  /** The chase step toward the player at `p`, by `diff / velocity` on x and
      z, then the mesh follows the body. */
  function Chase(s: ZombieState, t: Traits, p: Vec3): (r: ZombieState)
    requires TraitsValid(t)
    ensures r == s.(bodyPos := r.bodyPos, meshPos := r.meshPos)
    ensures r.bodyPos.y == s.bodyPos.y && r.meshPos == Vec3(r.bodyPos.x, r.bodyPos.y - MeshDrop, r.bodyPos.z)
    ensures !Chasing(s) ==> r.bodyPos == s.bodyPos
  {
    var v := t.velocity as real;
    var b := if Chasing(s) then Vec3(s.bodyPos.x + (p.x - s.bodyPos.x) / v, s.bodyPos.y,
                                     s.bodyPos.z + (p.z - s.bodyPos.z) / v)
             else s.bodyPos;
    s.(bodyPos := b, meshPos := Vec3(b.x, b.y - MeshDrop, b.z))
  }

  datatype Acted = Acted(state: ZombieState, hit: Option<real>)

  /** The attack entry: the attack flag and an attack clip, "attack4" for
      type 2 and the drawn one of "attack1" to "attack3" otherwise. */
  function AttackEntry(s: ZombieState, t: Traits, e: Env): (r: ZombieState)
    ensures r == s.(isAttack := true, animationName := r.animationName,
                    animationSpeed := r.animationSpeed, lastAction := r.lastAction)
    ensures r.animationName == if t.zombieType == 2 then "attack4" else "attack" + e.attackPick
    ensures r.lastAction.Some? ==> r.hasMesh || s.lastAction.Some?
  {
    if t.zombieType == 2 then Play(s.(isAttack := true, animationName := "attack4"), e.loader, "attack4", HeavyAttackSpeed, true)
    else
      var n := "attack" + e.attackPick;
      Play(s.(isAttack := true, animationName := n), e.loader, n, AttackSpeed, true)
  }

  /** The walk fallback: the attack flag is cleared and the walk clip
      requested. */
  function WalkEntry(s: ZombieState, t: Traits, e: Env): (r: ZombieState)
    ensures r == s.(isAttack := false, animationName := "walk",
                    animationSpeed := t.walkSpeed, lastAction := r.lastAction)
    ensures r.lastAction.Some? ==> r.hasMesh || s.lastAction.Some?
  {
    Play(s.(isAttack := false, animationName := "walk"), e.loader, "walk", t.walkSpeed, true)
  }

  /** The death clip, drawn once and latched by `isPlayDeath`. */
  function DeathEntry(s: ZombieState, e: Env): (r: ZombieState)
    ensures r == s.(isPlayDeath := true, animationName := "death" + e.deathPick,
                    animationSpeed := DeathSpeed, lastAction := r.lastAction)
    ensures r.lastAction.Some? ==> r.hasMesh || s.lastAction.Some?
  {
    var n := "death" + e.deathPick;
    Play(s.(isPlayDeath := true, animationName := n), e.loader, n, DeathSpeed, false)
  }

  /** The animation decision of `update`, at squared distance `d2`:
      attack entry or attack hit in range, else the walk fallback, else the
      one-shot death clip. */
  function Behave(s: ZombieState, t: Traits, e: Env, d2: real): (r: Acted)
    ensures r.state == s.(animationName := r.state.animationName, animationSpeed := r.state.animationSpeed,
                          lastAction := r.state.lastAction, isAttack := r.state.isAttack,
                          isPlayDeath := r.state.isPlayDeath)
    ensures s.isPlayDeath ==> r.state.isPlayDeath
    ensures r.hit.Some? <==> InRange(t.zombieType, d2) && !s.isDeath && Contains(s.animationName, "attack")
    ensures r.hit.Some? ==> r.hit == Some(AttackDamage(t)) && r.state == s
    ensures Inv(s) ==> Inv(r.state)
  {
    if InRange(t.zombieType, d2) && !s.isDeath then
      if !Contains(s.animationName, "attack") then Acted(AttackEntry(s, t, e), None)
      else Acted(s, Some(AttackDamage(t)))
    else if !s.isHurt && !s.isDeath then
      if s.animationName != "walk" then Acted(WalkEntry(s, t, e), None)
      else Acted(s, None)
    else if s.isDeath && !s.isPlayDeath then
      if !Contains(s.animationName, "death") then Acted(DeathEntry(s, e), None)
      else Acted(s, None)
    else Acted(s, None)
  }

  /** The hurt expiry and the removal of a dead body, at time `now`. */
  function Timers(s: ZombieState, now: int): (r: ZombieState)
    ensures r == s.(isHurt := r.isHurt, meshRemoved := r.meshRemoved)
    ensures r.isHurt <==> s.isHurt && now - s.hurtTime <= HurtMs
    ensures r.meshRemoved <==> s.meshRemoved || (s.isDeath && now - s.deathTime > RemovalMs)
    ensures Inv(s) && s.hasMesh ==> Inv(r)
  {
    var h := if s.isHurt && now - s.hurtTime > HurtMs then s.(isHurt := false) else s;
    if h.isDeath && now - h.deathTime > RemovalMs then h.(meshRemoved := true) else h
  }

  datatype Switched = Switched(state: ZombieState, fidelity: Option<Fidelity>)

  /** The fidelity hysteresis: low beyond the range, high within it, and a
      switch only when the flag says the other fidelity is on. */
  function Lod(s: ZombieState, d2: real): (r: Switched)
    ensures r.state == s.(materialChange := d2 > LodRange * LodRange)
    ensures r.fidelity.Some? <==> r.state.materialChange != s.materialChange
    ensures r.fidelity == Some(Low) ==> r.state.materialChange
    ensures r.fidelity == Some(High) ==> !r.state.materialChange
  {
    if d2 > LodRange * LodRange && !s.materialChange then Switched(s.(materialChange := true), Some(Low))
    else if d2 <= LodRange * LodRange && s.materialChange then Switched(s.(materialChange := false), Some(High))
    else Switched(s, None)
  }

  /** The file of the ambient sound for a pick, `zombieRoad${pick}.mp3`. */
  function RoadFile(pick: string): string {
    "zombieRoad" + pick + ".mp3"
  }

  /** The intended request of an expired ambient timer: the file of the
      pick, for each pick, provided the sound exists and is not already
      playing. */
  function RoadSound(roadSound: Option<bool>, pick: string): (f: Option<string>)
    ensures f.Some? <==> roadSound == Some(false)
    ensures f.Some? ==> f.value == RoadFile(pick)
  {
    if roadSound == Some(false) then Some(RoadFile(pick)) else None
  }

  /** The request as written: the empty pick is falsy, so nothing is
      loaded for it; otherwise it is the intended request. */
  function RoadSoundAsWritten(roadSound: Option<bool>, pick: string): (f: Option<string>)
    ensures f.Some? <==> roadSound == Some(false) && pick != ""
    ensures f.Some? ==> f == RoadSound(roadSound, pick)
  {
    if roadSound == Some(false) && pick != "" then Some(RoadFile(pick)) else None
  }

  /** As written, the first ambient sound is never requested, whatever is
      drawn. */
  lemma RoadSoundAsWrittenSkipsFirst(roadSound: Option<bool>, pick: string)
    requires pick in RoadPicks
    ensures RoadSoundAsWritten(roadSound, pick) != Some("zombieRoad.mp3")
  {
    if RoadSoundAsWritten(roadSound, pick).Some? {
      assert pick == "2";
      assert RoadFile(pick)[10] == '2';
    }
  }

  /** Corrected, each of the two files is requested for its own pick. */
  lemma RoadSoundPlaysEveryPick()
    ensures RoadSound(Some(false), "") == Some("zombieRoad.mp3")
    ensures RoadSound(Some(false), "2") == Some("zombieRoad2.mp3")
  {
    assert RoadFile("") == "zombieRoad.mp3";
    assert RoadFile("2") == "zombieRoad2.mp3";
  }

  /** The ambient timer has run out: more than `nextRoadInterval` since the
      last reset, on a living zombie. */
  predicate RoadDue(s: ZombieState, now: int) {
    now - s.roadInterval > s.nextRoadInterval && !s.isDeath
  }

  datatype Sounded = Sounded(state: ZombieState, ambient: Option<string>)

  /** The ambient timer: reset to `now` with a fresh delay, and the sound. */
  function Ambient(s: ZombieState, e: Env): (r: Sounded)
    requires 0.0 <= e.roadDraw < 1.0
    ensures r.state == s.(roadInterval := r.state.roadInterval, nextRoadInterval := r.state.nextRoadInterval)
    ensures RoadDue(s, e.now) ==> r.state.roadInterval == e.now && 1000 <= r.state.nextRoadInterval <= 10000
    ensures !RoadDue(s, e.now) ==> r.state == s && r.ambient.None?
    ensures RoadDue(s, e.now) ==> r.ambient == RoadSoundAsWritten(e.roadSound, e.roadPick)
  {
    if RoadDue(s, e.now) then
      Sounded(s.(roadInterval := e.now, nextRoadInterval := RandInt(1000, 10000, e.roadDraw)),
              RoadSoundAsWritten(e.roadSound, e.roadPick))
    else Sounded(s, None)
  }

  /** The tick can act: the loader is not still busy, the player has a
      body, and the mesh exists once loading was attempted. */
  predicate Acts(s: ZombieState, t: Traits, e: Env, player: Option<Vec3>) {
    && !(e.loader.Some? && !e.loader.value.finishLoad)
    && player.Some?
    && Setup(s, t, e.meshSource).hasMesh
  }

  /** One `update` at `e.now` with the player's body at `player`. Distances
      are those before the chase step, as in the source. */
  function Tick(s: ZombieState, t: Traits, e: Env, player: Option<Vec3>): (r: TickResult)
    requires TraitsValid(t) && EnvValid(e)
    ensures r.state.isDeath == s.isDeath && r.state.health == s.health && r.state.deathTime == s.deathTime
    ensures r.state.isHurt ==> s.isHurt
    ensures s.isPlayDeath ==> r.state.isPlayDeath
    ensures Inv(s) ==> Inv(r.state)
  {
    if e.loader.Some? && !e.loader.value.finishLoad then TickResult(s, NoEffects)
    else
      var l := Setup(s, t, e.meshSource);
      if player.None? || !l.hasMesh then TickResult(l, NoEffects)
      else
        var d2 := SquaredDistance(player.value, l.bodyPos);
        var b := Behave(Chase(l, t, player.value), t, e, d2);
        var f := Lod(Timers(b.state, e.now), d2);
        var a := Ambient(f.state, e);
        TickResult(a.state, Effects(b.hit, f.fidelity, a.ambient))
  }

  // ---------------------------------------------------------------------
  // Sequences of events

  /** What can happen to a zombie: a bullet hit, or a game-loop update. */
  datatype Event = Hit(damage: real, at: int, loader: Option<AnimLoader>) | Update(env: Env, player: Option<Vec3>)

  predicate EventValid(ev: Event) {
    ev.Update? ==> EnvValid(ev.env)
  }

  predicate EventsValid(evs: seq<Event>) {
    forall i :: 0 <= i < |evs| ==> EventValid(evs[i])
  }

  function Apply(s: ZombieState, t: Traits, ev: Event): ZombieState
    requires TraitsValid(t) && EventValid(ev)
  {
    match ev
    case Hit(damage, at, loader) => GetDamage(s, damage, at, loader)
    case Update(e, player) => Tick(s, t, e, player).state
  }

  function Run(s: ZombieState, t: Traits, evs: seq<Event>): ZombieState
    requires TraitsValid(t) && EventsValid(evs)
    decreases |evs|
  {
    if evs == [] then s
    else Run(Apply(s, t, evs[0]), t, evs[1..])
  }

  /** Every reachable state keeps `Inv`. */
  lemma {:induction false} RunKeepsInv(s: ZombieState, t: Traits, evs: seq<Event>)
    requires TraitsValid(t) && EventsValid(evs) && Inv(s)
    ensures Inv(Run(s, t, evs))
    decreases |evs|
  {
    if evs != [] {
      assert EventValid(evs[0]);
      RunKeepsInv(Apply(s, t, evs[0]), t, evs[1..]);
    }
  }

  /** The death latch: once dead, a zombie stays dead, with the same health
      and time of death, whatever happens to it. */
  lemma {:induction false} DeathIsFinal(s: ZombieState, t: Traits, evs: seq<Event>)
    requires TraitsValid(t) && EventsValid(evs) && s.isDeath
    ensures Run(s, t, evs).isDeath
    ensures Run(s, t, evs).health == s.health && Run(s, t, evs).deathTime == s.deathTime
    decreases |evs|
  {
    if evs != [] {
      assert EventValid(evs[0]);
      DeathIsFinal(Apply(s, t, evs[0]), t, evs[1..]);
    }
  }

  /** Once the death clip is chosen it is never replaced: the clip name and
      the running clip stay as they are. */
  lemma {:induction false} DeathClipIsFinal(s: ZombieState, t: Traits, evs: seq<Event>)
    requires TraitsValid(t) && EventsValid(evs) && Inv(s) && s.isPlayDeath
    ensures Run(s, t, evs).animationName == s.animationName
    ensures Run(s, t, evs).lastAction == s.lastAction
    decreases |evs|
  {
    if evs != [] {
      assert EventValid(evs[0]);
      var n := Apply(s, t, evs[0]);
      assert n.isPlayDeath && Inv(n);
      assert n.animationName == s.animationName && n.lastAction == s.lastAction;
      DeathClipIsFinal(n, t, evs[1..]);
    }
  }

  /** A dead zombie whose mesh was set up does not move any more. */
  lemma {:induction false} DeadBodyStaysPut(s: ZombieState, t: Traits, evs: seq<Event>)
    requires TraitsValid(t) && EventsValid(evs) && s.isDeath && s.finishLoad
    ensures Run(s, t, evs).bodyPos == s.bodyPos
    decreases |evs|
  {
    if evs != [] {
      assert EventValid(evs[0]);
      DeadBodyStaysPut(Apply(s, t, evs[0]), t, evs[1..]);
    }
  }

  // ---------------------------------------------------------------------
  // Properties of one tick

  /** The squared distance to the player before the chase step of a tick
      that acts. */
  function TickDistance(s: ZombieState, t: Traits, e: Env, p: Vec3): real {
    SquaredDistance(p, Setup(s, t, e.meshSource).bodyPos)
  }

  /** A chase step moves the zombie by `diff / velocity` on x and z, so what
      is left of the offset to the player is that offset times
      `k = (velocity - 1) / velocity`, with `0 <= k < 1`: the zombie closes in
      along the line to the player and never overshoots. */
  lemma ChaseCloses(s: ZombieState, t: Traits, p: Vec3)
    requires TraitsValid(t) && Chasing(s)
    ensures var k := (t.velocity as real - 1.0) / t.velocity as real;
            && 0.0 <= k < 1.0
            && p.x - Chase(s, t, p).bodyPos.x == k * (p.x - s.bodyPos.x)
            && p.z - Chase(s, t, p).bodyPos.z == k * (p.z - s.bodyPos.z)
    ensures var k := (t.velocity as real - 1.0) / t.velocity as real;
            SquaredDistance(p, Chase(s, t, p).bodyPos) == k * k * SquaredDistance(p, s.bodyPos)
    ensures SquaredDistance(p, Chase(s, t, p).bodyPos) <= SquaredDistance(p, s.bodyPos)
  {
    var v := t.velocity as real;
    var k := (v - 1.0) / v;
    var dx := p.x - s.bodyPos.x;
    var dz := p.z - s.bodyPos.z;
    var b := Chase(s, t, p).bodyPos;
    assert b.x == s.bodyPos.x + dx / v;
    assert p.x - b.x == k * dx;
    assert p.z - b.z == k * dz;
    var d := dx * dx + dz * dz;
    assert (k * dx) * (k * dx) + (k * dz) * (k * dz) == k * k * d;
    assert v >= 200.0;
    assert k == 1.0 - 1.0 / v && 1.0 / v > 0.0;
    assert 0.0 <= k < 1.0;
    assert k * k <= 1.0;
    assert k * k * d <= d;
  }

  /** A tick deals damage exactly when it acts, the player is within attack
      range, the zombie is alive and its clip is already an attack clip. */
  lemma HitOnlyInsideAttack(s: ZombieState, t: Traits, e: Env, player: Option<Vec3>)
    requires TraitsValid(t) && EnvValid(e)
    ensures var r := Tick(s, t, e, player);
            r.effects.hit.Some? <==>
              Acts(s, t, e, player) && InRange(t.zombieType, TickDistance(s, t, e, player.value))
              && !s.isDeath && Contains(s.animationName, "attack")
    ensures Tick(s, t, e, player).effects.hit.Some? ==> Tick(s, t, e, player).effects.hit == Some(AttackDamage(t))
  {
  }

  /** The first tick in range only starts the attack clip: no damage, the
      attack flag set, and a clip name that now counts as an attack. */
  lemma AttackEntryDealsNothing(s: ZombieState, t: Traits, e: Env, p: Vec3)
    requires TraitsValid(t) && EnvValid(e) && Acts(s, t, e, Some(p))
    requires InRange(t.zombieType, TickDistance(s, t, e, p)) && !s.isDeath
    requires !Contains(s.animationName, "attack")
    ensures var r := Tick(s, t, e, Some(p));
            && r.effects.hit.None? && r.state.isAttack
            && r.state.animationName == (if t.zombieType == 2 then "attack4" else "attack" + e.attackPick)
            && Contains(r.state.animationName, "attack")
  {
    if t.zombieType == 2 {
      PrefixContained("attack", "4");
    } else {
      PrefixContained("attack", e.attackPick);
    }
  }

  /** Two ticks in range with the player standing still: the first starts
      the attack, the second deals `AttackDamage`. The chase step of the
      first tick only brings the zombie closer. */
  lemma EntryThenHit(s: ZombieState, t: Traits, e1: Env, e2: Env, p: Vec3)
    requires TraitsValid(t) && EnvValid(e1) && EnvValid(e2) && Acts(s, t, e1, Some(p))
    requires InRange(t.zombieType, TickDistance(s, t, e1, p)) && !s.isDeath
    requires !Contains(s.animationName, "attack")
    requires !(e2.loader.Some? && !e2.loader.value.finishLoad)
    ensures Tick(s, t, e1, Some(p)).effects.hit.None?
    ensures Tick(Tick(s, t, e1, Some(p)).state, t, e2, Some(p)).effects.hit == Some(AttackDamage(t))
  {
    AttackEntryDealsNothing(s, t, e1, p);
    var l := Setup(s, t, e1.meshSource);
    var c := Chase(l, t, p);
    if Chasing(l) {
      ChaseCloses(l, t, p);
    }
    var m := Tick(s, t, e1, Some(p)).state;
    assert m.bodyPos == c.bodyPos;
    assert Setup(m, t, e2.meshSource) == m;
    assert TickDistance(m, t, e2, p) <= TickDistance(s, t, e1, p);
    HitOnlyInsideAttack(m, t, e2, Some(p));
  }

  /** Once hitting, a zombie hits again on every following tick in range
      with the player standing still: the hit leaves the clip as it is, and
      a chase step only brings the zombie closer. */
  lemma HitRepeatsEveryTick(s: ZombieState, t: Traits, e1: Env, e2: Env, p: Vec3)
    requires TraitsValid(t) && EnvValid(e1) && EnvValid(e2)
    requires Tick(s, t, e1, Some(p)).effects.hit.Some?
    requires !(e2.loader.Some? && !e2.loader.value.finishLoad)
    ensures Tick(Tick(s, t, e1, Some(p)).state, t, e2, Some(p)).effects.hit == Some(AttackDamage(t))
  {
    HitOnlyInsideAttack(s, t, e1, Some(p));
    var l := Setup(s, t, e1.meshSource);
    if Chasing(l) {
      ChaseCloses(l, t, p);
    }
    var m := Tick(s, t, e1, Some(p)).state;
    assert m.bodyPos == Chase(l, t, p).bodyPos && m.animationName == s.animationName;
    assert Setup(m, t, e2.meshSource) == m;
    assert TickDistance(m, t, e2, p) <= TickDistance(s, t, e1, p);
    HitOnlyInsideAttack(m, t, e2, Some(p));
  }

  /** A bullet that does not kill resets the clip to "gethit", so the next
      tick in range starts the attack over and deals no damage. */
  lemma HitInterruptsAttack(s: ZombieState, t: Traits, damage: real, at: int, loader: Option<AnimLoader>,
                            e: Env, player: Option<Vec3>)
    requires TraitsValid(t) && EnvValid(e) && !s.isDeath && s.health - damage > 0.0
    ensures Tick(GetDamage(s, damage, at, loader), t, e, player).effects.hit.None?
  {
    var h := GetDamage(s, damage, at, loader);
    assert h.animationName == "gethit";
    assert "gethit"[..6][0] != "attack"[0];
    assert "gethit"[1..] == "ethit";
    ContainsNeedsRoomContra("ethit", "attack");
    assert !Contains("gethit", "attack");
    HitOnlyInsideAttack(h, t, e, player);
  }

  /** The walk fallback: out of range, alive and not hurt, the walk clip is
      requested and the attack flag cleared; a walk already on is left
      alone. */
  lemma WalkFallback(s: ZombieState, t: Traits, e: Env, p: Vec3)
    requires TraitsValid(t) && EnvValid(e) && Acts(s, t, e, Some(p))
    requires !InRange(t.zombieType, TickDistance(s, t, e, p)) && !s.isDeath && !s.isHurt
    ensures var r := Tick(s, t, e, Some(p)).state;
            && r.animationName == "walk"
            && (s.animationName != "walk" ==> !r.isAttack && r.animationSpeed == t.walkSpeed)
            && (s.animationName == "walk" ==>
                  r.isAttack == s.isAttack && r.animationSpeed == s.animationSpeed && r.lastAction == s.lastAction)
  {
  }

  /** The hurt flag outlives exactly 500 ms: still set at 500, cleared
      after. */
  lemma HurtBoundary(s: ZombieState, t: Traits, e: Env, player: Option<Vec3>)
    requires TraitsValid(t) && EnvValid(e) && s.isHurt
    ensures e.now - s.hurtTime <= HurtMs ==> Tick(s, t, e, player).state.isHurt
    ensures Acts(s, t, e, player) && e.now - s.hurtTime > HurtMs ==> !Tick(s, t, e, player).state.isHurt
  {
  }

  /** The body is removed only more than 3000 ms after death, and then it
      is. */
  lemma RemovalAfterDelay(s: ZombieState, t: Traits, e: Env, player: Option<Vec3>)
    requires TraitsValid(t) && EnvValid(e)
    ensures Tick(s, t, e, player).state.meshRemoved && !s.meshRemoved ==>
              s.isDeath && e.now - s.deathTime > RemovalMs
    ensures Acts(s, t, e, player) && s.isDeath && e.now - s.deathTime > RemovalMs ==>
              Tick(s, t, e, player).state.meshRemoved
  {
  }

  /** After an acting tick the fidelity flag says which side of the
      range the player was on; a switch is reported exactly when it flips. */
  lemma LodFollowsDistance(s: ZombieState, t: Traits, e: Env, p: Vec3)
    requires TraitsValid(t) && EnvValid(e) && Acts(s, t, e, Some(p))
    ensures var r := Tick(s, t, e, Some(p));
            && r.state.materialChange == (TickDistance(s, t, e, p) > LodRange * LodRange)
            && (r.effects.fidelity.Some? <==> r.state.materialChange != s.materialChange)
  {
  }

  /** Staying on one side of the range, the second reading switches
      nothing: one switch per crossing. */
  lemma OneSwitchPerCrossing(s: ZombieState, d1: real, d2: real)
    requires (d1 > LodRange * LodRange) == (d2 > LodRange * LodRange)
    ensures Lod(Lod(s, d1).state, d2).fidelity.None?
  {
  }

  /** The ambient timer of an acting tick: it fires exactly when due, then
      restarts at `now` with a delay of 1 to 10 seconds and asks for the
      drawn sound unless one is playing. */
  lemma AmbientTimerRestarts(s: ZombieState, t: Traits, e: Env, p: Vec3)
    requires TraitsValid(t) && EnvValid(e) && Acts(s, t, e, Some(p))
    ensures var r := Tick(s, t, e, Some(p));
            && (RoadDue(s, e.now) ==>
                  r.state.roadInterval == e.now && 1000 <= r.state.nextRoadInterval <= 10000
                  && r.effects.ambient == RoadSoundAsWritten(e.roadSound, e.roadPick))
            && (!RoadDue(s, e.now) ==>
                  r.state.roadInterval == s.roadInterval && r.state.nextRoadInterval == s.nextRoadInterval
                  && r.effects.ambient.None?)
  {
  }
}
