/** The zombie of src/sprite/zombies/zombie.ts as an object whose methods
    update its fields in place. Every method is proved against the
    functions of `ZombieLogic`; an attack reaches the player through
    `PlayerModel.Player.SetHealthPoint`. */
module ZombieModel {
  import opened Common
  import opened ZombieLogic
  import PlayerLogic
  import PlayerModel

  /** The player's body position as `update` reads it, if the body exists. */
  function BodyOf(player: PlayerModel.Player): Option<Vec3>
    reads player`hasBody, player`bodyPos
  {
    if player.hasBody then Some(player.bodyPos) else None
  }

  /** The player after an optional `set_health_point(hp)`. */
  ghost predicate HitApplied(player: PlayerModel.Player, hit: Option<real>, health: real, running: bool)
    requires 0.0 <= player.maxHealth
    reads player`health, player`gameRunning, player`hasHealthDom
  {
    if hit.Some? && player.hasHealthDom then
      && player.health == PlayerLogic.HealthAfter(health, hit.value, player.maxHealth)
      && player.gameRunning == (running && !PlayerLogic.StopsGame(health, hit.value))
    else player.health == health && player.gameRunning == running
  }

  class Zombie {
    const zombieType: int
    /** `properties.zombie_position`. */
    const spawn: Vec3
    const velocity: int
    const damage: real
    /** `walk_animation_speed`. */
    const walkSpeed: real
    var health: real
    var finishLoad: bool
    /** `mesh` is not null. */
    var hasMesh: bool
    /** Position of the physics body, and of the mesh drawn at it. */
    var bodyPos: Vec3
    var meshPos: Vec3
    /** The mesh was taken out of the scene after death. */
    var meshRemoved: bool
    var animationName: string
    var animationSpeed: real
    var lastAction: Option<Clip>
    var isAttack: bool
    var isHurt: bool
    var isDeath: bool
    var isPlayDeath: bool
    var hurtTime: int
    var deathTime: int
    var materialChange: bool
    var roadInterval: int
    var nextRoadInterval: int

    function Character(): Traits {
      Traits(zombieType, spawn, velocity, damage, walkSpeed)
    }

    function State(): ZombieState
      reads this
    {
      ZombieState(health, finishLoad, hasMesh, bodyPos, meshPos, meshRemoved, animationName, animationSpeed,
                  lastAction, isAttack, isHurt, isDeath, isPlayDeath, hurtTime, deathTime, materialChange,
                  roadInterval, nextRoadInterval)
    }

    ghost predicate Valid()
      reads this
    {
      TraitsValid(Character()) && Inv(State())
    }

    /** A zombie of the given type and spawn point, created at `now`; the
        `r` arguments are the random numbers of its draws. */
    constructor (zombieType: int, spawn: Vec3, now: int,
                 rWalk: real, rHealth: real, rDamage: real, rVelocity: real, rVelocity2: real)
      requires 0.0 <= rWalk < 1.0 && 0.0 <= rHealth < 1.0 && 0.0 <= rDamage < 1.0
      requires 0.0 <= rVelocity < 1.0 && 0.0 <= rVelocity2 < 1.0
      ensures Valid()
      ensures State() == Initial(RandInt(3, 6, rHealth) as real, now)
      ensures Character() == Traits(zombieType, spawn, Velocity(zombieType, rVelocity, rVelocity2),
                                    DamageRollAsWritten(rDamage), RandInt(4, 10, rWalk) as real / 100.0)
    {
      this.zombieType := zombieType;
      this.spawn := spawn;
      walkSpeed := RandInt(4, 10, rWalk) as real / 100.0;
      health := RandInt(3, 6, rHealth) as real;
      damage := RandIntOnReals(0.4, 0.6, rDamage);
      var v := RandInt(300, 500, rVelocity);
      if zombieType == 2 {
        v := RandInt(200, 400, rVelocity2);
      }
      velocity := v;
      finishLoad, hasMesh, meshRemoved := false, false, false;
      bodyPos, meshPos := Vec3(0.0, 0.0, 0.0), Vec3(0.0, 0.0, 0.0);
      animationName, animationSpeed, lastAction := "", 0.0, None;
      isAttack, isHurt, isDeath, isPlayDeath := false, false, false, false;
      hurtTime, deathTime := now, now;
      materialChange := true;
      roadInterval, nextRoadInterval := now, 0;
    }

    /** `play_animation(name, speed, loop)`, bookkeeping part. */
    method PlayAnimation(name: string, speed: real, loop: bool, loader: Option<AnimLoader>)
      modifies this`animationSpeed, this`lastAction
      ensures State() == Play(old(State()), loader, name, speed, loop)
    {
      animationSpeed := speed;
      if loader.Some? && name in loader.value.animations && hasMesh {
        lastAction := Some(Clip(name, !loop));
      }
    }

    /** `get_damage(d)` at time `now`. */
    method GetDamage(d: real, now: int, loader: Option<AnimLoader>)
      requires Valid()
      modifies this`isHurt, this`hurtTime, this`health, this`isDeath, this`deathTime
      modifies this`animationName, this`animationSpeed, this`lastAction
      ensures Valid()
      ensures State() == ZombieLogic.GetDamage(old(State()), d, now, loader)
    {
      if isDeath {
        return;
      }
      isHurt := true;
      hurtTime := now;
      health := health - d;
      if health <= 0.0 {
        isDeath := true;
        deathTime := now;
      } else {
        animationName := "gethit";
        PlayAnimation(animationName, GetHitSpeed, false, loader);
      }
    }

    /** `setup_mesh`, model part: without a mesh to clone nothing happens;
        otherwise mesh and body are placed at the spawn point. */
    method SetupMesh(meshSource: bool)
      modifies this`hasMesh, this`meshPos, this`bodyPos, this`finishLoad
      ensures State() == if meshSource then old(State()).(hasMesh := true, meshPos := spawn, bodyPos := spawn,
                                                          finishLoad := true)
                         else old(State())
    {
      if !meshSource {
        return;
      }
      hasMesh := true;
      meshPos := spawn;
      bodyPos := spawn;
      finishLoad := true;
    }

    /** The first step of `update`: set the mesh up once. */
    method LoadOnce(meshSource: bool)
      modifies this`hasMesh, this`meshPos, this`bodyPos, this`finishLoad
      ensures State() == Setup(old(State()), Character(), meshSource)
    {
      if !finishLoad {
        SetupMesh(meshSource);
        finishLoad := true;
      }
    }

    /** The chase step toward the player's body at `p`; the mesh follows. */
    method ChasePlayer(p: Vec3)
      requires TraitsValid(Character())
      modifies this`bodyPos, this`meshPos
      ensures State() == Chase(old(State()), Character(), p)
    {
      var diffX := p.x - bodyPos.x;
      var diffZ := p.z - bodyPos.z;
      if !isAttack && !isHurt && !isDeath {
        bodyPos := Vec3(bodyPos.x + diffX / velocity as real, bodyPos.y, bodyPos.z + diffZ / velocity as real);
      }
      meshPos := Vec3(bodyPos.x, bodyPos.y - MeshDrop, bodyPos.z);
    }

    /** `attack_player`: the player takes `-damage`, or `-damage / 1.5`
        from a type 2 zombie. */
    method AttackPlayer(player: PlayerModel.Player) returns (hp: real)
      requires player.Valid()
      modifies player`health, player`gameRunning
      ensures player.Valid()
      ensures hp == AttackDamage(Character())
      ensures HitApplied(player, Some(hp), old(player.health), old(player.gameRunning))
    {
      if zombieType == 2 {
        hp := -damage / 1.5;
      } else {
        hp := -damage;
      }
      player.SetHealthPoint(hp);
    }

    /** The attack entry: attack flag and attack clip. */
    method StartAttack(e: Env)
      modifies this`isAttack, this`animationName, this`animationSpeed, this`lastAction
      ensures State() == AttackEntry(old(State()), Character(), e)
    {
      isAttack := true;
      animationName := "attack" + e.attackPick;
      if zombieType == 2 {
        animationName := "attack4";
        PlayAnimation(animationName, HeavyAttackSpeed, true, e.loader);
      } else {
        PlayAnimation(animationName, AttackSpeed, true, e.loader);
      }
    }

    /** The walk fallback: attack flag cleared, walk clip requested. */
    method StartWalk(e: Env)
      modifies this`isAttack, this`animationName, this`animationSpeed, this`lastAction
      ensures State() == WalkEntry(old(State()), Character(), e)
    {
      isAttack := false;
      animationName := "walk";
      PlayAnimation(animationName, walkSpeed, true, e.loader);
    }

    /** The death clip, latched by `isPlayDeath`. */
    method StartDeathClip(e: Env)
      modifies this`isPlayDeath, this`animationName, this`animationSpeed, this`lastAction
      ensures State() == DeathEntry(old(State()), e)
    {
      isPlayDeath := true;
      animationName := "death" + e.deathPick;
      PlayAnimation(animationName, DeathSpeed, false, e.loader);
    }

    /** The animation part of `update`, at squared distance `d2` to the
        player. */
    method Animate(e: Env, d2: real, player: PlayerModel.Player) returns (hit: Option<real>)
      requires player.Valid()
      modifies this`isAttack, this`animationName, this`animationSpeed, this`lastAction, this`isPlayDeath
      modifies player`health, player`gameRunning
      ensures player.Valid()
      ensures Acted(State(), hit) == Behave(old(State()), Character(), e, d2)
      ensures HitApplied(player, hit, old(player.health), old(player.gameRunning))
    {
      hit := None;
      if InRange(zombieType, d2) && !isDeath {
        if !Contains(animationName, "attack") {
          StartAttack(e);
        } else {
          var hp := AttackPlayer(player);
          hit := Some(hp);
        }
      } else if !isHurt && !isDeath {
        if animationName != "walk" {
          StartWalk(e);
        }
      } else if isDeath && !isPlayDeath {
        if !Contains(animationName, "death") {
          StartDeathClip(e);
        }
      }
    }

    /** The hurt expiry and the removal of a dead body. */
    method ExpireTimers(now: int)
      modifies this`isHurt, this`meshRemoved
      ensures State() == Timers(old(State()), now)
    {
      if isHurt {
        if now - hurtTime > HurtMs {
          isHurt := false;
        }
      }
      if isDeath && now - deathTime > RemovalMs {
        meshRemoved := true;
      }
    }

    /** The fidelity switches, in the source's two consecutive conditions. */
    method UpdateFidelity(d2: real) returns (fidelity: Option<Fidelity>)
      modifies this`materialChange
      ensures Switched(State(), fidelity) == Lod(old(State()), d2)
    {
      fidelity := None;
      if d2 > LodRange * LodRange && !materialChange {
        materialChange := true;
        fidelity := Some(Low);
      }
      if d2 <= LodRange * LodRange && materialChange {
        materialChange := false;
        fidelity := Some(High);
      }
    }

    /** The ambient-sound timer. */
    method AmbientTimer(e: Env) returns (sound: Option<string>)
      requires 0.0 <= e.roadDraw < 1.0
      modifies this`roadInterval, this`nextRoadInterval
      ensures Sounded(State(), sound) == Ambient(old(State()), e)
    {
      sound := None;
      if e.now - roadInterval > nextRoadInterval && !isDeath {
        roadInterval := e.now;
        nextRoadInterval := RandInt(1000, 10000, e.roadDraw);
        if e.roadSound == Some(false) && e.roadPick != "" {
          sound := Some(RoadFile(e.roadPick));
        }
      }
    }

    /** `update`: one tick of the zombie against the player. */
    method Update(e: Env, player: PlayerModel.Player) returns (effects: Effects)
      requires Valid() && player.Valid() && EnvValid(e)
      modifies this, player`health, player`gameRunning
      ensures Valid() && player.Valid()
      ensures TickResult(State(), effects) == Tick(old(State()), Character(), e, BodyOf(player))
      ensures HitApplied(player, effects.hit, old(player.health), old(player.gameRunning))
    {
      effects := NoEffects;
      if e.loader.Some? && !e.loader.value.finishLoad {
        return;
      }
      LoadOnce(e.meshSource);
      if !player.hasBody || !hasMesh {
        return;
      }
      var p := player.bodyPos;
      var d2 := SquaredDistance(p, bodyPos);
      ChasePlayer(p);
      var hit := Animate(e, d2, player);
      ExpireTimers(e.now);
      var fidelity := UpdateFidelity(d2);
      var sound := AmbientTimer(e);
      effects := Effects(hit, fidelity, sound);
    }
  }
}
