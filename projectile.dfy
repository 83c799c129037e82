/**
 * Projectiles of the newer simulation: launching fireballs, arrows and arcane bolts from the
 * tower top with lead prediction, the homing of arcane bolts, and aging. The engine's force
 * accumulator (the gravity cancel and the steering force of arcane bolts) is not part of
 * the model; velocities the simulation sets or rescales directly are.
 */
module Projectiles {
  import opened Common
  import opened Geometry
  import opened Config
  import opened State
  import opened Physics
  import opened Selection
  import opened Queries

  /** The launch parameters of the two ballistic kinds. */
  datatype LaunchConfig = LaunchConfig(
    speed: real, damage: real, knockback: real, kind: ProjectileType, splashRadius: real,
    splashForce: real, radius: real, mass: real, launchAngleMin: real, launchAngleMax: real,
    maxAge: real)

  const FireballLaunch := LaunchConfig(20.0, 2.5, 22.0, Fireball, 5.0, 14.0, 0.35, 2.0, Pi / 5.0, Pi / 3.0, 6.0)

  const ArrowLaunch := LaunchConfig(45.0, 1.0, 8.0, Arrow, 0.0, 0.0, 0.1, 0.3, Pi / 12.0, Pi / 5.0, 4.0)

  const ArcaneSpeed := 12.0

  /** Every shot leaves from the tower top. */
  const Muzzle := Vec3(0.0, 6.5, 0.0)

  /** The gravity the launcher assumes when predicting the flight. */
  const LaunchGravity := 20.0

  /** The launcher's own numbers agree with the tuning tables. */
  lemma LaunchConfigsMatchTables()
    ensures FireballLaunch.speed == FIREBALL.speed && FireballLaunch.damage == FIREBALL.damage
    ensures FireballLaunch.splashRadius == FIREBALL.splashRadius && FireballLaunch.maxAge == FIREBALL.maxAge
    ensures FireballLaunch.launchAngleMin == FIREBALL.launchAngleMin && FireballLaunch.launchAngleMax == FIREBALL.launchAngleMax
    ensures ArrowLaunch.speed == ARROW.speed && ArrowLaunch.damage == ARROW.damage && ArrowLaunch.maxAge == ARROW.maxAge
    ensures ArrowLaunch.launchAngleMin == ARROW.launchAngleMin && ArrowLaunch.launchAngleMax == ARROW.launchAngleMax
    ensures ArcaneSpeed == ARCANE.speed
  {
  }

  function ConfigOf(kind: ProjectileType): LaunchConfig
    requires kind != Arcane
  {
    if kind == Fireball then FireballLaunch else ArrowLaunch
  }

  // ---------------------------------------------------------------- lead prediction

  /** The horizontal flight time: distance over horizontal speed, or one second for a lob. */
  function FlightTime(horizDist: real, hSpeed: real): (r: real)
    requires horizDist >= 0.0
    ensures r >= 0.0
    ensures hSpeed > 0.1 ==> r * hSpeed == horizDist
    ensures hSpeed <= 0.1 ==> r == 1.0
  {
    if hSpeed > 0.1 then horizDist / hSpeed else 1.0
  }

  /**
   * The time of one refinement step: the lesser of the horizontal flight time and the time
   * to fall back to the target's height. It is never negative and never exceeds the
   * horizontal flight time.
   */
  function EstimatedTime(origin: Vec3, targetPos: Vec3, predicted: Vec3, speed: real, gravity: real, angle: real, m: MathLib): (r: real)
    requires ValidMath(m) && gravity > 0.0
    ensures 0.0 <= r <= FlightTime(m.sqrt(HorizDistSq(predicted, origin)), m.cos(angle) * speed)
  {
    var horizDist := m.sqrt(HorizDistSq(predicted, origin));
    var hSpeed := m.cos(angle) * speed;
    var flightTime := FlightTime(horizDist, hSpeed);
    var vy := m.sin(angle) * speed;
    var dy := (targetPos.y + 0.5) - origin.y;
    var vertFlightTime :=
      if vy > 0.0 then (vy + m.sqrt(Max(0.0, vy * vy + 2.0 * gravity * dy))) / gravity else flightTime;
    Min(flightTime, vertFlightTime)
  }

  /** One refinement: the target's position advanced by its horizontal velocity for the estimate. */
  function InterceptStep(origin: Vec3, targetPos: Vec3, targetVel: Vec3, speed: real, gravity: real, angle: real, m: MathLib, predicted: Vec3): (r: Vec3)
    requires ValidMath(m) && gravity > 0.0
    ensures r.y == targetPos.y + 0.5
    ensures targetVel.x == 0.0 && targetVel.z == 0.0 ==> r.x == targetPos.x && r.z == targetPos.z
  {
    var t := EstimatedTime(origin, targetPos, predicted, speed, gravity, angle, m);
    Vec3(targetPos.x + targetVel.x * t, targetPos.y + 0.5, targetPos.z + targetVel.z * t)
  }

  /**
   * `n` refinements starting from the target's current position. After at least one, the
   * aim point is half a unit above the target; a target that does not move horizontally is
   * aimed at where it stands.
   */
  function Intercept(n: nat, origin: Vec3, targetPos: Vec3, targetVel: Vec3, speed: real, gravity: real, angle: real, m: MathLib): (r: Vec3)
    requires ValidMath(m) && gravity > 0.0
    ensures n > 0 ==> r.y == targetPos.y + 0.5
    ensures targetVel.x == 0.0 && targetVel.z == 0.0 ==> r.x == targetPos.x && r.z == targetPos.z
  {
    if n == 0 then targetPos
    else InterceptStep(origin, targetPos, targetVel, speed, gravity, angle, m,
                       Intercept(n - 1, origin, targetPos, targetVel, speed, gravity, angle, m))
  }

  /** `predictIntercept`: exactly three refinements. */
  method PredictIntercept(origin: Vec3, targetPos: Vec3, targetVel: Vec3, speed: real, gravity: real, angle: real, m: MathLib)
    returns (predicted: Vec3)
    requires ValidMath(m) && gravity > 0.0
    ensures predicted == Intercept(3, origin, targetPos, targetVel, speed, gravity, angle, m)
  {
    predicted := targetPos;
    for i := 0 to 3
      invariant predicted == Intercept(i, origin, targetPos, targetVel, speed, gravity, angle, m)
    {
      predicted := InterceptStep(origin, targetPos, targetVel, speed, gravity, angle, m, predicted);
    }
  }

  // ---------------------------------------------------------------- launching

  /**
   * The launch angle: interpolated from the window's low end at the tower to its high end
   * at 50 units and beyond, so it never leaves the window.
   */
  function LaunchAngle(c: LaunchConfig, horizDist: real): (r: real)
    requires horizDist >= 0.0 && c.launchAngleMin <= c.launchAngleMax
    ensures c.launchAngleMin <= r <= c.launchAngleMax
    ensures horizDist == 0.0 ==> r == c.launchAngleMin
    ensures horizDist >= 50.0 ==> r == c.launchAngleMax
  {
    var distFactor := Min(1.0, horizDist / 50.0);
    assert (horizDist / 50.0) * 50.0 == horizDist;
    Lerp(c.launchAngleMin, c.launchAngleMax, distFactor)
  }

  /** `lo + (hi - lo) * f`: linear interpolation, inside [lo, hi] for f in [0, 1]. */
  function Lerp(lo: real, hi: real, f: real): (r: real)
    requires lo <= hi && 0.0 <= f <= 1.0
    ensures lo <= r <= hi
    ensures f == 0.0 ==> r == lo
    ensures f == 1.0 ==> r == hi
  {
    var width := hi - lo;
    MulLeft(width, 0.0, f);
    MulLeft(width, f, 1.0);
    lo + width * f
  }

  /** Scaling a horizontal direction (a, b) of length h by s / h gives squared length s². */
  lemma DirectionScaled(a: real, b: real, h: real, s: real)
    requires h > 0.0 && h * h == a * a + b * b
    ensures (a * (s / h)) * (a * (s / h)) + (b * (s / h)) * (b * (s / h)) == s * s
  {
    var k := s / h;
    assert k * h == s;
    calc {
      (a * k) * (a * k) + (b * k) * (b * k);
      == k * k * (a * a + b * b);
      == k * k * (h * h);
      == (k * h) * (k * h);
      == s * s;
    }
  }

  /**
   * The launch velocity toward the aim point: upward `sin(angle) * speed`, and, unless the
   * aim point is within 0.1 of the tower axis, a horizontal part of length
   * `cos(angle) * speed` pointing at it.
   */
  function LaunchVelocity(c: LaunchConfig, predicted: Vec3, angle: real, m: MathLib): (r: Vec3)
    requires ValidMath(m)
    ensures r.y == m.sin(angle) * c.speed
    ensures m.sqrt(HorizDistSq(predicted, Muzzle)) > 0.1 ==>
      HorizSpeedSq(r) == (m.cos(angle) * c.speed) * (m.cos(angle) * c.speed)
    ensures m.sqrt(HorizDistSq(predicted, Muzzle)) > 0.1 ==>
      Along(r.(y := 0.0), predicted.x - Muzzle.x, 0.0, predicted.z - Muzzle.z,
            m.sqrt(HorizDistSq(predicted, Muzzle)), m.cos(angle) * c.speed)
    ensures m.sqrt(HorizDistSq(predicted, Muzzle)) <= 0.1 ==> r.x == 0.0 && r.z == 0.0
  {
    var pdx := predicted.x - Muzzle.x;
    var pdz := predicted.z - Muzzle.z;
    var pHorizDist := m.sqrt(HorizDistSq(predicted, Muzzle));
    var vy := m.sin(angle) * c.speed;
    var hSpeed := m.cos(angle) * c.speed;
    if pHorizDist > 0.1 then
      DirectionScaled(pdx, pdz, pHorizDist, hSpeed);
      ScaledAlong(pdx, 0.0, pdz, pHorizDist, hSpeed);
      Vec3(pdx * (hSpeed / pHorizDist), vy, pdz * (hSpeed / pHorizDist))
    else
      Vec3(0.0, vy, 0.0)
  }

  /** The angle a ballistic shot at `targetPos` is launched at. */
  function ShotAngle(c: LaunchConfig, targetPos: Vec3, m: MathLib): real
    requires ValidMath(m) && c.launchAngleMin <= c.launchAngleMax
  {
    LaunchAngle(c, m.sqrt(HorizDistSq(targetPos, Muzzle)))
  }

  /** The initial velocity of an arcane bolt: mostly upward, with a drift toward the target. */
  function ArcaneVelocity(targetPos: Vec3, m: MathLib): (r: Vec3)
    requires ValidMath(m)
    ensures r.y == ArcaneSpeed * 0.6
    ensures m.sqrt(HorizDistSq(targetPos, Muzzle)) != 0.0 ==>
      HorizSpeedSq(r) == (ArcaneSpeed * 0.4) * (ArcaneSpeed * 0.4)
    ensures var d := m.sqrt(HorizDistSq(targetPos, Muzzle));
      Along(r.(y := 0.0), targetPos.x - Muzzle.x, 0.0, targetPos.z - Muzzle.z,
            if d == 0.0 then 1.0 else d, ArcaneSpeed * 0.4)
  {
    var dx := targetPos.x - Muzzle.x;
    var dz := targetPos.z - Muzzle.z;
    var h := HorizDistSq(targetPos, Muzzle);
    assert h == dx * dx + dz * dz;
    var d := m.sqrt(h);
    var dist := if d == 0.0 then 1.0 else d;
    var drift := Drift(dx, dz, dist);
    ArcaneDirection(dx, dz, d, dist);
    Vec3(drift.x, ArcaneSpeed * 0.6, drift.z)
  }

  /** The horizontal drift `(dx / dist, dz / dist) * ArcaneSpeed * 0.4` of a new arcane bolt. */
  function Drift(dx: real, dz: real, dist: real): Vec3
    requires dist != 0.0
  {
    Vec3(dx * (ArcaneSpeed * 0.4 / dist), 0.0, dz * (ArcaneSpeed * 0.4 / dist))
  }

  lemma ArcaneDirection(dx: real, dz: real, d: real, dist: real)
    requires d >= 0.0 && d * d == dx * dx + dz * dz && dist == (if d == 0.0 then 1.0 else d)
    ensures Along(Drift(dx, dz, dist), dx, 0.0, dz, dist, ArcaneSpeed * 0.4)
    ensures d != 0.0 ==> HorizSpeedSq(Drift(dx, dz, dist)) == (ArcaneSpeed * 0.4) * (ArcaneSpeed * 0.4)
  {
    ScaledAlong(dx, 0.0, dz, dist, ArcaneSpeed * 0.4);
    if d != 0.0 {
      DirectionScaled(dx, dz, dist, ArcaneSpeed * 0.4);
    }
  }

  /** The record `fireProjectile` returns for a shot of `kind` at the target, with id `id`. */
  function Shot(kind: ProjectileType, targetPos: Vec3, targetVel: Vec3, targetId: Option<int>, m: MathLib, id: int): (p: Projectile)
    requires ValidMath(m)
    ensures p.id == id && p.alive && p.age == 0.0 && p.kind == kind && p.body.position == Muzzle
    ensures kind == Arcane ==>
      && p.damage == 1.8 && p.maxAge == 8.0 && p.splashRadius == 0.0 && p.targetId == targetId
      && p.body.mass == 0.5
    ensures kind != Arcane ==>
      && p.targetId == None && p.damage == ConfigOf(kind).damage && p.maxAge == ConfigOf(kind).maxAge
      && p.splashRadius == ConfigOf(kind).splashRadius && p.body.mass == ConfigOf(kind).mass
  {
    if kind == Arcane then
      Projectile(id, Body(Muzzle, ArcaneVelocity(targetPos, m), 0.5), true, 1.8, 6.0, 0.0, 8.0,
                 Arcane, 0.0, 0.0, targetId)
    else
      var c := ConfigOf(kind);
      var angle := ShotAngle(c, targetPos, m);
      var predicted := Intercept(3, Muzzle, targetPos, targetVel, c.speed, LaunchGravity, angle, m);
      Projectile(id, Body(Muzzle, LaunchVelocity(c, predicted, angle, m), c.mass), true, c.damage,
                 c.knockback, 0.0, c.maxAge, c.kind, c.splashRadius, c.splashForce, None)
  }

  /**
   * A ballistic shot is launched within its kind's angle window, and its horizontal speed is
   * `cos(angle) * speed` unless it aims straight up.
   */
  lemma ShotLaunchFacts(kind: ProjectileType, targetPos: Vec3, targetVel: Vec3, m: MathLib, id: int)
    requires ValidMath(m) && kind != Arcane
    ensures var c := ConfigOf(kind);
      var angle := ShotAngle(c, targetPos, m);
      var v := Shot(kind, targetPos, targetVel, None, m, id).body.velocity;
      && c.launchAngleMin <= angle <= c.launchAngleMax
      && v.y == m.sin(angle) * c.speed
      && HorizSpeedSq(v) <= (m.cos(angle) * c.speed) * (m.cos(angle) * c.speed)
  {
  }

  /** `fireArcaneBolt`. */
  method FireArcaneBolt(world: World, ids: IdAllocator, targetPos: Vec3, targetId: Option<int>, m: MathLib)
    returns (p: Projectile)
    requires ValidMath(m) && ids.Valid()
    modifies world, ids
    ensures ids.Valid() && ids.nextId == old(ids.nextId) + 1 && ids.issued == old(ids.issued) + {p.id}
    ensures p == Shot(Arcane, targetPos, Origin, targetId, m, old(ids.nextId))
    ensures world.calls == old(world.calls) + [Added(p.id)]
  {
    var velocity := ArcaneVelocity(targetPos, m);
    var id := ids.Next();
    world.AddBody(id);
    p := Projectile(id, Body(Muzzle, velocity, 0.5), true, 1.8, 6.0, 0.0, 8.0, Arcane, 0.0, 0.0, targetId);
  }

  /** `fireProjectile`: one new body in the world and the record of the shot. */
  method FireProjectile(world: World, ids: IdAllocator, targetPos: Vec3, targetVel: Vec3, kind: ProjectileType,
                        targetId: Option<int>, m: MathLib) returns (p: Projectile)
    requires ValidMath(m) && ids.Valid()
    modifies world, ids
    ensures ids.Valid() && ids.nextId == old(ids.nextId) + 1 && ids.issued == old(ids.issued) + {p.id}
    ensures p.id !in old(ids.issued)
    ensures p == Shot(kind, targetPos, targetVel, targetId, m, old(ids.nextId))
    ensures world.calls == old(world.calls) + [Added(p.id)]
  {
    if kind == Arcane {
      p := FireArcaneBolt(world, ids, targetPos, targetId, m);
      return;
    }
    var c := if kind == Fireball then FireballLaunch else ArrowLaunch;
    var launchAngle := LaunchAngle(c, m.sqrt(HorizDistSq(targetPos, Muzzle)));
    var predicted := PredictIntercept(Muzzle, targetPos, targetVel, c.speed, 20.0, launchAngle, m);
    var velocity := LaunchVelocity(c, predicted, launchAngle, m);
    var id := ids.Next();
    world.AddBody(id);
    p := Projectile(id, Body(Muzzle, velocity, c.mass), true, c.damage, c.knockback, 0.0,
                    c.maxAge, c.kind, c.splashRadius, c.splashForce, None);
  }

  // ---------------------------------------------------------------- homing

  /** Squared 3D distance from each enemy to `pos`, in list order: the key view `IsFirstMin` ranks. */
  function Keys3D(es: seq<Enemy>, pos: Vec3): (r: seq<real>)
    ensures |r| == |es| && forall i :: 0 <= i < |es| ==> r[i] == DistSq(es[i].body.position, pos)
  {
    seq(|es|, i requires 0 <= i < |es| => DistSq(es[i].body.position, pos))
  }

  /** The retarget choice: the first live enemy nearest in 3D, None when none is alive. */
  function Nearest3D(es: seq<Enemy>, pos: Vec3): (r: Option<nat>)
    ensures r.Some? ==> r.value < |es| && es[r.value].alive
  {
    ScanMin(Keys3D(es, pos), AliveFlags(es), None, |es|)
  }

  lemma Nearest3DIsNearest(es: seq<Enemy>, pos: Vec3)
    ensures Nearest3D(es, pos).None? <==> forall i :: 0 <= i < |es| ==> !es[i].alive
    ensures IsFirstMin(Keys3D(es, pos), AliveFlags(es), None, Nearest3D(es, pos))
  {
    ScanMinIsFirstMin(Keys3D(es, pos), AliveFlags(es), None, |es|);
    ScanMinNoneIff(Keys3D(es, pos), AliveFlags(es), |es|);
  }

  /** The search loop of the retarget. */
  method FindNearest3D(es: seq<Enemy>, pos: Vec3) returns (r: Option<nat>)
    ensures r == Nearest3D(es, pos)
  {
    ghost var keys, ok := Keys3D(es, pos), AliveFlags(es);
    r := None;
    var nearestDistSq := 0.0;
    var i := 0;
    while i < |es|
      invariant i <= |es|
      invariant r == ScanMin(keys, ok, None, i)
      invariant r.Some? ==> nearestDistSq == keys[r.value]
    {
      if es[i].alive {
        var dSq := DistSq(es[i].body.position, pos);
        if r.None? || dSq < nearestDistSq {
          nearestDistSq := dSq;
          r := Some(i);
        }
      }
      i := i + 1;
    }
  }

  /** Where a bolt steers: half a unit above the target's position. */
  function AimPoint(t: Vec3): Vec3
  {
    Vec3(t.x, t.y + 0.5, t.z)
  }

  /** What one tick of `updateArcaneHoming` does to one projectile. */
  function Homed(p: Projectile, es: seq<Enemy>, sqrt: real -> real): (r: Projectile)
    requires IsSqrt(sqrt)
    ensures r == p.(targetId := r.targetId, body := r.body.(velocity := r.body.velocity))
  {
    if !p.alive || p.kind != Arcane || p.targetId.None? then p
    else match FindLive(es, p.targetId, 0)
      case None =>
        p.(targetId := match Nearest3D(es, p.body.position)
                       case None => None
                       case Some(j) => Some(es[j].id))
      case Some(j) =>
        var dist := sqrt(DistSq(AimPoint(es[j].body.position), p.body.position));
        if dist < 0.1 then p
        else p.(body := p.body.(velocity := CapSpeed(p.body.velocity, ArcaneSpeed, sqrt)))
  }

  /**
   * The homing rules: dead bolts, other kinds and bolts without a target are untouched; a
   * bolt whose target is gone or dead takes the id of the nearest live enemy, or none when
   * no enemy lives, without steering this tick; a bolt with a live target keeps it, is left
   * alone within 0.1 of its aim point, and otherwise has its velocity capped at speed 12.
   */
  lemma HomingRules(p: Projectile, es: seq<Enemy>, sqrt: real -> real)
    requires IsSqrt(sqrt)
    ensures !p.alive || p.kind != Arcane || p.targetId.None? ==> Homed(p, es, sqrt) == p
    ensures p.alive && p.kind == Arcane && p.targetId.Some? && FindLive(es, p.targetId, 0).None? ==>
      && Homed(p, es, sqrt).body == p.body
      && (Homed(p, es, sqrt).targetId.None? <==> forall i :: 0 <= i < |es| ==> !es[i].alive)
      && (Nearest3D(es, p.body.position).Some? ==>
            Homed(p, es, sqrt).targetId == Some(es[Nearest3D(es, p.body.position).value].id))
    ensures p.alive && p.kind == Arcane && p.targetId.Some? && FindLive(es, p.targetId, 0).Some? ==>
      var dist := sqrt(DistSq(AimPoint(es[FindLive(es, p.targetId, 0).value].body.position), p.body.position));
      && Homed(p, es, sqrt).targetId == p.targetId
      && (dist < 0.1 ==> Homed(p, es, sqrt) == p)
      && (dist >= 0.1 ==>
            && Homed(p, es, sqrt).body == p.body.(velocity := CapSpeed(p.body.velocity, ArcaneSpeed, sqrt))
            && SpeedSq(Homed(p, es, sqrt).body.velocity) <= ArcaneSpeed * ArcaneSpeed)
  {
    Nearest3DIsNearest(es, p.body.position);
  }

  /** The homing of one projectile, with the two search loops. */
  method HomeOne(p: Projectile, es: seq<Enemy>, sqrt: real -> real) returns (r: Projectile)
    requires IsSqrt(sqrt)
    ensures r == Homed(p, es, sqrt)
  {
    if !p.alive || p.kind != Arcane || p.targetId.None? {
      return p;
    }
    var target := FindLiveEnemy(es, p.targetId);
    if target.None? {
      var nearest := FindNearest3D(es, p.body.position);
      if nearest.Some? {
        return p.(targetId := Some(es[nearest.value].id));
      }
      return p.(targetId := None);
    }
    var tPos := es[target.value].body.position;
    var pPos := p.body.position;
    var dx := tPos.x - pPos.x;
    var dy := (tPos.y + 0.5) - pPos.y;
    var dz := tPos.z - pPos.z;
    var dist := sqrt(dx * dx + dy * dy + dz * dz);
    assert dx * dx + dy * dy + dz * dz == DistSq(AimPoint(tPos), pPos);
    if dist < 0.1 {
      return p;
    }
    var vel := p.body.velocity;
    var speed := sqrt(SpeedSq(vel));
    if speed > ArcaneSpeed {
      var scale := ArcaneSpeed / speed;
      vel := Vec3(vel.x * scale, vel.y * scale, vel.z * scale);
    }
    r := p.(body := p.body.(velocity := vel));
  }

  /** `updateArcaneHoming`: every projectile homed against the same enemy list. */
  method UpdateArcaneHoming(state: GameState, sqrt: real -> real)
    requires IsSqrt(sqrt)
    modifies state`projectiles
    ensures |state.projectiles| == |old(state.projectiles)|
    ensures forall k :: 0 <= k < |state.projectiles| ==>
      state.projectiles[k] == Homed(old(state.projectiles[k]), state.enemies, sqrt)
  {
    ghost var ps0 := state.projectiles;
    var i := 0;
    while i < |state.projectiles|
      invariant i <= |state.projectiles| == |ps0|
      invariant forall k :: 0 <= k < i ==> state.projectiles[k] == Homed(ps0[k], state.enemies, sqrt)
      invariant forall k :: i <= k < |ps0| ==> state.projectiles[k] == ps0[k]
    {
      var p := HomeOne(state.projectiles[i], state.enemies, sqrt);
      state.projectiles := state.projectiles[i := p];
      i := i + 1;
    }
  }

  // ---------------------------------------------------------------- aging

  /** What one tick of `updateProjectiles` does to one projectile. */
  function Aged(p: Projectile, dt: real): (r: Projectile)
    ensures !p.alive ==> r == p
    ensures p.alive ==> r.age == p.age + dt
    ensures r.alive <==> p.alive && p.age + dt <= p.maxAge
    ensures r == p.(age := r.age, alive := r.alive)
  {
    if !p.alive then p
    else
      var age := p.age + dt;
      p.(age := age, alive := !(age > p.maxAge))
  }

  /** `updateProjectiles`. */
  method UpdateProjectiles(state: GameState, dt: real)
    modifies state`projectiles
    ensures |state.projectiles| == |old(state.projectiles)|
    ensures forall k :: 0 <= k < |state.projectiles| ==> state.projectiles[k] == Aged(old(state.projectiles[k]), dt)
  {
    ghost var ps0 := state.projectiles;
    var i := 0;
    while i < |state.projectiles|
      invariant i <= |state.projectiles| == |ps0|
      invariant forall k :: 0 <= k < i ==> state.projectiles[k] == Aged(ps0[k], dt)
      invariant forall k :: i <= k < |ps0| ==> state.projectiles[k] == ps0[k]
    {
      var p := state.projectiles[i];
      if p.alive {
        p := p.(age := p.age + dt);
        if p.age > p.maxAge {
          p := p.(alive := false);
        }
        state.projectiles := state.projectiles[i := p];
      }
      i := i + 1;
    }
  }

  /**
   * Aging over many ticks: a projectile that is alive after `n` ticks of `dt >= 0` has aged
   * by exactly `n * dt`, and once dead it stays dead.
   */
  function AgedN(p: Projectile, dt: real, n: nat): Projectile
  {
    if n == 0 then p else Aged(AgedN(p, dt, n - 1), dt)
  }

  lemma {:induction false} AgedNFacts(p: Projectile, dt: real, n: nat)
    ensures AgedN(p, dt, n).alive ==> p.alive && AgedN(p, dt, n).age == p.age + (n as real) * dt
    ensures !p.alive ==> AgedN(p, dt, n) == p
  {
    if n > 0 {
      AgedNFacts(p, dt, n - 1);
    }
  }
}
