/**
 * The prototype's attacks: the attack table, range-bounded targeting, radius filtering, the
 * chain selection of chain lightning, and the records the projectile constructors build.
 * Distances are true 3D distances between mesh positions, through the injected `sqrt`.
 * The meshes, lines, rings and random jitter the constructors also build are not modelled.
 */
module LegacyAttacks {
  import opened Common
  import opened Geometry
  import opened Selection
  import opened LegacyTypes

  /** `ATTACK_CONFIGS`. */
  const AttackConfigs: seq<AttackConfig> := [
    AttackConfig("Chain Lightning", Lightning, 15.0, 0.8, 30.0, 0x44ccff, "Arcs between enemies", 1),
    AttackConfig("Fireball", Fireball, 40.0, 1.5, 35.0, 0xff6622, "Explosive AoE damage", 1),
    AttackConfig("Blizzard", Blizzard, 8.0, 2.5, 25.0, 0xaaddff, "Slows all nearby enemies", 1),
    AttackConfig("Death Ray", Laser, 60.0, 3.0, 45.0, 0xff0044, "Piercing beam attack", 1),
    AttackConfig("Meteor Storm", Meteor, 80.0, 5.0, 40.0, 0xff8800, "Rains destruction from above", 1),
    AttackConfig("Gravity Vortex", Vortex, 20.0, 4.0, 30.0, 0x9933ff, "Pulls and damages enemies", 1)
  ]

  /** Six attacks of pairwise distinct types, all at level 1, with positive cooldowns and ranges. */
  lemma AttackConfigsWellFormed()
    ensures |AttackConfigs| == 6
    ensures forall i, j :: 0 <= i < j < |AttackConfigs| ==> AttackConfigs[i].kind != AttackConfigs[j].kind
    ensures forall i :: 0 <= i < |AttackConfigs| ==>
      AttackConfigs[i].level == 1 && AttackConfigs[i].cooldown > 0.0 && AttackConfigs[i].range > 0.0
  {
  }

  // ---------------------------------------------------------------- targeting

  /** Distance of every enemy's mesh from `p`, in list order: the key view `IsFirstMin` ranks. */
  function DistancesFrom(es: seq<LegacyEnemy>, p: Vec3, sqrt: real -> real): (r: seq<real>)
    ensures |r| == |es| && forall i :: 0 <= i < |es| ==> r[i] == sqrt(DistSq(es[i].meshPosition, p))
  {
    seq(|es|, i requires 0 <= i < |es| => sqrt(DistSq(es[i].meshPosition, p)))
  }

  /** Whether each enemy is alive, in list order: the eligibility view the selections filter on. */
  function AliveFlags(es: seq<LegacyEnemy>): (r: seq<bool>)
    ensures |r| == |es| && forall i :: 0 <= i < |es| ==> r[i] == es[i].alive
  {
    seq(|es|, i requires 0 <= i < |es| => es[i].alive)
  }

  /** `findTarget`: a running minimum that starts at `range` and skips dead enemies. */
  function Target(es: seq<LegacyEnemy>, towerPos: Vec3, range: real, sqrt: real -> real): (r: Option<nat>)
    ensures r.Some? ==> r.value < |es| && es[r.value].alive
  {
    ScanMin(DistancesFrom(es, towerPos, sqrt), AliveFlags(es), Some(range), |es|)
  }

  /**
   * The target is a live enemy strictly within range and no farther than any other live
   * enemy, the first such on ties; there is none exactly when no live enemy is within range.
   */
  lemma TargetRules(es: seq<LegacyEnemy>, towerPos: Vec3, range: real, sqrt: real -> real)
    ensures var r := Target(es, towerPos, range, sqrt);
      && (r.Some? ==>
            && sqrt(DistSq(es[r.value].meshPosition, towerPos)) < range
            && (forall i :: 0 <= i < |es| && es[i].alive ==>
                  sqrt(DistSq(es[r.value].meshPosition, towerPos)) <= sqrt(DistSq(es[i].meshPosition, towerPos)))
            && (forall i :: 0 <= i < r.value && es[i].alive ==>
                  sqrt(DistSq(es[r.value].meshPosition, towerPos)) < sqrt(DistSq(es[i].meshPosition, towerPos))))
      && (r.None? <==> forall i :: 0 <= i < |es| && es[i].alive ==> sqrt(DistSq(es[i].meshPosition, towerPos)) >= range)
  {
    var keys, ok := DistancesFrom(es, towerPos, sqrt), AliveFlags(es);
    ScanMinIsFirstMin(keys, ok, Some(range), |es|);
    var r := Target(es, towerPos, range, sqrt);
    if r.Some? {
      forall i | 0 <= i < |es| && es[i].alive
        ensures sqrt(DistSq(es[r.value].meshPosition, towerPos)) <= sqrt(DistSq(es[i].meshPosition, towerPos))
      {
        assert ok[i] && keys[i] == sqrt(DistSq(es[i].meshPosition, towerPos));
      }
    }
  }

  /** The loop of `findTarget`. */
  method FindTarget(es: seq<LegacyEnemy>, towerPos: Vec3, range: real, sqrt: real -> real) returns (closest: Option<nat>)
    ensures closest == Target(es, towerPos, range, sqrt)
  {
    ghost var keys, ok := DistancesFrom(es, towerPos, sqrt), AliveFlags(es);
    closest := None;
    var closestDist := range;
    var i := 0;
    while i < |es|
      invariant i <= |es|
      invariant closest == ScanMin(keys, ok, Some(range), i)
      invariant closestDist == if closest.None? then range else keys[closest.value]
      invariant closest.Some? ==> keys[closest.value] < range
    {
      if es[i].alive {
        var dist := sqrt(DistSq(es[i].meshPosition, towerPos));
        assert dist == keys[i] && ok[i];
        if dist < closestDist {
          closestDist := dist;
          closest := Some(i);
        }
      }
      i := i + 1;
    }
  }

  /** `findEnemiesInRadius`: the live enemies strictly within `radius` of `center`, in order. */
  function InRadius(es: seq<LegacyEnemy>, center: Vec3, radius: real, sqrt: real -> real): (r: seq<LegacyEnemy>)
    ensures |r| <= |es|
    ensures forall e :: e in r <==> e in es && e.alive && sqrt(DistSq(e.meshPosition, center)) < radius
  {
    if es == [] then []
    else
      var e := es[0];
      (if e.alive && sqrt(DistSq(e.meshPosition, center)) < radius then [e] else []) + InRadius(es[1..], center, radius, sqrt)
  }

  /** The filter keeps the original order: filtering a concatenation filters each part. */
  lemma {:induction false} InRadiusAppend(a: seq<LegacyEnemy>, b: seq<LegacyEnemy>, center: Vec3, radius: real, sqrt: real -> real)
    ensures InRadius(a + b, center, radius, sqrt) == InRadius(a, center, radius, sqrt) + InRadius(b, center, radius, sqrt)
  {
    if a != [] {
      assert (a + b)[1..] == a[1..] + b;
      InRadiusAppend(a[1..], b, center, radius, sqrt);
    } else {
      assert a + b == b;
    }
  }

  // ---------------------------------------------------------------- chain lightning

  /** Enemies a chain may still jump to: alive and not yet struck. */
  function Eligible(es: seq<LegacyEnemy>, visited: set<int>): (r: seq<bool>)
    ensures |r| == |es| && forall i :: 0 <= i < |es| ==> r[i] == (es[i].alive && es[i].id !in visited)
  {
    seq(|es|, i requires 0 <= i < |es| => es[i].alive && es[i].id !in visited)
  }

  /** One jump: the nearest eligible enemy strictly within 10 of the last link. */
  function Jump(es: seq<LegacyEnemy>, visited: set<int>, lastPos: Vec3, sqrt: real -> real): (r: Option<nat>)
    ensures r.Some? ==> r.value < |es| && es[r.value].alive && es[r.value].id !in visited
  {
    ScanMin(DistancesFrom(es, lastPos, sqrt), Eligible(es, visited), Some(10.0), |es|)
  }

  /** The jump lands strictly within 10 of the last link, on the nearest eligible enemy. */
  lemma JumpRules(es: seq<LegacyEnemy>, visited: set<int>, lastPos: Vec3, sqrt: real -> real)
    ensures var r := Jump(es, visited, lastPos, sqrt);
      && (r.Some? ==> sqrt(DistSq(es[r.value].meshPosition, lastPos)) < 10.0)
      && (r.Some? ==> forall i :: 0 <= i < |es| && es[i].alive && es[i].id !in visited ==>
            sqrt(DistSq(es[r.value].meshPosition, lastPos)) <= sqrt(DistSq(es[i].meshPosition, lastPos)))
      && (r.None? <==> forall i :: 0 <= i < |es| && es[i].alive && es[i].id !in visited ==>
            sqrt(DistSq(es[i].meshPosition, lastPos)) >= 10.0)
  {
    var keys, ok := DistancesFrom(es, lastPos, sqrt), Eligible(es, visited);
    ScanMinIsFirstMin(keys, ok, Some(10.0), |es|);
    var r := Jump(es, visited, lastPos, sqrt);
    if r.Some? {
      forall i | 0 <= i < |es| && es[i].alive && es[i].id !in visited
        ensures sqrt(DistSq(es[r.value].meshPosition, lastPos)) <= sqrt(DistSq(es[i].meshPosition, lastPos))
      {
        assert ok[i];
      }
    }
  }

  /**
   * The chain loop of `createLightningProjectile`, `count` rounds from `lastPos` with the ids
   * in `visited` excluded; a round without a jump changes nothing.
   */
  function Chain(es: seq<LegacyEnemy>, visited: set<int>, lastPos: Vec3, count: nat, sqrt: real -> real): (r: seq<nat>)
    ensures |r| <= count
    ensures forall k :: 0 <= k < |r| ==> r[k] < |es|
    decreases count
  {
    if count == 0 then []
    else
      match Jump(es, visited, lastPos, sqrt)
      case None => Chain(es, visited, lastPos, count - 1, sqrt)
      case Some(i) => [i] + Chain(es, visited + {es[i].id}, es[i].meshPosition, count - 1, sqrt)
  }

  /**
   * `r` could be the jumps of a chain from `lastPos` with `visited` excluded: each link is
   * alive, has an id not yet visited and lies within 10 of the position before it.
   */
  predicate Hops(es: seq<LegacyEnemy>, r: seq<nat>, visited: set<int>, lastPos: Vec3, sqrt: real -> real)
    decreases |r|
  {
    r == [] ||
      (&& r[0] < |es| && es[r[0]].alive && es[r[0]].id !in visited
       && sqrt(DistSq(es[r[0]].meshPosition, lastPos)) < 10.0
       && Hops(es, r[1..], visited + {es[r[0]].id}, es[r[0]].meshPosition, sqrt))
  }

  /** The chain function produces such jumps. */
  lemma {:induction false} ChainHops(es: seq<LegacyEnemy>, visited: set<int>, lastPos: Vec3, count: nat, sqrt: real -> real)
    ensures Hops(es, Chain(es, visited, lastPos, count, sqrt), visited, lastPos, sqrt)
    decreases count
  {
    if count > 0 {
      JumpRules(es, visited, lastPos, sqrt);
      match Jump(es, visited, lastPos, sqrt)
      case None =>
        ChainHops(es, visited, lastPos, count - 1, sqrt);
      case Some(i) =>
        var rest := Chain(es, visited + {es[i].id}, es[i].meshPosition, count - 1, sqrt);
        ChainHops(es, visited + {es[i].id}, es[i].meshPosition, count - 1, sqrt);
        assert ([i] + rest)[1..] == rest;
    }
  }

  /** Jumps are alive, outside `visited`, pairwise distinct by id, and each within 10 of the position before it. */
  lemma {:induction false} HopsRules(es: seq<LegacyEnemy>, r: seq<nat>, visited: set<int>, lastPos: Vec3, sqrt: real -> real)
    requires Hops(es, r, visited, lastPos, sqrt)
    ensures forall k :: 0 <= k < |r| ==> r[k] < |es| && es[r[k]].alive && es[r[k]].id !in visited
    ensures forall j, k :: 0 <= j < k < |r| ==> es[r[j]].id != es[r[k]].id
    ensures |r| > 0 ==> sqrt(DistSq(es[r[0]].meshPosition, lastPos)) < 10.0
    ensures forall k :: 0 < k < |r| ==> sqrt(DistSq(es[r[k]].meshPosition, es[r[k - 1]].meshPosition)) < 10.0
    decreases |r|
  {
    if r != [] {
      var rest := r[1..];
      HopsRules(es, rest, visited + {es[r[0]].id}, es[r[0]].meshPosition, sqrt);
      forall k | 0 < k < |r|
        ensures r[k] == rest[k - 1]
      {
      }
    }
  }

  /**
   * Every chained enemy is alive and outside `visited`, the chained ids are pairwise
   * distinct, the first link is within 10 of `lastPos` and each later one within 10 of the link
   * before it.
   */
  lemma ChainRules(es: seq<LegacyEnemy>, visited: set<int>, lastPos: Vec3, count: nat, sqrt: real -> real)
    ensures var r := Chain(es, visited, lastPos, count, sqrt);
      && (forall k :: 0 <= k < |r| ==> es[r[k]].alive && es[r[k]].id !in visited)
      && (forall j, k :: 0 <= j < k < |r| ==> es[r[j]].id != es[r[k]].id)
      && (|r| > 0 ==> sqrt(DistSq(es[r[0]].meshPosition, lastPos)) < 10.0)
      && (forall k :: 0 < k < |r| ==> sqrt(DistSq(es[r[k]].meshPosition, es[r[k - 1]].meshPosition)) < 10.0)
  {
    ChainHops(es, visited, lastPos, count, sqrt);
    HopsRules(es, Chain(es, visited, lastPos, count, sqrt), visited, lastPos, sqrt);
  }

  /** The ids of the chained enemies, in chain order: the view `chainTargets` stores. */
  function ChainIds(es: seq<LegacyEnemy>, chain: seq<nat>): (r: seq<int>)
    requires forall k :: 0 <= k < |chain| ==> chain[k] < |es|
    ensures |r| == |chain| && forall k :: 0 <= k < |chain| ==> r[k] == es[chain[k]].id
  {
    seq(|chain|, k requires 0 <= k < |chain| => es[chain[k]].id)
  }

  /** The running-best scan of one round, with the bound 10. */
  method FindJump(es: seq<LegacyEnemy>, visited: set<int>, lastPos: Vec3, sqrt: real -> real) returns (best: Option<nat>)
    ensures best == Jump(es, visited, lastPos, sqrt)
  {
    ghost var keys, ok := DistancesFrom(es, lastPos, sqrt), Eligible(es, visited);
    best := None;
    var bestDist := 10.0;
    var i := 0;
    while i < |es|
      invariant i <= |es|
      invariant best == ScanMin(keys, ok, Some(10.0), i)
      invariant bestDist == if best.None? then 10.0 else keys[best.value]
      invariant best.Some? ==> keys[best.value] < 10.0
    {
      var e := es[i];
      if e.alive && e.id !in visited {
        var d := sqrt(DistSq(e.meshPosition, lastPos));
        assert d == keys[i] && ok[i];
        if d < bestDist {
          bestDist := d;
          best := Some(i);
        }
      }
      i := i + 1;
    }
  }

  /**
   * `createLightningProjectile`: `2 + level` rounds of jumps from the primary target, whose
   * id is excluded from the start; the bolt itself has no velocity and lives 0.15 seconds.
   */
  method CreateLightningProjectile(from: Vec3, target: LegacyEnemy, damage: real, es: seq<LegacyEnemy>, level: int,
                                   sqrt: real -> real)
    returns (p: LegacyProjectile)
    ensures var chain := Chain(es, {target.id}, target.meshPosition, if 2 + level < 0 then 0 else 2 + level, sqrt);
      p == LegacyProjectile(Some(target.id), from, Vec3(0.0, 0.0, 0.0), damage, Lightning, 0.15,
                            Some(ChainIds(es, chain)), None)
  {
    var chainCount := 2 + level;
    ghost var spec := Chain(es, {target.id}, target.meshPosition, if chainCount < 0 then 0 else chainCount, sqrt);
    var chain: seq<nat> := [];
    var lastPos := target.meshPosition;
    var visited := {target.id};
    var c := 0;
    ghost var left: nat := if chainCount < 0 then 0 else chainCount;
    while c < chainCount
      invariant 0 <= c && (c <= chainCount || c == 0)
      invariant left == if chainCount - c < 0 then 0 else chainCount - c
      invariant forall k :: 0 <= k < |chain| ==> chain[k] < |es|
      invariant chain + Chain(es, visited, lastPos, left, sqrt) == spec
    {
      var best := FindJump(es, visited, lastPos, sqrt);
      ghost var n: nat := left - 1;
      ChainNext(es, visited, lastPos, n, sqrt);
      if best.Some? {
        var i := best.value;
        assert chain + ([i] + Chain(es, visited + {es[i].id}, es[i].meshPosition, n, sqrt))
            == (chain + [i]) + Chain(es, visited + {es[i].id}, es[i].meshPosition, n, sqrt);
        chain := chain + [i];
        visited := visited + {es[i].id};
        lastPos := es[i].meshPosition;
      }
      c := c + 1;
      left := n;
    }
    assert chain + [] == chain;
    p := LegacyProjectile(Some(target.id), from, Vec3(0.0, 0.0, 0.0), damage, Lightning, 0.15,
                          Some(ChainIds(es, chain)), None);
  }

  /** One round of the chain loop, written for a count of `n + 1`. */
  lemma ChainNext(es: seq<LegacyEnemy>, visited: set<int>, lastPos: Vec3, n: nat, sqrt: real -> real)
    ensures Jump(es, visited, lastPos, sqrt).None? ==>
      Chain(es, visited, lastPos, n + 1, sqrt) == Chain(es, visited, lastPos, n, sqrt)
    ensures Jump(es, visited, lastPos, sqrt).Some? ==>
      var i := Jump(es, visited, lastPos, sqrt).value;
      Chain(es, visited, lastPos, n + 1, sqrt) == [i] + Chain(es, visited + {es[i].id}, es[i].meshPosition, n, sqrt)
  {
  }

  /**
   * The bolt's chain: at most `2 + level` targets, pairwise distinct, never the primary
   * target, all alive, each within 10 of the link before it.
   */
  lemma LightningChainRules(target: LegacyEnemy, es: seq<LegacyEnemy>, level: int, sqrt: real -> real)
    requires level >= -2
    ensures var chain := Chain(es, {target.id}, target.meshPosition, 2 + level, sqrt);
      && |chain| <= 2 + level
      && (forall k :: 0 <= k < |chain| ==> es[chain[k]].alive && es[chain[k]].id != target.id)
      && (forall j, k :: 0 <= j < k < |chain| ==> es[chain[j]].id != es[chain[k]].id)
      && (|chain| > 0 ==> sqrt(DistSq(es[chain[0]].meshPosition, target.meshPosition)) < 10.0)
      && (forall k :: 0 < k < |chain| ==> sqrt(DistSq(es[chain[k]].meshPosition, es[chain[k - 1]].meshPosition)) < 10.0)
  {
    ChainRules(es, {target.id}, target.meshPosition, 2 + level, sqrt);
  }

  // ---------------------------------------------------------------- constructors

  /**
   * The shape every constructor gives its record: a positive lifetime, an area radius exactly
   * for the area attacks, chain targets exactly for lightning, and a target for all but the vortex.
   */
  predicate WellFormedShot(p: LegacyProjectile)
  {
    && p.lifetime > 0.0
    && (p.aoeRadius.Some? <==> p.attackType in {Fireball, Meteor, Vortex})
    && (p.chainTargets.Some? <==> p.attackType == Lightning)
    && (p.target.None? <==> p.attackType == Vortex)
  }

  lemma SquareZero(x: real)
    requires x * x == 0.0
    ensures x == 0.0
  {
    if x != 0.0 {
      var y := if x > 0.0 then x else -x;
      MulStrict(0.0, y);
    }
  }

  /** The unit vector from `a` towards `b` times `speed`; a zero offset stays zero. */
  function Toward(a: Vec3, b: Vec3, speed: real, sqrt: real -> real): (v: Vec3)
    requires IsSqrt(sqrt)
    ensures a != b ==> SpeedSq(v) == speed * speed
    ensures a != b ==> Along(v, b.x - a.x, b.y - a.y, b.z - a.z, Dist(a, b, sqrt), speed)
    ensures a == b ==> v == Vec3(0.0, 0.0, 0.0)
  {
    var dx, dy, dz := b.x - a.x, b.y - a.y, b.z - a.z;
    var len := sqrt(dx * dx + dy * dy + dz * dz);
    assert dx * dx >= 0.0 && dy * dy >= 0.0 && dz * dz >= 0.0;
    assert dx * dx + dy * dy + dz * dz == DistSq(a, b);
    if len == 0.0 then
      assert dx * dx + dy * dy + dz * dz == len * len == 0.0;
      SquareZero(dx);
      SquareZero(dy);
      SquareZero(dz);
      assert a == b;
      Vec3(0.0, 0.0, 0.0)
    else
      Rescale(dx, dy, dz, len, speed)
  }

  /** `createFireballProjectile`: speed 20 towards the target's mesh, area radius `4 + level`, 3 seconds. */
  function FireballShot(from: Vec3, target: LegacyEnemy, damage: real, level: int, sqrt: real -> real): (p: LegacyProjectile)
    requires IsSqrt(sqrt)
    ensures WellFormedShot(p) && p.attackType == Fireball && p.target == Some(target.id) && p.position == from
    ensures p.aoeRadius == Some(4.0 + level as real) && p.lifetime == 3.0 && p.damage == damage
    ensures from != target.meshPosition ==> SpeedSq(p.velocity) == 400.0
    ensures from != target.meshPosition ==>
      Along(p.velocity, target.meshPosition.x - from.x, target.meshPosition.y - from.y,
            target.meshPosition.z - from.z, Dist(from, target.meshPosition, sqrt), 20.0)
  {
    LegacyProjectile(Some(target.id), from, Toward(from, target.meshPosition, 20.0, sqrt), damage, Fireball, 3.0,
                     None, Some(4.0 + level as real))
  }

  /** `createLaserProjectile`: a still beam for 0.3 seconds. */
  function LaserShot(from: Vec3, target: LegacyEnemy, damage: real): (p: LegacyProjectile)
    ensures WellFormedShot(p) && p.attackType == Laser && p.target == Some(target.id)
    ensures p.velocity == Vec3(0.0, 0.0, 0.0) && p.lifetime == 0.3 && p.aoeRadius.None?
  {
    LegacyProjectile(Some(target.id), from, Vec3(0.0, 0.0, 0.0), damage, Laser, 0.3, None, None)
  }

  /** `createMeteorProjectile`: dropped from 30 above the target at 25 per second, area radius `6 + level`. */
  function MeteorShot(target: LegacyEnemy, damage: real, level: int): (p: LegacyProjectile)
    ensures WellFormedShot(p) && p.attackType == Meteor && p.target == Some(target.id)
    ensures p.position == target.meshPosition.(y := target.meshPosition.y + 30.0)
    ensures p.velocity == Vec3(0.0, -25.0, 0.0) && p.aoeRadius == Some(6.0 + level as real) && p.lifetime == 2.0
  {
    var m := target.meshPosition;
    LegacyProjectile(Some(target.id), Vec3(m.x, m.y + 30.0, m.z), Vec3(0.0, -25.0, 0.0), damage, Meteor, 2.0,
                     None, Some(6.0 + level as real))
  }

  /** `createVortexEffect`: no target and no damage, area radius `12 + 2 * level`, 2 seconds. */
  function VortexEffect(center: Vec3, level: int): (p: LegacyProjectile)
    ensures WellFormedShot(p) && p.attackType == Vortex && p.target.None? && p.damage == 0.0
    ensures p.position == center && p.aoeRadius == Some(12.0 + 2.0 * level as real) && p.lifetime == 2.0
  {
    LegacyProjectile(None, center, Vec3(0.0, 0.0, 0.0), 0.0, Vortex, 2.0, None, Some(12.0 + level as real * 2.0))
  }

  /** The lightning bolt has the common shape too. */
  lemma LightningShotWellFormed(from: Vec3, target: LegacyEnemy, damage: real, ids: seq<int>)
    ensures WellFormedShot(LegacyProjectile(Some(target.id), from, Vec3(0.0, 0.0, 0.0), damage, Lightning, 0.15, Some(ids), None))
  {
  }
}
