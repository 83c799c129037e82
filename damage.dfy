/**
 * Projectile hits: a projectile that reaches the ground or touches a live enemy deals its
 * direct damage, its splash, or both, and dies; every enemy brought to zero hit points is
 * killed and counted. Knockback, shockwave and death-launch impulses go to the physics engine
 * and are not modelled, nor are the random draws that only feed them.
 */
module Damage {
  import opened Common
  import opened Geometry
  import opened State

  /** The record part of `killEnemy`: the enemy dies and the wave counts one more kill. */
  method KillEnemy(state: GameState, i: nat)
    requires i < |state.enemies|
    modifies state`enemies, state`wave
    ensures state.enemies == old(state.enemies)[i := old(state.enemies[i]).(alive := false)]
    ensures state.wave == old(state.wave).(kills := old(state.wave.kills) + 1)
  {
    state.enemies := state.enemies[i := state.enemies[i].(alive := false)];
    state.wave := state.wave.(kills := state.wave.kills + 1);
  }

  /**
   * `killEnemy` has no guard of its own: calling it twice on the same enemy counts two kills.
   * The callers are the ones that make sure it runs once per death.
   */
  method KillTwice(state: GameState, i: nat)
    requires i < |state.enemies|
    modifies state`enemies, state`wave
    ensures |state.enemies| == |old(state.enemies)| && !state.enemies[i].alive
    ensures state.wave.kills == old(state.wave.kills) + 2
  {
    KillEnemy(state, i);
    KillEnemy(state, i);
  }

  /** Outcome of one hit on one enemy: the new record, and whether the hit killed it. */
  datatype Hit = Hit(enemy: Enemy, killed: bool)

  /** Splash falloff: `damage * 0.5 * (1 - dist / radius)`. */
  function SplashAmount(damage: real, dist: real, radius: real): (r: real)
    requires radius > 0.0
    ensures 0.0 <= dist < radius && damage > 0.0 ==> 0.0 < r <= damage * 0.5
    ensures 0.0 <= dist < radius && damage >= 0.0 ==> 0.0 <= r <= damage * 0.5
  {
    var falloff := 1.0 - dist / radius;
    assert 0.0 <= dist < radius ==> 0.0 < falloff <= 1.0;
    if 0.0 <= dist < radius && damage >= 0.0 then
      MulLeft(damage * 0.5, falloff, 1.0);
      damage * 0.5 * falloff
    else
      damage * 0.5 * falloff
  }

  /** What `applySplashDamage` does to one enemy. */
  function SplashHit(e: Enemy, p: Projectile, exclude: Option<int>, sqrt: real -> real): (h: Hit)
    requires IsSqrt(sqrt)
    ensures h.killed <==> e.alive && !h.enemy.alive
    ensures !e.alive || exclude == Some(e.id) ==> h == Hit(e, false)
    ensures e.alive && exclude != Some(e.id) && Dist(p.body.position, e.body.position, sqrt) >= p.splashRadius ==>
      h == Hit(e, false)
    ensures e.alive && exclude != Some(e.id) && Dist(p.body.position, e.body.position, sqrt) < p.splashRadius ==>
      var amount := SplashAmount(p.damage, Dist(p.body.position, e.body.position, sqrt), p.splashRadius);
      && h.enemy == e.(hp := e.hp - amount, alive := e.hp - amount > 0.0)
      && (p.damage > 0.0 ==> 0.0 < amount <= p.damage * 0.5)
  {
    if !e.alive || exclude == Some(e.id) then Hit(e, false)
    else
      var dist := Dist(p.body.position, e.body.position, sqrt);
      if dist < p.splashRadius then
        var hp := e.hp - SplashAmount(p.damage, dist, p.splashRadius);
        if hp <= 0.0 then Hit(e.(hp := hp, alive := false), true) else Hit(e.(hp := hp), false)
      else Hit(e, false)
  }

  /** The whole list after one splash. */
  function SplashAll(es: seq<Enemy>, p: Projectile, exclude: Option<int>, sqrt: real -> real): (r: seq<Enemy>)
    requires IsSqrt(sqrt)
    ensures |r| == |es| && NoRevival(es, r)
    ensures forall i :: 0 <= i < |es| ==> r[i] == SplashHit(es[i], p, exclude, sqrt).enemy
  {
    seq(|es|, i requires 0 <= i < |es| => SplashHit(es[i], p, exclude, sqrt).enemy)
  }

  /** One iteration of the splash loop. */
  method SplashOne(state: GameState, i: nat, p: Projectile, exclude: Option<int>, sqrt: real -> real)
    requires IsSqrt(sqrt) && i < |state.enemies|
    modifies state`enemies, state`wave
    ensures state.enemies == old(state.enemies)[i := SplashHit(old(state.enemies[i]), p, exclude, sqrt).enemy]
    ensures state.wave == old(state.wave).(kills := old(state.wave.kills)
      + if SplashHit(old(state.enemies[i]), p, exclude, sqrt).killed then 1 else 0)
  {
    var e := state.enemies[i];
    if !e.alive || exclude == Some(e.id) {
      return;
    }
    var splashPos := p.body.position;
    var dx := splashPos.x - e.body.position.x;
    var dy := splashPos.y - e.body.position.y;
    var dz := splashPos.z - e.body.position.z;
    assert dx * dx + dy * dy + dz * dz == DistSq(splashPos, e.body.position);
    var dist := sqrt(dx * dx + dy * dy + dz * dz);
    if dist < p.splashRadius {
      var splashDamage := SplashAmount(p.damage, dist, p.splashRadius);
      state.enemies := state.enemies[i := e.(hp := e.hp - splashDamage)];
      if state.enemies[i].hp <= 0.0 {
        KillEnemy(state, i);
      }
    }
  }

  /** `applySplashDamage`: every enemy is visited once, so each is killed at most once. */
  method ApplySplashDamage(state: GameState, p: Projectile, exclude: Option<int>, sqrt: real -> real)
    requires IsSqrt(sqrt)
    modifies state`enemies, state`wave
    ensures state.enemies == SplashAll(old(state.enemies), p, exclude, sqrt)
    ensures state.wave == old(state.wave).(kills := old(state.wave.kills) + Deaths(old(state.enemies), state.enemies))
  {
    ghost var es0 := state.enemies;
    var i := 0;
    while i < |state.enemies|
      invariant 0 <= i <= |state.enemies| == |es0|
      invariant forall j :: 0 <= j < i ==> state.enemies[j] == SplashHit(es0[j], p, exclude, sqrt).enemy
      invariant forall j :: i <= j < |es0| ==> state.enemies[j] == es0[j]
      invariant state.wave == old(state.wave).(kills := old(state.wave.kills) + Deaths(es0[..i], state.enemies[..i]))
    {
      ghost var before := state.enemies;
      SplashOne(state, i, p, exclude, sqrt);
      assert state.enemies[..i] == before[..i];
      DeathsPrefixStep(es0, state.enemies, i);
      i := i + 1;
    }
    assert es0[..i] == es0 && state.enemies[..i] == state.enemies;
  }

  /** A splash kills no more enemies than were alive. */
  lemma SplashKillsAtMostAlive(es: seq<Enemy>, p: Projectile, exclude: Option<int>, sqrt: real -> real)
    requires IsSqrt(sqrt)
    ensures Deaths(es, SplashAll(es, p, exclude, sqrt)) <= |FilterAlive(es)|
  {
    DeathsAtMostAlive(es, SplashAll(es, p, exclude, sqrt));
  }

  /** What `applyDirectHit` does to the enemy it hits (a live one, by the caller's check). */
  function DirectHit(e: Enemy, p: Projectile): (h: Hit)
    ensures h.enemy.hp == e.hp - p.damage
    ensures h.enemy == e.(hp := h.enemy.hp, alive := h.enemy.alive)
    ensures e.alive ==> (h.killed <==> h.enemy.hp <= 0.0) && (h.enemy.alive <==> h.enemy.hp > 0.0)
  {
    var hp := e.hp - p.damage;
    if hp <= 0.0 then Hit(e.(hp := hp, alive := false), true) else Hit(e.(hp := hp), false)
  }

  /** `applyDirectHit`. */
  method ApplyDirectHit(state: GameState, p: Projectile, i: nat)
    requires i < |state.enemies|
    modifies state`enemies, state`wave
    ensures state.enemies == old(state.enemies)[i := DirectHit(old(state.enemies[i]), p).enemy]
    ensures state.wave == old(state.wave).(kills := old(state.wave.kills)
      + if DirectHit(old(state.enemies[i]), p).killed then 1 else 0)
  {
    state.enemies := state.enemies[i := state.enemies[i].(hp := state.enemies[i].hp - p.damage)];
    if state.enemies[i].hp <= 0.0 {
      KillEnemy(state, i);
    }
  }

  /** Arrows hit within 0.7, everything else within 1.0. */
  function HitRadius(p: Projectile): (r: real)
    ensures r == (if p.kind == Arrow then 0.7 else 1.0)
  {
    if p.kind == Arrow then 0.7 else 1.0
  }

  predicate Touches(p: Projectile, e: Enemy)
  {
    e.alive && DistSq(p.body.position, e.body.position) < HitRadius(p) * HitRadius(p)
  }

  /** The first live enemy at or after index `k` that the projectile touches. */
  function FirstHit(p: Projectile, es: seq<Enemy>, k: nat): (r: Option<nat>)
    requires k <= |es|
    ensures r.Some? ==>
      && k <= r.value < |es| && Touches(p, es[r.value])
      && forall j :: k <= j < r.value ==> !Touches(p, es[j])
    ensures r.None? ==> forall j :: k <= j < |es| ==> !Touches(p, es[j])
    decreases |es| - k
  {
    if k == |es| then None
    else if Touches(p, es[k]) then Some(k)
    else FirstHit(p, es, k + 1)
  }

  /** A non-arcane projectile below 0.3 and falling detonates on the ground. */
  predicate GroundBurst(p: Projectile)
  {
    p.kind != Arcane && p.body.position.y < 0.3 && p.body.velocity.y < 0.0
  }

  datatype Outcome = Outcome(proj: Projectile, enemies: seq<Enemy>, kills: int)

  /** The body of the `checkProjectileHits` loop for one projectile. */
  function Resolve(p: Projectile, es: seq<Enemy>, kills: int, sqrt: real -> real): (o: Outcome)
    requires IsSqrt(sqrt)
    ensures |o.enemies| == |es| && NoRevival(es, o.enemies)
    ensures o.kills == kills + Deaths(es, o.enemies)
    ensures forall i :: 0 <= i < |es| && !es[i].alive ==> o.enemies[i] == es[i]
    ensures o.proj.alive ==> o == Outcome(p, es, kills)
  {
    if !p.alive then
      DeathsNone(es);
      Outcome(p, es, kills)
    else if GroundBurst(p) then
      var es1 := if p.splashRadius > 0.0 then SplashAll(es, p, None, sqrt) else es;
      DeathsNone(es);
      Outcome(p.(alive := false), es1, kills + Deaths(es, es1))
    else
      match FirstHit(p, es, 0)
      case None =>
        DeathsNone(es);
        Outcome(p, es, kills)
      case Some(j) =>
        var h := DirectHit(es[j], p);
        var es1 := es[j := h.enemy];
        DeathsUpdate(es, j, h.enemy);
        var es2 := if p.splashRadius > 0.0 then SplashAll(es1, p, Some(es[j].id), sqrt) else es1;
        DeathsNone(es1);
        DeathsTrans(es, es1, es2);
        Outcome(p.(alive := false), es2, kills + Deaths(es, es2))
  }

  /** Dead projectiles are skipped. */
  lemma DeadProjectileSkipped(p: Projectile, es: seq<Enemy>, kills: int, sqrt: real -> real)
    requires IsSqrt(sqrt) && !p.alive
    ensures Resolve(p, es, kills, sqrt) == Outcome(p, es, kills)
  {
  }

  /**
   * A projectile on the ground dies without a direct hit; without a splash radius it leaves
   * every enemy alone. Arcane bolts never detonate on the ground: without a touched enemy
   * they fly on.
   */
  lemma GroundBurstRules(p: Projectile, es: seq<Enemy>, kills: int, sqrt: real -> real)
    requires IsSqrt(sqrt) && p.alive
    ensures GroundBurst(p) ==> Resolve(p, es, kills, sqrt).proj == p.(alive := false)
    ensures GroundBurst(p) && p.splashRadius <= 0.0 ==> Resolve(p, es, kills, sqrt) == Outcome(p.(alive := false), es, kills)
    ensures GroundBurst(p) && p.splashRadius > 0.0 ==> Resolve(p, es, kills, sqrt).enemies == SplashAll(es, p, None, sqrt)
    ensures p.kind == Arcane && FirstHit(p, es, 0).None? ==> Resolve(p, es, kills, sqrt) == Outcome(p, es, kills)
  {
    DeathsNone(es);
  }

  /**
   * One direct hit at most: it goes to the first live enemy in list order that the projectile
   * touches, costs that enemy exactly the projectile's damage, and ends the projectile.
   */
  lemma DirectHitRules(p: Projectile, es: seq<Enemy>, kills: int, sqrt: real -> real)
    requires IsSqrt(sqrt) && p.alive && !GroundBurst(p) && FirstHit(p, es, 0).Some?
    ensures var j := FirstHit(p, es, 0).value;
      var o := Resolve(p, es, kills, sqrt);
      && o.proj == p.(alive := false)
      && (forall i :: 0 <= i < j ==> !Touches(p, es[i]))
      && (p.splashRadius <= 0.0 ==> o.enemies == es[j := DirectHit(es[j], p).enemy])
      && (p.splashRadius > 0.0 ==> o.enemies[j] == DirectHit(es[j], p).enemy)
      && (p.splashRadius > 0.0 ==> o.enemies == SplashAll(es[j := DirectHit(es[j], p).enemy], p, Some(es[j].id), sqrt))
  {
    var j := FirstHit(p, es, 0).value;
    if p.splashRadius > 0.0 {
      var es1 := es[j := DirectHit(es[j], p).enemy];
      assert SplashHit(es1[j], p, Some(es[j].id), sqrt) == Hit(es1[j], false);
    }
  }

  datatype Battle = Battle(projectiles: seq<Projectile>, enemies: seq<Enemy>, kills: int)

  /** The state after the first `n` projectiles of the loop have been resolved. */
  function ResolveFirst(ps: seq<Projectile>, es: seq<Enemy>, kills: int, n: nat, sqrt: real -> real): (b: Battle)
    requires IsSqrt(sqrt) && n <= |ps|
    ensures |b.projectiles| == |ps| && |b.enemies| == |es| && NoRevival(es, b.enemies)
    ensures b.kills == kills + Deaths(es, b.enemies)
    ensures forall i :: n <= i < |ps| ==> b.projectiles[i] == ps[i]
    ensures forall i :: 0 <= i < |ps| && b.projectiles[i].alive ==> ps[i] == b.projectiles[i]
  {
    if n == 0 then
      DeathsNone(es);
      Battle(ps, es, kills)
    else
      var b := ResolveFirst(ps, es, kills, n - 1, sqrt);
      var o := Resolve(b.projectiles[n - 1], b.enemies, b.kills, sqrt);
      DeathsTrans(es, b.enemies, o.enemies);
      Battle(b.projectiles[n - 1 := o.proj], o.enemies, o.kills)
  }

  /** The inner loop of `checkProjectileHits`: the scan for the first live enemy touched. */
  method FindDirectHit(p: Projectile, es: seq<Enemy>) returns (r: Option<nat>)
    ensures r == FirstHit(p, es, 0)
  {
    var hitRadius := if p.kind == Arrow then 0.7 else 1.0;
    var j := 0;
    while j < |es|
      invariant j <= |es|
      invariant FirstHit(p, es, 0) == FirstHit(p, es, j)
    {
      var e := es[j];
      if e.alive {
        var distSq := DistSq(p.body.position, e.body.position);
        if distSq < hitRadius * hitRadius {
          return Some(j);
        }
      }
      j := j + 1;
    }
    return None;
  }

  /** Resolving one projectile in place: ground burst, or a direct hit followed by its splash. */
  method ResolveProjectile(state: GameState, i: nat, sqrt: real -> real)
    requires IsSqrt(sqrt) && i < |state.projectiles|
    modifies state`projectiles, state`enemies, state`wave
    ensures
      var o := Resolve(old(state.projectiles[i]), old(state.enemies), old(state.wave.kills), sqrt);
      && state.projectiles == old(state.projectiles)[i := o.proj]
      && state.enemies == o.enemies
      && state.wave == old(state.wave).(kills := o.kills)
  {
    var p := state.projectiles[i];
    ghost var es0 := state.enemies;
    DeathsNone(es0);
    if !p.alive {
      return;
    }
    if p.kind != Arcane && p.body.position.y < 0.3 && p.body.velocity.y < 0.0 {
      if p.splashRadius > 0.0 {
        ApplySplashDamage(state, p, None, sqrt);
      }
      state.projectiles := state.projectiles[i := p.(alive := false)];
      return;
    }
    var hit := FindDirectHit(p, state.enemies);
    if hit.None? {
      return;
    }
    HitAndSplash(state, p, hit.value, sqrt);
    state.projectiles := state.projectiles[i := p.(alive := false)];
  }

  /** A direct hit on enemy `j`, then, for a splashing projectile, the splash that spares that enemy. */
  method HitAndSplash(state: GameState, p: Projectile, j: nat, sqrt: real -> real)
    requires IsSqrt(sqrt) && j < |state.enemies| && state.enemies[j].alive
    modifies state`enemies, state`wave
    ensures var es1 := old(state.enemies)[j := DirectHit(old(state.enemies[j]), p).enemy];
      && state.enemies == (if p.splashRadius > 0.0 then SplashAll(es1, p, Some(old(state.enemies[j].id)), sqrt) else es1)
      && state.wave == old(state.wave).(kills := old(state.wave.kills) + Deaths(old(state.enemies), state.enemies))
  {
    ghost var es0 := state.enemies;
    var id := state.enemies[j].id;
    ApplyDirectHit(state, p, j);
    DeathsUpdate(es0, j, DirectHit(es0[j], p).enemy);
    if p.splashRadius > 0.0 {
      ApplySplashDamage(state, p, Some(id), sqrt);
      DeathsTrans(es0, es0[j := DirectHit(es0[j], p).enemy], state.enemies);
    }
  }

  /** `checkProjectileHits`. */
  method CheckProjectileHits(state: GameState, sqrt: real -> real)
    requires IsSqrt(sqrt)
    modifies state`projectiles, state`enemies, state`wave
    ensures
      var b := ResolveFirst(old(state.projectiles), old(state.enemies), old(state.wave.kills), |old(state.projectiles)|, sqrt);
      && state.projectiles == b.projectiles && state.enemies == b.enemies
      && state.wave == old(state.wave).(kills := b.kills)
  {
    ghost var ps0, es0, w0 := state.projectiles, state.enemies, state.wave;
    var i := 0;
    while i < |state.projectiles|
      invariant i <= |state.projectiles| == |ps0|
      invariant state.projectiles == ResolveFirst(ps0, es0, w0.kills, i, sqrt).projectiles
      invariant state.enemies == ResolveFirst(ps0, es0, w0.kills, i, sqrt).enemies
      invariant state.wave == w0.(kills := ResolveFirst(ps0, es0, w0.kills, i, sqrt).kills)
    {
      ResolveProjectile(state, i, sqrt);
      i := i + 1;
    }
  }
}
