/**
 * The prototype's enemies: per-type stats, the composition of each wave, spawning, and the
 * per-frame status-effect and steering update.
 */
module LegacyEnemies {
  import opened Common
  import opened Geometry
  import opened Physics
  import opened LegacyTypes

  /** `ENEMY_CONFIGS`. */
  function ConfigFor(t: EnemyType): EnemyConfig
  {
    match t
    case Basic => EnemyConfig(30.0, 2.0, 5.0, 10.0, 0xcc4444, 1.0)
    case Fast => EnemyConfig(15.0, 4.5, 3.0, 8.0, 0xcccc22, 0.7)
    case Tank => EnemyConfig(120.0, 1.0, 15.0, 25.0, 0x666644, 1.4)
    case Flying => EnemyConfig(25.0, 3.0, 4.0, 15.0, 0x8844cc, 0.9)
    case Swarm => EnemyConfig(8.0, 3.5, 2.0, 3.0, 0x44cc44, 0.5)
    case Shielded => EnemyConfig(60.0, 1.8, 8.0, 20.0, 0x4466cc, 1.1)
    case Boss => EnemyConfig(500.0, 0.8, 30.0, 100.0, 0xff2200, 2.0)
  }

  /** Every type has positive stats, and the boss outlasts every other type. */
  lemma ConfigsPositive(t: EnemyType)
    ensures var c := ConfigFor(t); c.health > 0.0 && c.speed > 0.0 && c.damage > 0.0 && c.reward > 0.0 && c.scale > 0.0
    ensures ConfigFor(t).health <= ConfigFor(Boss).health
  {
  }

  // ---------------------------------------------------------------- wave composition

  /** How many times a `for (i = 0; i < n; i++)` loop runs. */
  function Times(n: int): (r: nat)
    ensures n >= 0 ==> r == n
    ensures n < 0 ==> r == 0
  {
    if n < 0 then 0 else n
  }

  /** `Math.floor(w * f)`. */
  function FloorOf(w: int, f: real): int
  {
    (w as real * f).Floor
  }

  /**
   * How many times the `k`-th push loop of `getWaveEnemies` runs, in program order: basics,
   * fast, two swarm loops, tanks, flyers, shielded and the boss; a loop whose guard fails
   * runs zero times.
   */
  function PushCount(w: int, k: nat): nat
  {
    if k == 0 then Times(5 + w * 2)
    else if k == 1 then (if w >= 2 then Times(FloorOf(w, 1.5)) else 0)
    else if k == 2 then (if w >= 3 then Times(FloorOf(w, 0.5)) else 0)
    else if k == 3 then (if w >= 3 then Times(FloorOf(w, 0.8)) else 0)
    else if k == 4 then (if w >= 4 then Times(FloorOf(w, 0.4)) else 0)
    else if k == 5 then (if w >= 5 then Times(FloorOf(w, 0.5)) else 0)
    else if k == 6 then (if w >= 7 then Times(FloorOf(w, 0.3)) else 0)
    else if k == 7 then (if w % 5 == 0 && w > 0 then 1 else 0)
    else 0
  }

  /** The list the push loops build. */
  function WaveEnemies(w: int): seq<EnemyType>
  {
    Repeat(Basic, PushCount(w, 0)) + Repeat(Fast, PushCount(w, 1)) + Repeat(Swarm, PushCount(w, 2))
    + Repeat(Swarm, PushCount(w, 3)) + Repeat(Tank, PushCount(w, 4)) + Repeat(Flying, PushCount(w, 5))
    + Repeat(Shielded, PushCount(w, 6)) + Repeat(Boss, PushCount(w, 7))
  }

  /** Counting over the eight push loops. */
  lemma WaveCount(w: int, t: EnemyType)
    ensures Count(WaveEnemies(w), t) ==
      (if t == Basic then PushCount(w, 0) else 0) + (if t == Fast then PushCount(w, 1) else 0)
      + (if t == Swarm then PushCount(w, 2) + PushCount(w, 3) else 0) + (if t == Tank then PushCount(w, 4) else 0)
      + (if t == Flying then PushCount(w, 5) else 0) + (if t == Shielded then PushCount(w, 6) else 0)
      + (if t == Boss then PushCount(w, 7) else 0)
  {
    var p0, p1, p2, p3 := Repeat(Basic, PushCount(w, 0)), Repeat(Fast, PushCount(w, 1)), Repeat(Swarm, PushCount(w, 2)), Repeat(Swarm, PushCount(w, 3));
    var p4, p5, p6, p7 := Repeat(Tank, PushCount(w, 4)), Repeat(Flying, PushCount(w, 5)), Repeat(Shielded, PushCount(w, 6)), Repeat(Boss, PushCount(w, 7));
    CountAppend(p0, p1, t);
    CountAppend(p0 + p1, p2, t);
    CountAppend(p0 + p1 + p2, p3, t);
    CountAppend(p0 + p1 + p2 + p3, p4, t);
    CountAppend(p0 + p1 + p2 + p3 + p4, p5, t);
    CountAppend(p0 + p1 + p2 + p3 + p4 + p5, p6, t);
    CountAppend(p0 + p1 + p2 + p3 + p4 + p5 + p6, p7, t);
    CountRepeat(Basic, PushCount(w, 0), t);
    CountRepeat(Fast, PushCount(w, 1), t);
    CountRepeat(Swarm, PushCount(w, 2), t);
    CountRepeat(Swarm, PushCount(w, 3), t);
    CountRepeat(Tank, PushCount(w, 4), t);
    CountRepeat(Flying, PushCount(w, 5), t);
    CountRepeat(Shielded, PushCount(w, 6), t);
    CountRepeat(Boss, PushCount(w, 7), t);
  }

  /**
   * Wave `w` has `5 + 2w` basics; `floor(1.5w)` fast ones from wave 2; `floor(0.5w) +
   * floor(0.8w)` swarm from wave 3; `floor(0.4w)` tanks from wave 4; `floor(0.5w)` flyers from
   * wave 5; `floor(0.3w)` shielded from wave 7; and one boss exactly on positive multiples of 5.
   */
  lemma WaveComposition(w: int)
    requires w >= 0
    ensures Count(WaveEnemies(w), Basic) == 5 + 2 * w
    ensures Count(WaveEnemies(w), Fast) == if w >= 2 then FloorOf(w, 1.5) else 0
    ensures Count(WaveEnemies(w), Swarm) == if w >= 3 then FloorOf(w, 0.5) + FloorOf(w, 0.8) else 0
    ensures Count(WaveEnemies(w), Tank) == if w >= 4 then FloorOf(w, 0.4) else 0
    ensures Count(WaveEnemies(w), Flying) == if w >= 5 then FloorOf(w, 0.5) else 0
    ensures Count(WaveEnemies(w), Shielded) == if w >= 7 then FloorOf(w, 0.3) else 0
    ensures Count(WaveEnemies(w), Boss) == if w % 5 == 0 && w > 0 then 1 else 0
  {
    WaveCount(w, Basic);
    WaveCount(w, Fast);
    WaveCount(w, Swarm);
    WaveCount(w, Tank);
    WaveCount(w, Flying);
    WaveCount(w, Shielded);
    WaveCount(w, Boss);
    // the floors of a non-negative wave are non-negative, so `Times` changes nothing
    assert FloorOf(w, 1.5) >= 0 && FloorOf(w, 0.5) >= 0 && FloorOf(w, 0.8) >= 0;
    assert FloorOf(w, 0.4) >= 0 && FloorOf(w, 0.3) >= 0;
  }

  /** One `for` loop of `push(t)`, `n` times. */
  method PushRepeated(enemies: seq<EnemyType>, t: EnemyType, n: int) returns (r: seq<EnemyType>)
    ensures r == enemies + Repeat(t, Times(n))
  {
    r := enemies;
    var i := 0;
    while i < n
      invariant 0 <= i <= Times(n)
      invariant r == enemies + Repeat(t, i)
    {
      r := r + [t];
      i := i + 1;
    }
  }

  /** `getWaveEnemies`: the push loops in program order. */
  method GetWaveEnemies(wave: int) returns (enemies: seq<EnemyType>)
    ensures enemies == WaveEnemies(wave)
  {
    enemies := [];
    var baseCount := 5 + wave * 2;
    enemies := PushRepeated(enemies, Basic, baseCount);
    assert enemies == Repeat(Basic, PushCount(wave, 0));
    if wave >= 2 {
      enemies := PushRepeated(enemies, Fast, FloorOf(wave, 1.5));
    }
    assert enemies == Repeat(Basic, PushCount(wave, 0)) + Repeat(Fast, PushCount(wave, 1));
    ghost var e2 := enemies;
    if wave >= 3 {
      enemies := PushRepeated(enemies, Swarm, FloorOf(wave, 0.5));
    }
    assert enemies == e2 + Repeat(Swarm, PushCount(wave, 2));
    ghost var e3 := enemies;
    if wave >= 3 {
      enemies := PushRepeated(enemies, Swarm, FloorOf(wave, 0.8));
    }
    assert enemies == e3 + Repeat(Swarm, PushCount(wave, 3));
    ghost var e4 := enemies;
    if wave >= 4 {
      enemies := PushRepeated(enemies, Tank, FloorOf(wave, 0.4));
    }
    assert enemies == e4 + Repeat(Tank, PushCount(wave, 4));
    ghost var e5 := enemies;
    if wave >= 5 {
      enemies := PushRepeated(enemies, Flying, FloorOf(wave, 0.5));
    }
    assert enemies == e5 + Repeat(Flying, PushCount(wave, 5));
    ghost var e6 := enemies;
    if wave >= 7 {
      enemies := PushRepeated(enemies, Shielded, FloorOf(wave, 0.3));
    }
    assert enemies == e6 + Repeat(Shielded, PushCount(wave, 6));
    ghost var e7 := enemies;
    ghost var bosses := PushCount(wave, 7);
    if wave % 5 == 0 && wave > 0 {
      enemies := enemies + [Boss];
      assert bosses == 1 && Repeat(Boss, 1) == [Boss];
    } else {
      assert bosses == 0;
    }
    assert enemies == e7 + Repeat(Boss, bosses);
  }

  // ---------------------------------------------------------------- spawning

  /** The prototype's module-level `nextEnemyId` counter. */
  class EnemyIds {
    var nextEnemyId: int

    constructor ()
      ensures nextEnemyId == 0
    {
      nextEnemyId := 0;
    }

    /** `nextEnemyId++`: the old value, and the counter one higher. */
    method Next() returns (id: int)
      modifies this
      ensures id == old(nextEnemyId) && nextEnemyId == id + 1
    {
      id := nextEnemyId;
      nextEnemyId := nextEnemyId + 1;
    }
  }

  /** Status effects all clear: no stun, burn or slow. */
  predicate Unaffected(e: LegacyEnemy)
  {
    e.stunTimer == 0.0 && e.burnTimer == 0.0 && e.burnDamage == 0.0 && e.slowFactor == 1.0 && e.slowTimer == 0.0
  }

  /**
   * The record `spawnEnemy` returns for a point `(x, rawY, z)` on the spawn sphere. The
   * point comes from `Math.random` and trigonometry and is a parameter here.
   */
  function Spawned(t: EnemyType, waveMultiplier: real, id: int, x: real, rawY: real, z: real): (e: LegacyEnemy)
    ensures e.alive && Unaffected(e) && e.kind == t && e.id == id
    ensures e.health == e.maxHealth == (ConfigFor(t).health * waveMultiplier).Floor as real
    ensures e.meshPosition == e.body.position && e.body.position.y >= 1.0
    ensures waveMultiplier >= 1.0 ==> e.health >= ConfigFor(t).health
  {
    var config := ConfigFor(t);
    var scaledHealth := (config.health * waveMultiplier).Floor as real;
    assert waveMultiplier >= 1.0 ==> config.health * waveMultiplier >= config.health;
    var position := Vec3(x, Max(1.0, rawY), z);
    LegacyEnemy(id, position, Body(position, Vec3(0.0, 0.0, 0.0), if t == Flying then 0.1 else 1.0),
      scaledHealth, scaledHealth, config.speed, config.damage, config.reward, t, true,
      0.0, 0.0, 0.0, 1.0, 0.0)
  }

  /** `spawnEnemy`: take the next id, add the body to the world, and return the record. */
  method SpawnEnemy(ids: EnemyIds, world: World, t: EnemyType, waveMultiplier: real, x: real, rawY: real, z: real)
    returns (e: LegacyEnemy)
    modifies ids, world
    ensures e == Spawned(t, waveMultiplier, old(ids.nextEnemyId), x, rawY, z)
    ensures ids.nextEnemyId == old(ids.nextEnemyId) + 1
    ensures world.calls == old(world.calls) + [Added(e.id)]
  {
    var id := ids.Next();
    e := Spawned(t, waveMultiplier, id, x, rawY, z);
    world.AddBody(id);
  }

  // ---------------------------------------------------------------- per-frame update

  /**
   * `updateEnemy`: nothing for a dead enemy; a stunned one only counts its stun down; any
   * other counts its slow and burn timers down, takes burn damage, steers straight at the
   * tower and has its mesh follow its body (flyers bob by `sin(clock * 0.003 + id) * 0.02`,
   * with `clock` standing for `Date.now()`).
   */
  method UpdateEnemy(e: LegacyEnemy, dt: real, towerPos: Vec3, m: MathLib, clock: real) returns (r: LegacyEnemy)
    requires ValidMath(m)
    ensures !e.alive ==> r == e
    ensures e.alive && e.stunTimer > 0.0 ==> r == e.(stunTimer := e.stunTimer - dt)
    ensures e.alive && e.stunTimer <= 0.0 ==>
      && r == e.(slowTimer := r.slowTimer, slowFactor := r.slowFactor, burnTimer := r.burnTimer,
                 health := r.health, body := e.body.(velocity := r.body.velocity), meshPosition := r.meshPosition)
      && StatusTicked(e, r, dt)
      && (Dist(e.body.position, towerPos, m.sqrt) > 0.1 ==>
            HeadsAt(r.body.velocity, e.body.position, towerPos, e.speed * r.slowFactor, m.sqrt))
      && (Dist(e.body.position, towerPos, m.sqrt) <= 0.1 ==> r.body.velocity == e.body.velocity)
      && r.meshPosition.x == e.body.position.x && r.meshPosition.z == e.body.position.z
      && r.meshPosition.y == e.body.position.y
                              + (if e.kind == Flying then m.sin(clock * 0.003 + e.id as real) * 0.02 else 0.0)
  {
    r := e;
    if !r.alive {
      return;
    }
    if r.stunTimer > 0.0 {
      r := r.(stunTimer := r.stunTimer - dt);
      return;
    }
    r := TickStatus(r, dt);
    r := SteerAtTower(r, towerPos, m);
    var bob := if r.kind == Flying then m.sin(clock * 0.003 + r.id as real) * 0.02 else 0.0;
    r := r.(meshPosition := Vec3(r.body.position.x, r.body.position.y + bob, r.body.position.z));
  }

  /**
   * The slow timer runs down and resets the factor to 1 when it expires; a burn costs
   * `burnDamage * dt` while its timer runs.
   */
  ghost predicate StatusTicked(e: LegacyEnemy, r: LegacyEnemy, dt: real)
  {
    && (e.slowTimer > 0.0 ==>
          r.slowTimer == e.slowTimer - dt && r.slowFactor == (if r.slowTimer <= 0.0 then 1.0 else e.slowFactor))
    && (e.slowTimer <= 0.0 ==> r.slowTimer == e.slowTimer && r.slowFactor == e.slowFactor)
    && (e.burnTimer > 0.0 ==> r.burnTimer == e.burnTimer - dt && r.health == e.health - e.burnDamage * dt)
    && (e.burnTimer <= 0.0 ==> r.burnTimer == e.burnTimer && r.health == e.health)
  }

  /** The slow and burn timers of `updateEnemy`; nothing else changes. */
  method TickStatus(e: LegacyEnemy, dt: real) returns (r: LegacyEnemy)
    ensures r == e.(slowTimer := r.slowTimer, slowFactor := r.slowFactor, burnTimer := r.burnTimer, health := r.health)
    ensures StatusTicked(e, r, dt)
  {
    r := e;
    if r.slowTimer > 0.0 {
      r := r.(slowTimer := r.slowTimer - dt);
      if r.slowTimer <= 0.0 {
        r := r.(slowFactor := 1.0);
      }
    }
    if r.burnTimer > 0.0 {
      r := r.(burnTimer := r.burnTimer - dt);
      r := r.(health := r.health - r.burnDamage * dt);
    }
  }

  /**
   * `v` heads from `pos` straight at `towerPos` with speed `s`: it is the offset to the tower
   * rescaled to length `s`.
   */
  ghost predicate HeadsAt(v: Vec3, pos: Vec3, towerPos: Vec3, s: real, sqrt: real -> real)
    requires IsSqrt(sqrt)
  {
    && SpeedSq(v) == s * s
    && Along(v, towerPos.x - pos.x, towerPos.y - pos.y, towerPos.z - pos.z, Dist(pos, towerPos, sqrt), s)
  }

  /** The steering part of `updateEnemy`: full (slowed) speed straight at the tower, unless already within 0.1. */
  method SteerAtTower(e: LegacyEnemy, towerPos: Vec3, m: MathLib) returns (r: LegacyEnemy)
    requires ValidMath(m)
    ensures r == e.(body := e.body.(velocity := r.body.velocity))
    ensures Dist(e.body.position, towerPos, m.sqrt) > 0.1 ==>
      HeadsAt(r.body.velocity, e.body.position, towerPos, e.speed * e.slowFactor, m.sqrt)
    ensures Dist(e.body.position, towerPos, m.sqrt) <= 0.1 ==> r == e
  {
    r := e;
    var dx := towerPos.x - e.body.position.x;
    var dy := towerPos.y - e.body.position.y;
    var dz := towerPos.z - e.body.position.z;
    var dist := m.sqrt(dx * dx + dy * dy + dz * dz);
    assert dx * dx + dy * dy + dz * dz == DistSq(e.body.position, towerPos);
    if dist > 0.1 {
      var speed := e.speed * e.slowFactor;
      r := e.(body := e.body.(velocity := Rescale(dx, dy, dz, dist, speed)));
    }
  }
}
