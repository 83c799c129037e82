/**
 * The tower's two ballistic attacks: a fireball aimed at the densest cluster of enemies and
 * an arrow aimed at the nearest one, each on its own reload timer.
 */
module Combat {
  import opened Common
  import opened Geometry
  import opened State
  import opened Physics
  import opened Selection
  import opened Queries
  import opened Projectiles

  /** Whether `other` counts as a neighbour of `candidate`: another id within 5 units. */
  predicate IsNeighbor(candidate: Enemy, other: Enemy)
  {
    other.id != candidate.id && HorizDistSq(candidate.body.position, other.body.position) < 25.0
  }

  /** How many of the first `n` enemies are neighbours of `candidate`. */
  function NeighborsUpTo(es: seq<Enemy>, candidate: Enemy, n: nat): (r: nat)
    requires n <= |es|
    ensures r <= n
  {
    if n == 0 then 0
    else NeighborsUpTo(es, candidate, n - 1) + (if IsNeighbor(candidate, es[n - 1]) then 1 else 0)
  }

  /** The neighbours of `candidate` in the list, as a set of indices. */
  function NeighborSet(es: seq<Enemy>, candidate: Enemy, n: nat): set<nat>
    requires n <= |es|
  {
    set j: nat | j < n && IsNeighbor(candidate, es[j])
  }

  /** The count is the size of the neighbour set: every other enemy within 5 units, once. */
  lemma {:induction false} NeighborsCountSet(es: seq<Enemy>, candidate: Enemy, n: nat)
    requires n <= |es|
    ensures NeighborsUpTo(es, candidate, n) == |NeighborSet(es, candidate, n)|
  {
    if n > 0 {
      NeighborsCountSet(es, candidate, n - 1);
      if IsNeighbor(candidate, es[n - 1]) {
        assert NeighborSet(es, candidate, n) == NeighborSet(es, candidate, n - 1) + {n - 1};
      } else {
        assert NeighborSet(es, candidate, n) == NeighborSet(es, candidate, n - 1);
      }
    }
  }

  /** The cluster score: three per neighbour, minus a tenth of the distance to the tower. */
  function Score(es: seq<Enemy>, i: nat, towerPos: Vec3, sqrt: real -> real): real
    requires i < |es|
  {
    (NeighborsUpTo(es, es[i], |es|) as real) * 3.0 - sqrt(HorizDistSq(es[i].body.position, towerPos)) * 0.1
  }

  /** The fireball score of every enemy, in list order: the key view `IsFirstMax` ranks. */
  function Scores(es: seq<Enemy>, towerPos: Vec3, sqrt: real -> real): (r: seq<real>)
    ensures |r| == |es| && forall i :: 0 <= i < |es| ==> r[i] == Score(es, i, towerPos, sqrt)
  {
    seq(|es|, i requires 0 <= i < |es| => Score(es, i, towerPos, sqrt))
  }

  /**
   * `findBestFireballTarget`: with at most two enemies the nearest one; otherwise the first
   * enemy of greatest cluster score.
   */
  function BestFireballTarget(es: seq<Enemy>, towerPos: Vec3, sqrt: real -> real): (r: Option<nat>)
    ensures r.Some? ==> r.value < |es|
  {
    if |es| <= 2 then Nearest(es, towerPos)
    else ScanMax(Scores(es, towerPos, sqrt), |es|)
  }

  /**
   * With at most two enemies the fireball goes for the nearest; with more it goes for the
   * first enemy of greatest score; there is a target exactly when the list is not empty.
   */
  lemma BestFireballTargetRules(es: seq<Enemy>, towerPos: Vec3, sqrt: real -> real)
    ensures |es| <= 2 ==> BestFireballTarget(es, towerPos, sqrt) == Nearest(es, towerPos)
    ensures |es| > 2 ==> IsFirstMax(Scores(es, towerPos, sqrt), BestFireballTarget(es, towerPos, sqrt))
    ensures BestFireballTarget(es, towerPos, sqrt).None? <==> es == []
  {
    ScanMaxIsFirstMax(Scores(es, towerPos, sqrt), |es|);
  }

  /** The inner loop of `findBestFireballTarget`. */
  method CountNeighbors(es: seq<Enemy>, candidate: Enemy) returns (neighbors: nat)
    ensures neighbors == NeighborsUpTo(es, candidate, |es|)
  {
    neighbors := 0;
    var j := 0;
    while j < |es|
      invariant j <= |es| && neighbors == NeighborsUpTo(es, candidate, j)
    {
      var other := es[j];
      if other.id != candidate.id {
        if HorizDistSq(candidate.body.position, other.body.position) < 25.0 {
          neighbors := neighbors + 1;
        }
      }
      j := j + 1;
    }
  }

  /** The outer loop of `findBestFireballTarget`: a running maximum from minus infinity. */
  method FindBestFireballTarget(es: seq<Enemy>, towerPos: Vec3, sqrt: real -> real) returns (r: Option<nat>)
    ensures r == BestFireballTarget(es, towerPos, sqrt)
  {
    if |es| <= 2 {
      r := FindNearestEnemy(towerPos, es);
      return;
    }
    ghost var scores := Scores(es, towerPos, sqrt);
    var bestScore := 0.0;
    r := None;
    var i := 0;
    while i < |es|
      invariant i <= |es|
      invariant r == ScanMax(scores, i)
      invariant r.Some? ==> bestScore == scores[r.value]
    {
      var candidate := es[i];
      var neighbors := CountNeighbors(es, candidate);
      var dist := sqrt(HorizDistSq(candidate.body.position, towerPos));
      var score := (neighbors as real) * 3.0 - dist * 0.1;
      assert score == Score(es, i, towerPos, sqrt) == scores[i];
      if r.None? || score > bestScore {
        bestScore := score;
        r := Some(i);
      }
      i := i + 1;
    }
  }

  /** One reload timer: down by `dt`, and back to the full period once it reaches zero. */
  function Reload(timer: real, dt: real, period: real): (r: real)
    ensures timer - dt > 0.0 ==> r == timer - dt
    ensures timer - dt <= 0.0 ==> r == period
  {
    if timer - dt <= 0.0 then period else timer - dt
  }

  /** The fireball of one tick, at the best target, once its timer runs out. */
  function FireballShots(fireTimer: real, towerPos: Vec3, alive: seq<Enemy>, dt: real, m: MathLib, id0: int)
    : (shots: seq<Projectile>)
    requires ValidMath(m)
    ensures |shots| <= 1
  {
    if fireTimer - dt <= 0.0 then
      match BestFireballTarget(alive, towerPos, m.sqrt)
      case None => []
      case Some(i) => [Shot(Fireball, alive[i].body.position, alive[i].body.velocity, None, m, id0)]
    else []
  }

  /** The arrow of one tick, at the nearest enemy, once its timer runs out. */
  function ArrowShots(arrowFireTimer: real, towerPos: Vec3, alive: seq<Enemy>, dt: real, m: MathLib, id0: int)
    : (shots: seq<Projectile>)
    requires ValidMath(m)
    ensures |shots| <= 1
  {
    if arrowFireTimer - dt <= 0.0 then
      match Nearest(alive, towerPos)
      case None => []
      case Some(i) => [Shot(Arrow, alive[i].body.position, alive[i].body.velocity, None, m, id0)]
    else []
  }

  /** The shots of one tick: the fireball first, then the arrow with the next id. */
  function Volley(t: Tower, alive: seq<Enemy>, dt: real, m: MathLib, id0: int): (shots: seq<Projectile>)
    requires ValidMath(m)
    ensures |shots| <= 2
    ensures forall k :: 0 <= k < |shots| ==> shots[k].id == id0 + k && shots[k].alive && shots[k].age == 0.0
  {
    var fireball := FireballShots(t.fireTimer, t.position, alive, dt, m, id0);
    fireball + ArrowShots(t.arrowFireTimer, t.position, alive, dt, m, id0 + |fireball|)
  }

  /**
   * With live enemies, a fireball is fired exactly when its timer runs out and an arrow
   * exactly when its timer runs out, the fireball first.
   */
  lemma VolleyRules(t: Tower, alive: seq<Enemy>, dt: real, m: MathLib, id0: int)
    requires ValidMath(m) && alive != []
    ensures var shots := Volley(t, alive, dt, m, id0);
      && |shots| == (if t.fireTimer - dt <= 0.0 then 1 else 0) + (if t.arrowFireTimer - dt <= 0.0 then 1 else 0)
      && (t.fireTimer - dt <= 0.0 ==> shots[0].kind == Fireball)
      && (t.arrowFireTimer - dt <= 0.0 ==> shots[|shots| - 1].kind == Arrow)
  {
    BestFireballTargetRules(alive, t.position, m.sqrt);
  }

  /** The `addBody` calls for a list of new projectiles. */
  function AddedAll(ps: seq<Projectile>): (r: seq<WorldCall>)
    ensures |r| == |ps| && forall k :: 0 <= k < |ps| ==> r[k] == Added(ps[k].id)
  {
    seq(|ps|, k requires 0 <= k < |ps| => Added(ps[k].id))
  }

  /**
   * `updateTowerCombat`: nothing at all once the tower is down or no enemy lives; otherwise
   * both timers reload and the shots of the volley are appended after the existing
   * projectiles, which stay as they were.
   */
  method UpdateTowerCombat(state: GameState, world: World, ids: IdAllocator, dt: real, m: MathLib)
    requires ValidMath(m) && ids.Valid()
    requires state.tower.fireRate > 0.0 && state.tower.arrowFireRate > 0.0
    modifies state`tower, state`projectiles, world, ids
    ensures ids.Valid()
    ensures old(state.tower.hp) <= 0.0 || FilterAlive(old(state.enemies)) == [] ==>
      && state.tower == old(state.tower) && state.projectiles == old(state.projectiles)
      && world.calls == old(world.calls) && ids.nextId == old(ids.nextId)
    ensures old(state.tower.hp) > 0.0 && FilterAlive(old(state.enemies)) != [] ==>
      var t := old(state.tower);
      var shots := Volley(t, FilterAlive(old(state.enemies)), dt, m, old(ids.nextId));
      && state.tower == t.(fireTimer := Reload(t.fireTimer, dt, 1.0 / t.fireRate),
                           arrowFireTimer := Reload(t.arrowFireTimer, dt, 1.0 / t.arrowFireRate))
      && state.projectiles == old(state.projectiles) + shots
      && world.calls == old(world.calls) + AddedAll(shots)
      && ids.nextId == old(ids.nextId) + |shots|
  {
    if state.tower.hp <= 0.0 {
      return;
    }
    var aliveEnemies := FilterAliveLoop(state.enemies);
    if |aliveEnemies| == 0 {
      return;
    }
    FireVolley(state, world, ids, aliveEnemies, dt, m);
  }

  /** Both halves of `updateTowerCombat` once there is a live enemy to shoot at. */
  method FireVolley(state: GameState, world: World, ids: IdAllocator, aliveEnemies: seq<Enemy>, dt: real, m: MathLib)
    requires ValidMath(m) && ids.Valid()
    requires state.tower.fireRate > 0.0 && state.tower.arrowFireRate > 0.0
    modifies state`tower, state`projectiles, world, ids
    ensures ids.Valid()
    ensures var t := old(state.tower);
      var shots := Volley(t, aliveEnemies, dt, m, old(ids.nextId));
      && state.tower == t.(fireTimer := Reload(t.fireTimer, dt, 1.0 / t.fireRate),
                           arrowFireTimer := Reload(t.arrowFireTimer, dt, 1.0 / t.arrowFireRate))
      && state.projectiles == old(state.projectiles) + shots
      && world.calls == old(world.calls) + AddedAll(shots)
      && ids.nextId == old(ids.nextId) + |shots|
  {
    ghost var t0, id0 := state.tower, ids.nextId;
    var fireball := FireballPhase(state, world, ids, aliveEnemies, dt, m);
    var arrow := ArrowPhase(state, world, ids, aliveEnemies, dt, m);
    assert fireball + arrow == Volley(t0, aliveEnemies, dt, m, id0);
    assert AddedAll(fireball + arrow) == AddedAll(fireball) + AddedAll(arrow);
  }

  /** The fireball half of `updateTowerCombat`. */
  method FireballPhase(state: GameState, world: World, ids: IdAllocator, aliveEnemies: seq<Enemy>, dt: real, m: MathLib)
    returns (fired: seq<Projectile>)
    requires ValidMath(m) && ids.Valid() && state.tower.fireRate > 0.0
    modifies state`tower, state`projectiles, world, ids
    ensures ids.Valid()
    ensures var t := old(state.tower);
      && fired == FireballShots(t.fireTimer, t.position, aliveEnemies, dt, m, old(ids.nextId))
      && state.tower == t.(fireTimer := Reload(t.fireTimer, dt, 1.0 / t.fireRate))
      && state.projectiles == old(state.projectiles) + fired
      && world.calls == old(world.calls) + AddedAll(fired)
      && ids.nextId == old(ids.nextId) + |fired|
  {
    fired := [];
    state.tower := state.tower.(fireTimer := state.tower.fireTimer - dt);
    if state.tower.fireTimer <= 0.0 {
      var target := FindBestFireballTarget(aliveEnemies, state.tower.position, m.sqrt);
      if target.Some? {
        var e := aliveEnemies[target.value];
        var proj := FireProjectile(world, ids, e.body.position, e.body.velocity, Fireball, None, m);
        state.projectiles := state.projectiles + [proj];
        fired := [proj];
      }
      state.tower := state.tower.(fireTimer := 1.0 / state.tower.fireRate);
    }
  }

  /** The arrow half of `updateTowerCombat`. */
  method ArrowPhase(state: GameState, world: World, ids: IdAllocator, aliveEnemies: seq<Enemy>, dt: real, m: MathLib)
    returns (fired: seq<Projectile>)
    requires ValidMath(m) && ids.Valid() && state.tower.arrowFireRate > 0.0
    modifies state`tower, state`projectiles, world, ids
    ensures ids.Valid()
    ensures var t := old(state.tower);
      && fired == ArrowShots(t.arrowFireTimer, t.position, aliveEnemies, dt, m, old(ids.nextId))
      && state.tower == t.(arrowFireTimer := Reload(t.arrowFireTimer, dt, 1.0 / t.arrowFireRate))
      && state.projectiles == old(state.projectiles) + fired
      && world.calls == old(world.calls) + AddedAll(fired)
      && ids.nextId == old(ids.nextId) + |fired|
  {
    fired := [];
    state.tower := state.tower.(arrowFireTimer := state.tower.arrowFireTimer - dt);
    if state.tower.arrowFireTimer <= 0.0 {
      var target := FindNearestEnemy(state.tower.position, aliveEnemies);
      if target.Some? {
        var e := aliveEnemies[target.value];
        var proj := FireProjectile(world, ids, e.body.position, e.body.velocity, Arrow, None, m);
        state.projectiles := state.projectiles + [proj];
        fired := [proj];
      }
      state.tower := state.tower.(arrowFireTimer := 1.0 / state.tower.arrowFireRate);
    }
  }
}
