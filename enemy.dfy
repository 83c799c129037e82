/**
 * Walker enemies of the newer simulation: how one is spawned on the spawn ring, and how
 * `updateEnemies` walks every live enemy toward the tower or lets it hit the tower.
 * The walking force and the facing rotation are handed to the physics engine and are not
 * modelled; the engine applies forces only when it steps, so the speed cap below acts on
 * the velocity the body already has.
 */
module EnemyAI {
  import opened Common
  import opened Geometry
  import opened Config
  import opened State
  import opened Physics
  import opened Random

  /** Radius of the spawn ring around the tower. */
  const SpawnRadius := 45.0
  /** Horizontal distance below which an enemy is at the tower. */
  const ContactRange := 2.5

  /** Hit points of an enemy spawned during wave `n`: 3 scaled by 15% per wave after the first. */
  function SpawnHp(n: int): (r: real)
    ensures r == ENEMY.baseHp * (1.0 + (n - 1) as real * ENEMY.hpScalePerWave)
  {
    3.0 * (1.0 + (n - 1) as real * 0.15)
  }

  /** Later waves spawn strictly tougher enemies. */
  lemma SpawnHpIncreasing(m: int, n: int)
    requires m < n
    ensures SpawnHp(m) < SpawnHp(n)
  {
  }

  lemma SpawnHpAtLeastBase(n: int)
    requires n >= 1
    ensures SpawnHp(n) >= ENEMY.baseHp
  {
  }

  /**
   * `spawnEnemy`: three draws, in order, for the ring angle, the speed and the leg phase;
   * one body added to the world; one fresh id.
   */
  method SpawnEnemy(waveNumber: int, world: World, rng: Rng, ids: IdAllocator, math: MathLib)
    returns (e: Enemy)
    requires rng.Valid() && ids.Valid() && ValidMath(math)
    modifies world, rng, ids
    ensures ids.Valid() && rng.drawn == old(rng.drawn) + 3
    ensures e.id == old(ids.nextId) && e.id !in old(ids.issued) && ids.issued == old(ids.issued) + {e.id}
    ensures e.alive && e.hp == e.maxHp == SpawnHp(waveNumber)
    ensures ENEMY.speedMin <= e.speed < ENEMY.speedMax
    ensures e.speed == 3.0 + rng.stream(old(rng.drawn) + 1) * 1.5
    ensures e.damage == 1.0 && e.stunTimer == 0.0
    ensures e.legPhase == rng.stream(old(rng.drawn) + 2) * Pi * 2.0
    ensures
      var angle := rng.stream(old(rng.drawn)) * Pi * 2.0;
      e.body == Body(Vec3(math.cos(angle) * SpawnRadius, 1.2, math.sin(angle) * SpawnRadius), Origin, 5.0)
    ensures world.calls == old(world.calls) + [Added(e.id)]
  {
    var a := rng.Next();
    var angle := a * Pi * 2.0;
    var body := Body(Vec3(math.cos(angle) * SpawnRadius, 1.2, math.sin(angle) * SpawnRadius), Origin, 5.0);
    var waveScale := 1.0 + (waveNumber - 1) as real * 0.15;
    var id := ids.Next();
    world.AddBody(id);
    var s := rng.Next();
    var leg := rng.Next();
    e := Enemy(id, body, 3.0 * waveScale, 3.0 * waveScale, 3.0 + s * 1.5, 1.0, true, 0.0, leg * Pi * 2.0);
  }

  /** `dist < 2.5`, with `dist` the horizontal distance from the tower. */
  predicate AtTower(e: Enemy, towerPos: Vec3, sqrt: real -> real)
  {
    sqrt(HorizDistSq(towerPos, e.body.position)) < ContactRange
  }

  /** Contact is decided by the squared distance alone. */
  lemma AtTowerIffClose(e: Enemy, towerPos: Vec3, sqrt: real -> real)
    requires IsSqrt(sqrt)
    ensures AtTower(e, towerPos, sqrt) <==> HorizDistSq(towerPos, e.body.position) < 6.25
  {
    SqrtBelow(sqrt, HorizDistSq(towerPos, e.body.position), ContactRange);
  }

  /**
   * One enemy's turn in `updateEnemies`: a dead enemy is skipped; an enemy at the tower is
   * pushed back at half its offset; any other enemy has its horizontal speed capped at its
   * own speed and its leg phase advanced.
   */
  function StepEnemy(e: Enemy, towerPos: Vec3, dt: real, sqrt: real -> real): (r: Enemy)
    requires IsSqrt(sqrt) && e.speed >= 0.0
    ensures r == e.(body := e.body.(velocity := r.body.velocity), legPhase := r.legPhase)
    ensures r.body.velocity.y == e.body.velocity.y
    ensures !e.alive ==> r == e
    ensures e.alive && AtTower(e, towerPos, sqrt) ==>
      && r.legPhase == e.legPhase
      && r.body.velocity.x == -(towerPos.x - e.body.position.x) * 0.5
      && r.body.velocity.z == -(towerPos.z - e.body.position.z) * 0.5
    ensures e.alive && !AtTower(e, towerPos, sqrt) ==>
      && r.legPhase == e.legPhase + dt * e.speed * 2.5
      && HorizSpeedSq(r.body.velocity) <= e.speed * e.speed
      && (HorizSpeedSq(e.body.velocity) <= e.speed * e.speed ==> r.body.velocity == e.body.velocity)
  {
    if !e.alive then e
    else
      var pos := e.body.position;
      var dx := towerPos.x - pos.x;
      var dz := towerPos.z - pos.z;
      if AtTower(e, towerPos, sqrt) then
        e.(body := e.body.(velocity := Vec3(-dx * 0.5, e.body.velocity.y, -dz * 0.5)))
      else
        e.(body := e.body.(velocity := CapHorizontalSpeed(e.body.velocity, e.speed, sqrt)),
           legPhase := e.legPhase + dt * e.speed * 2.5)
  }

  /** What one enemy takes off the tower in one tick. */
  function ContactHit(e: Enemy, towerPos: Vec3, dt: real, sqrt: real -> real): real
  {
    if e.alive && AtTower(e, towerPos, sqrt) then e.damage * dt else 0.0
  }

  /** The tower damage of a whole sweep: the sum of `damage * dt` over live enemies at the tower. */
  function ContactDamage(es: seq<Enemy>, towerPos: Vec3, dt: real, sqrt: real -> real): real
  {
    if es == [] then 0.0
    else ContactDamage(es[..|es| - 1], towerPos, dt, sqrt) + ContactHit(es[|es| - 1], towerPos, dt, sqrt)
  }

  /** With non-negative damage and time step the sweep never heals the tower. */
  lemma {:induction false} ContactDamageNonNegative(es: seq<Enemy>, towerPos: Vec3, dt: real, sqrt: real -> real)
    requires dt >= 0.0 && forall i :: 0 <= i < |es| ==> es[i].damage >= 0.0
    ensures ContactDamage(es, towerPos, dt, sqrt) >= 0.0
  {
    if es != [] {
      ContactDamageNonNegative(es[..|es| - 1], towerPos, dt, sqrt);
      assert es[|es| - 1].damage * dt >= 0.0;
    }
  }

  /** Only live enemies at the tower contribute. */
  lemma {:induction false} ContactDamageZero(es: seq<Enemy>, towerPos: Vec3, dt: real, sqrt: real -> real)
    requires forall i :: 0 <= i < |es| ==> !(es[i].alive && AtTower(es[i], towerPos, sqrt))
    ensures ContactDamage(es, towerPos, dt, sqrt) == 0.0
  {
    if es != [] {
      ContactDamageZero(es[..|es| - 1], towerPos, dt, sqrt);
    }
  }

  /** Walker speeds are never negative: `spawnEnemy` draws them from [3, 4.5). */
  predicate SpeedsNonNegative(es: seq<Enemy>)
  {
    forall i :: 0 <= i < |es| ==> es[i].speed >= 0.0
  }

  /** The body of the `updateEnemies` loop for one enemy: its new record and the tower damage it deals. */
  method TickEnemy(e: Enemy, towerPos: Vec3, dt: real, sqrt: real -> real) returns (r: Enemy, hit: real)
    requires IsSqrt(sqrt) && e.speed >= 0.0
    ensures r == StepEnemy(e, towerPos, dt, sqrt) && hit == ContactHit(e, towerPos, dt, sqrt)
  {
    r, hit := e, 0.0;
    if !e.alive {
      return;
    }
    var pos := e.body.position;
    var dx := towerPos.x - pos.x;
    var dz := towerPos.z - pos.z;
    assert dx * dx + dz * dz == HorizDistSq(towerPos, pos);
    var dist := sqrt(dx * dx + dz * dz);
    if dist < ContactRange {
      hit := e.damage * dt;
      r := e.(body := e.body.(velocity := Vec3(-dx * 0.5, e.body.velocity.y, -dz * 0.5)));
      return;
    }
    var v := CapHorizontalSpeed(e.body.velocity, e.speed, sqrt);
    r := e.(body := e.body.(velocity := v), legPhase := e.legPhase + dt * e.speed * 2.5);
  }

  /** `updateEnemies`. */
  method UpdateEnemies(state: GameState, dt: real, sqrt: real -> real)
    requires IsSqrt(sqrt) && SpeedsNonNegative(state.enemies)
    modifies state`tower, state`enemies
    ensures |state.enemies| == |old(state.enemies)|
    ensures forall i :: 0 <= i < |state.enemies| ==>
      state.enemies[i] == StepEnemy(old(state.enemies[i]), old(state.tower.position), dt, sqrt)
    ensures state.tower == old(state.tower).(hp := old(state.tower.hp)
      - ContactDamage(old(state.enemies), old(state.tower.position), dt, sqrt))
  {
    var towerPos := state.tower.position;
    ghost var es0 := state.enemies;
    var i := 0;
    while i < |state.enemies|
      invariant 0 <= i <= |state.enemies| == |es0|
      invariant state.tower == old(state.tower).(hp := old(state.tower.hp) - ContactDamage(es0[..i], towerPos, dt, sqrt))
      invariant forall j :: 0 <= j < i ==> state.enemies[j] == StepEnemy(es0[j], towerPos, dt, sqrt)
      invariant forall j :: i <= j < |es0| ==> state.enemies[j] == es0[j]
    {
      var e := state.enemies[i];
      assert es0[..i + 1][..i] == es0[..i] && es0[..i + 1][i] == e;
      var r, hit := TickEnemy(e, towerPos, dt, sqrt);
      state.tower := state.tower.(hp := state.tower.hp - hit);
      state.enemies := state.enemies[i := r];
      i := i + 1;
    }
    assert es0[..i] == es0;
  }

  /** The tower never gains hit points from `updateEnemies`. */
  lemma UpdateEnemiesNeverHeals(es: seq<Enemy>, towerPos: Vec3, hp: real, dt: real, sqrt: real -> real)
    requires dt >= 0.0 && forall i :: 0 <= i < |es| ==> es[i].damage >= 0.0
    ensures hp - ContactDamage(es, towerPos, dt, sqrt) <= hp
  {
    ContactDamageNonNegative(es, towerPos, dt, sqrt);
  }
}
