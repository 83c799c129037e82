/**
 * The wave director: a reprieve between waves, then one enemy at a time on a timer that
 * speeds up as the wave progresses, then reprieve again once every enemy of the wave has
 * spawned and none is alive.
 */
module Waves {
  import opened Common
  import opened Geometry
  import opened Config
  import opened State
  import opened Physics
  import opened Random
  import opened EnemyAI

  const ReprieveDuration := 3.0

  /** `Math.floor(5 + n * 3 + n * n * 0.5)`: the number of enemies of wave `n`. */
  function WaveSize(n: int): (r: int)
    ensures r == 5 + 3 * n + (n * n) / 2
  {
    assert n as real * n as real == (n * n) as real;
    HalfFloor(n * n, 5 + 3 * n);
    (5.0 + n as real * 3.0 + n as real * n as real * 0.5).Floor
  }

  /** No wave has a negative size: `5 + 3n + n²/2` is at least `(n + 3)² / 2`. */
  lemma WaveSizeNonNegative(n: int)
    ensures WaveSize(n) >= 0
  {
    var q := (n * n) / 2;
    assert n * n <= 2 * q + 1;
    assert (n + 3) * (n + 3) >= 0;
  }

  /** Adding an integer commutes with the floor of half of `m`. */
  lemma HalfFloor(m: int, k: int)
    ensures (k as real + m as real * 0.5).Floor == k + m / 2
  {
    var q, r := m / 2, m % 2;
    assert m == 2 * q + r && 0 <= r < 2;
    assert k as real + m as real * 0.5 == (k + q) as real + r as real * 0.5;
  }

  /** The wave formula agrees with the WAVE table. */
  lemma WaveSizeMatchesTable(n: int)
    ensures WaveSize(n) == (WAVE.baseEnemies + n as real * WAVE.linearScale + n as real * n as real * WAVE.quadraticScale).Floor
  {
  }

  lemma WaveSizeSamples()
    ensures WaveSize(1) == 8 && WaveSize(5) == 32 && WaveSize(10) == 85 && WaveSize(20) == 265
  {
  }

  /** From wave 0 on, every wave is strictly larger than the one before. */
  lemma {:induction false} WaveSizeIncreasing(m: int, n: int)
    requires 0 <= m < n
    ensures WaveSize(m) < WaveSize(n)
    decreases n - m
  {
    assert (n - 1) * (n - 1) <= n * n;
    if m < n - 1 {
      WaveSizeIncreasing(m, n - 1);
    }
  }

  /** `Math.max(0.3, 1.5 - n * 0.08)`: seconds between spawns in wave `n`. */
  function SpawnInterval(n: int): (r: real)
    ensures r >= 0.3
    ensures n >= 15 ==> r == 0.3
    ensures n <= 15 ==> r == 1.5 - n as real * 0.08
  {
    Max(0.3, 1.5 - n as real * 0.08)
  }

  lemma SpawnIntervalAt100()
    ensures SpawnInterval(100) == 0.3
  {
  }

  /** The first wave uses the WAVE table's interval; later waves never wait longer. */
  lemma SpawnIntervalNonIncreasing(m: int, n: int)
    requires m <= n
    ensures SpawnInterval(n) <= SpawnInterval(m)
  {
  }

  /** The timer after the `spawned`-th of `total` spawns: it shrinks to 40% at the end. */
  function NextSpawnDelay(interval: real, spawned: int, total: int): (r: real)
    requires total != 0
    ensures 0 < spawned <= total && interval > 0.0 ==> 0.4 * interval <= r < interval
  {
    var progress := spawned as real / total as real;
    assert 0 < spawned <= total ==> 0.0 < progress <= 1.0;
    interval * (1.0 - progress * 0.6)
  }

  /** The director's bookkeeping invariant. */
  predicate WaveInv(w: WaveState)
  {
    0 <= w.enemiesSpawned <= w.enemiesTotal
  }

  /** What `startNextWave` makes of a wave record. */
  function NextWave(w: WaveState): (r: WaveState)
    ensures r.number == w.number + 1
    ensures r.enemiesSpawned == 0 && r.enemiesRemaining == 0 && r.spawnTimer == 0.0
    ensures r.enemiesTotal == WaveSize(r.number) && r.spawnInterval == SpawnInterval(r.number)
    ensures r.kills == w.kills && r.inReprieve == w.inReprieve && r.reprieveTimer == w.reprieveTimer
    ensures WaveInv(r)
  {
    var n := w.number + 1;
    WaveSizeNonNegative(n);
    w.(number := n, enemiesSpawned := 0, enemiesTotal := WaveSize(n), spawnTimer := 0.0,
       spawnInterval := SpawnInterval(n), enemiesRemaining := 0)
  }

  /** `startNextWave`. */
  method StartNextWave(state: GameState)
    modifies state`wave
    ensures state.wave == NextWave(old(state.wave))
  {
    state.wave := state.wave.(number := state.wave.number + 1);
    var n := state.wave.number;
    state.wave := state.wave.(enemiesSpawned := 0);
    state.wave := state.wave.(enemiesTotal := (5.0 + n as real * 3.0 + n as real * n as real * 0.5).Floor);
    state.wave := state.wave.(spawnTimer := 0.0);
    state.wave := state.wave.(spawnInterval := Max(0.3, 1.5 - n as real * 0.08));
    state.wave := state.wave.(enemiesRemaining := 0);
  }

  /** The reprieve branch: the timer runs down, and at zero the next wave starts. */
  function ReprieveTick(w: WaveState, dt: real): (r: WaveState)
    requires w.inReprieve
    ensures w.reprieveTimer - dt <= 0.0 ==> !r.inReprieve && r == NextWave(w.(reprieveTimer := w.reprieveTimer - dt, inReprieve := false))
    ensures w.reprieveTimer - dt > 0.0 ==> r == w.(reprieveTimer := w.reprieveTimer - dt)
    ensures r.enemiesSpawned == 0 || r.enemiesSpawned == w.enemiesSpawned
  {
    var t := w.reprieveTimer - dt;
    if t <= 0.0 then NextWave(w.(reprieveTimer := t, inReprieve := false)) else w.(reprieveTimer := t)
  }

  /** Whether this tick spawns: enemies remain to spawn and the spawn timer ran out. */
  predicate SpawnDue(w: WaveState, dt: real)
  {
    w.enemiesSpawned < w.enemiesTotal && w.spawnTimer - dt <= 0.0
  }

  /** The spawn branch's effect on the wave record. */
  function SpawnTick(w: WaveState, dt: real): (r: WaveState)
    requires WaveInv(w)
    ensures WaveInv(r)
    ensures SpawnDue(w, dt) ==>
      && r.enemiesSpawned == w.enemiesSpawned + 1 && r.enemiesRemaining == w.enemiesRemaining + 1
      && r.spawnTimer == NextSpawnDelay(w.spawnInterval, r.enemiesSpawned, w.enemiesTotal)
      && r == w.(enemiesSpawned := r.enemiesSpawned, enemiesRemaining := r.enemiesRemaining, spawnTimer := r.spawnTimer)
    ensures !SpawnDue(w, dt) && w.enemiesSpawned < w.enemiesTotal ==> r == w.(spawnTimer := w.spawnTimer - dt)
    ensures w.enemiesSpawned >= w.enemiesTotal ==> r == w
  {
    if w.enemiesSpawned < w.enemiesTotal then
      var t := w.spawnTimer - dt;
      if t <= 0.0 then
        var spawned := w.enemiesSpawned + 1;
        w.(enemiesSpawned := spawned, enemiesRemaining := w.enemiesRemaining + 1,
           spawnTimer := NextSpawnDelay(w.spawnInterval, spawned, w.enemiesTotal))
      else w.(spawnTimer := t)
    else w
  }

  /** The completion check: everything spawned and nothing alive starts a reprieve of 3 s. */
  function CompletionCheck(w: WaveState, es: seq<Enemy>): (r: WaveState)
    ensures w.enemiesSpawned >= w.enemiesTotal && FilterAlive(es) == [] ==>
      r == w.(inReprieve := true, reprieveTimer := ReprieveDuration)
    ensures !(w.enemiesSpawned >= w.enemiesTotal && FilterAlive(es) == []) ==> r == w
  {
    if w.enemiesSpawned >= w.enemiesTotal && |FilterAlive(es)| == 0 then
      w.(inReprieve := true, reprieveTimer := ReprieveDuration)
    else w
  }

  /** The reprieve branch of `updateWaves`. */
  method ReprievePhase(state: GameState, dt: real)
    requires state.wave.inReprieve
    modifies state`wave
    ensures state.wave == ReprieveTick(old(state.wave), dt)
  {
    state.wave := state.wave.(reprieveTimer := state.wave.reprieveTimer - dt);
    if state.wave.reprieveTimer <= 0.0 {
      state.wave := state.wave.(inReprieve := false);
      StartNextWave(state);
    }
  }

  /** The spawn branch of `updateWaves`. */
  method SpawnPhase(state: GameState, world: World, rng: Rng, ids: IdAllocator, math: MathLib, dt: real)
    requires rng.Valid() && ids.Valid() && ValidMath(math) && WaveInv(state.wave)
    modifies state`wave, state`enemies, world, rng, ids
    ensures ids.Valid() && state.wave == SpawnTick(old(state.wave), dt)
    ensures SpawnDue(old(state.wave), dt) ==>
      && |state.enemies| == |old(state.enemies)| + 1
      && state.enemies[..|old(state.enemies)|] == old(state.enemies)
      && var e := state.enemies[|old(state.enemies)|];
         e.alive && e.hp == e.maxHp == SpawnHp(old(state.wave.number)) && e.id !in old(ids.issued)
         && world.calls == old(world.calls) + [Added(e.id)]
    ensures !SpawnDue(old(state.wave), dt) ==> state.enemies == old(state.enemies) && world.calls == old(world.calls)
  {
    var w := state.wave;
    if w.enemiesSpawned < w.enemiesTotal {
      w := w.(spawnTimer := w.spawnTimer - dt);
      if w.spawnTimer <= 0.0 {
        var enemy := SpawnEnemy(w.number, world, rng, ids, math);
        state.enemies := state.enemies + [enemy];
        w := w.(enemiesSpawned := w.enemiesSpawned + 1);
        w := w.(enemiesRemaining := w.enemiesRemaining + 1);
        var progress := w.enemiesSpawned as real / w.enemiesTotal as real;
        w := w.(spawnTimer := w.spawnInterval * (1.0 - progress * 0.6));
      }
    }
    state.wave := w;
  }

  /** `updateWaves`. */
  method UpdateWaves(state: GameState, world: World, rng: Rng, ids: IdAllocator, math: MathLib, dt: real)
    requires rng.Valid() && ids.Valid() && ValidMath(math) && WaveInv(state.wave)
    modifies state`wave, state`enemies, world, rng, ids
    ensures ids.Valid() && WaveInv(state.wave)
    ensures old(state.tower.hp) <= 0.0 ==>
      && state.wave == old(state.wave) && state.enemies == old(state.enemies)
      && world.calls == old(world.calls) && rng.drawn == old(rng.drawn) && ids.nextId == old(ids.nextId)
    ensures old(state.tower.hp) > 0.0 && old(state.wave.inReprieve) ==>
      && state.wave == ReprieveTick(old(state.wave), dt)
      && state.enemies == old(state.enemies) && world.calls == old(world.calls)
    ensures old(state.tower.hp) > 0.0 && !old(state.wave.inReprieve) ==>
      && state.wave == CompletionCheck(SpawnTick(old(state.wave), dt), state.enemies)
      && (SpawnDue(old(state.wave), dt) ==>
           && |state.enemies| == |old(state.enemies)| + 1
           && state.enemies[..|old(state.enemies)|] == old(state.enemies)
           && var e := state.enemies[|old(state.enemies)|];
              e.alive && e.hp == e.maxHp == SpawnHp(old(state.wave.number)) && e.id !in old(ids.issued)
              && world.calls == old(world.calls) + [Added(e.id)])
      && (!SpawnDue(old(state.wave), dt) ==> state.enemies == old(state.enemies) && world.calls == old(world.calls))
  {
    if state.tower.hp <= 0.0 {
      return;
    }
    if state.wave.inReprieve {
      ReprievePhase(state, dt);
      return;
    }
    SpawnPhase(state, world, rng, ids, math, dt);
    var aliveEnemies := |FilterAlive(state.enemies)|;
    if state.wave.enemiesSpawned >= state.wave.enemiesTotal && aliveEnemies == 0 {
      state.wave := state.wave.(inReprieve := true);
      state.wave := state.wave.(reprieveTimer := ReprieveDuration);
    }
  }

  /** At most one enemy joins per call. */
  lemma AtMostOneSpawn(w: WaveState, dt: real)
    requires WaveInv(w)
    ensures SpawnTick(w, dt).enemiesSpawned <= w.enemiesSpawned + 1
  {
  }
}
