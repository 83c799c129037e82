/**
 * The records of the newer simulation and the mutable game state that every system updates.
 * Entities are values held in the state's sequences; where the source keeps a reference to an
 * entity, the model keeps its index into `GameState.enemies` (or its id, where the source
 * does).
 */
module State {
  import opened Common
  import opened Geometry

  datatype ProjectileType = Fireball | Arrow | Arcane

  /** The debug switches of the four attacks. */
  datatype AttackToggles = AttackToggles(fireball: bool, arrow: bool, arcane: bool, lightning: bool)

  datatype Tower = Tower(
    hp: real,
    maxHp: real,
    position: Vec3,
    fireRate: real,
    fireTimer: real,
    damage: real,
    projectileSpeed: real,
    arrowFireRate: real,
    arrowFireTimer: real,
    arrowDamage: real,
    arrowSpeed: real,
    arcaneFireRate: real,
    arcaneFireTimer: real,
    arcaneDamage: real,
    arcaneSpeed: real,
    lightningFireRate: real,
    lightningFireTimer: real,
    lightningDamage: real,
    lightningChains: int,
    lightningChainRange: real,
    lightningStunDuration: real,
    attackToggles: AttackToggles)

  /** A walker enemy. `stunTimer` counts down the seconds of a lightning stun. */
  datatype Enemy = Enemy(
    id: int,
    body: Body,
    hp: real,
    maxHp: real,
    speed: real,
    damage: real,
    alive: bool,
    stunTimer: real,
    legPhase: real)

  /** A fading lightning arc: tower top, then each chained enemy's position. */
  datatype LightningArc = LightningArc(points: seq<Vec3>, age: real, maxAge: real)

  datatype Projectile = Projectile(
    id: int,
    body: Body,
    alive: bool,
    damage: real,
    knockback: real,
    age: real,
    maxAge: real,
    kind: ProjectileType,
    splashRadius: real,
    splashForce: real,
    targetId: Option<int>)

  datatype WaveState = WaveState(
    number: int,
    enemiesRemaining: int,
    enemiesSpawned: int,
    enemiesTotal: int,
    spawnTimer: real,
    spawnInterval: real,
    reprieveTimer: real,
    inReprieve: bool,
    kills: int)

  datatype AIState = Roaming | Windup | Bonk | Cooldown | Recovery

  /** A melee helper of the tower, driven by a five-state machine. */
  datatype Minion = Minion(
    id: int,
    body: Body,
    aiState: AIState,
    stateTimer: real,
    targetId: Option<int>,
    legPhase: real)

  /** `enemies.filter((e) => e.alive)`. */
  function FilterAlive(es: seq<Enemy>): (r: seq<Enemy>)
    ensures |r| <= |es|
    ensures forall e :: e in r <==> e in es && e.alive
  {
    if es == [] then []
    else FilterAlive(es[..|es| - 1]) + (if es[|es| - 1].alive then [es[|es| - 1]] else [])
  }

  /** The filter keeps order: filtering a concatenation filters each part. */
  lemma {:induction false} FilterAliveAppend(a: seq<Enemy>, b: seq<Enemy>)
    ensures FilterAlive(a + b) == FilterAlive(a) + FilterAlive(b)
    decreases |b|
  {
    if b == [] {
      assert a + b == a;
    } else {
      assert (a + b)[..|a + b| - 1] == a + b[..|b| - 1];
      FilterAliveAppend(a, b[..|b| - 1]);
    }
  }

  /** The filtered list is empty exactly when no enemy is alive. */
  lemma FilterAliveEmpty(es: seq<Enemy>)
    ensures FilterAlive(es) == [] <==> forall i :: 0 <= i < |es| ==> !es[i].alive
  {
    if FilterAlive(es) == [] {
      forall i | 0 <= i < |es|
        ensures !es[i].alive
      {
        assert es[i] in es;
      }
    } else {
      assert FilterAlive(es)[0] in FilterAlive(es);
    }
  }

  /** Squared horizontal distance from each enemy to `pos`, in list order: the key view `IsFirstMin` ranks. */
  function HorizKeys(es: seq<Enemy>, pos: Vec3): (r: seq<real>)
    ensures |r| == |es| && forall i :: 0 <= i < |es| ==> r[i] == HorizDistSq(es[i].body.position, pos)
  {
    seq(|es|, i requires 0 <= i < |es| => HorizDistSq(es[i].body.position, pos))
  }

  /** Whether each enemy is alive, in list order: the eligibility view the selections filter on. */
  function AliveFlags(es: seq<Enemy>): (r: seq<bool>)
    ensures |r| == |es| && forall i :: 0 <= i < |es| ==> r[i] == es[i].alive
  {
    seq(|es|, i requires 0 <= i < |es| => es[i].alive)
  }

  /** No enemy comes back to life between `a` and `b`. */
  predicate NoRevival(a: seq<Enemy>, b: seq<Enemy>)
  {
    |a| == |b| && forall i :: 0 <= i < |a| ==> b[i].alive ==> a[i].alive
  }

  /** How many enemies are alive in `a` and dead at the same index in `b`. */
  function Deaths(a: seq<Enemy>, b: seq<Enemy>): nat
    requires |a| == |b|
  {
    if a == [] then 0
    else Deaths(a[..|a| - 1], b[..|b| - 1]) + (if a[|a| - 1].alive && !b[|b| - 1].alive then 1 else 0)
  }

  /** Deaths add up over successive updates that revive nobody. */
  lemma {:induction false} DeathsTrans(a: seq<Enemy>, b: seq<Enemy>, c: seq<Enemy>)
    requires NoRevival(a, b) && NoRevival(b, c)
    ensures Deaths(a, c) == Deaths(a, b) + Deaths(b, c)
  {
    if a != [] {
      var n := |a| - 1;
      DeathsTrans(a[..n], b[..n], c[..n]);
    }
  }

  /** Nobody dies when nothing changes. */
  lemma {:induction false} DeathsNone(a: seq<Enemy>)
    ensures Deaths(a, a) == 0
  {
    if a != [] {
      DeathsNone(a[..|a| - 1]);
    }
  }

  /** Changing one index counts only that index's death. */
  lemma {:induction false} DeathsUpdate(a: seq<Enemy>, i: nat, e: Enemy)
    requires i < |a|
    ensures Deaths(a, a[i := e]) == if a[i].alive && !e.alive then 1 else 0
  {
    var n := |a| - 1;
    if i < n {
      assert a[i := e][..n] == a[..n][i := e];
      DeathsUpdate(a[..n], i, e);
    } else {
      assert a[i := e][..n] == a[..n];
      DeathsNone(a[..n]);
    }
  }

  /** Deaths among the first `n + 1` indices, from those among the first `n`. */
  lemma DeathsPrefixStep(a: seq<Enemy>, b: seq<Enemy>, n: nat)
    requires |a| == |b| && n < |a|
    ensures Deaths(a[..n + 1], b[..n + 1]) == Deaths(a[..n], b[..n]) + (if a[n].alive && !b[n].alive then 1 else 0)
  {
    assert a[..n + 1][..n] == a[..n] && b[..n + 1][..n] == b[..n];
  }

  /** Every death is a live enemy lost: the deaths never exceed the live count. */
  lemma {:induction false} DeathsAtMostAlive(a: seq<Enemy>, b: seq<Enemy>)
    requires |a| == |b|
    ensures Deaths(a, b) <= |FilterAlive(a)|
  {
    if a != [] {
      DeathsAtMostAlive(a[..|a| - 1], b[..|b| - 1]);
    }
  }

  /** The module-level id counter: ids start at 1 and every call hands out the next one. */
  class IdAllocator {
    var nextId: int
    /** Every id handed out so far. */
    ghost var issued: set<int>

    ghost predicate Valid()
      reads this
    {
      forall i :: i in issued ==> i < nextId
    }

    constructor ()
      ensures Valid() && nextId == 1 && issued == {}
    {
      nextId := 1;
      issued := {};
    }

    /** `nextEntityId`: the result exceeds every id handed out before, so it is new. */
    method Next() returns (id: int)
      requires Valid()
      modifies this
      ensures Valid()
      ensures id == old(nextId) && nextId == id + 1
      ensures forall j :: j in old(issued) ==> j < id
      ensures id !in old(issued) && issued == old(issued) + {id}
    {
      id := nextId;
      nextId := nextId + 1;
      issued := issued + {id};
    }
  }

  /** The tower record `createInitialState` builds. */
  function InitialTower(): (t: Tower)
    ensures t.hp == t.maxHp == 10.0
    ensures t.position == Origin
    ensures t.attackToggles == AttackToggles(true, true, true, true)
    ensures t.fireRate > 0.0 && t.arrowFireRate > 0.0
    ensures t.arcaneFireRate > 0.0 && t.lightningFireRate > 0.0
  {
    Tower(
      10.0, 10.0, Origin,
      1.0, 0.0, 2.5, 20.0,
      2.5, 0.3, 1.0, 45.0,
      0.8, 0.6, 1.8, 12.0,
      0.6, 0.9, 0.8, 3, 8.0, 0.4,
      AttackToggles(true, true, true, true))
  }

  /** The wave record `createInitialState` builds: wave 1 of 5 enemies, nothing spawned yet. */
  function InitialWave(): (w: WaveState)
    ensures w.number == 1 && w.kills == 0 && !w.inReprieve
    ensures w.enemiesSpawned == 0 && w.enemiesTotal == 5
    ensures 0 <= w.enemiesSpawned <= w.enemiesTotal
  {
    WaveState(1, 0, 0, 5, 0.0, 1.5, 0.0, false, 0)
  }

  class GameState {
    var tower: Tower
    var enemies: seq<Enemy>
    var projectiles: seq<Projectile>
    var lightningArcs: seq<LightningArc>
    var minions: seq<Minion>
    var wave: WaveState
    var time: real
    var deltaTime: real

    /** `createInitialState`. */
    constructor ()
      ensures tower == InitialTower() && wave == InitialWave()
      ensures enemies == [] && projectiles == [] && lightningArcs == [] && minions == []
      ensures time == 0.0 && deltaTime == 0.0
    {
      tower := InitialTower();
      enemies := [];
      projectiles := [];
      lightningArcs := [];
      minions := [];
      wave := InitialWave();
      time := 0.0;
      deltaTime := 0.0;
    }
  }

  /**
   * Two calls of `createInitialState` build two distinct state objects with equal fields;
   * every sub-record is a value, so the two share nothing that could be mutated through
   * the other.
   */
  method CreateTwice() returns (a: GameState, b: GameState)
    ensures fresh(a) && fresh(b) && a != b
    ensures a.tower == b.tower && a.wave == b.wave
    ensures a.enemies == b.enemies && a.projectiles == b.projectiles
    ensures a.lightningArcs == b.lightningArcs && a.minions == b.minions
    ensures a.time == b.time && a.deltaTime == b.deltaTime
  {
    a := new GameState();
    b := new GameState();
  }
}
