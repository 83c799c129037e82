/**
 * The tower's melee minions: a five-state machine (roaming, windup, bonk, cooldown, recovery)
 * run once per tick for every minion, in list order. Roaming targets come from a snapshot of
 * the live enemies taken before the loop; windup and bonk look their target up by id in the
 * current enemy list, so a kill by one minion is seen by the next. Walking forces, facing
 * rotations and the bonk push are handed to the physics engine and are not modelled.
 */
module Minions {
  import opened Common
  import opened Geometry
  import opened Config
  import opened State
  import opened Physics
  import opened Random
  import opened Selection
  import opened Queries
  import Damage

  /** `spawnMinion`: two draws (ring angle, then leg phase), one body, one fresh id. */
  method SpawnMinion(world: World, rng: Rng, ids: IdAllocator, math: MathLib) returns (m: Minion)
    requires rng.Valid() && ids.Valid()
    modifies world, rng, ids
    ensures ids.Valid() && rng.drawn == old(rng.drawn) + 2
    ensures m.id == old(ids.nextId) && m.id !in old(ids.issued) && ids.issued == old(ids.issued) + {m.id}
    ensures m.aiState == Roaming && m.stateTimer == 0.0 && m.targetId == None
    ensures m.legPhase == rng.stream(old(rng.drawn) + 1) * Pi * 2.0
    ensures
      var angle := rng.stream(old(rng.drawn)) * Pi * 2.0;
      m.body == Body(Vec3(math.cos(angle) * MINION.spawnRadius, 0.5, math.sin(angle) * MINION.spawnRadius), Origin, MINION.mass)
    ensures world.calls == old(world.calls) + [Added(m.id)]
  {
    var a := rng.Next();
    var angle := a * Pi * 2.0;
    var body := Body(Vec3(math.cos(angle) * 4.0, 0.5, math.sin(angle) * 4.0), Origin, 1.5);
    var id := ids.Next();
    world.AddBody(id);
    var leg := rng.Next();
    m := Minion(id, body, Roaming, 0.0, None, leg * Pi * 2.0);
  }

  /** `despawnMinion`: the minion's body leaves the world. */
  method DespawnMinion(m: Minion, world: World)
    modifies world
    ensures world.calls == old(world.calls) + [Removed(m.id)]
  {
    world.RemoveBody(m.id);
  }

  /** Targets exist exactly in windup and bonk. */
  predicate TargetInv(m: Minion)
  {
    m.targetId.Some? <==> m.aiState == Windup || m.aiState == Bonk
  }

  /** A minion is flung when its speed exceeds the fling threshold of 8. */
  predicate Flung(m: Minion, sqrt: real -> real)
  {
    sqrt(SpeedSq(m.body.velocity)) > MINION.flingThreshold
  }

  /** The fling test is a test on the squared speed. */
  lemma FlungIff(m: Minion, sqrt: real -> real)
    requires IsSqrt(sqrt)
    ensures Flung(m, sqrt) <==> SpeedSq(m.body.velocity) > 64.0
  {
    var s := sqrt(SpeedSq(m.body.velocity));
    if s > 8.0 {
      MulStrict(8.0, s);
    } else {
      MulMono(s, 8.0);
    }
  }

  /**
   * `moveToward`: nothing within 0.1 of the target; otherwise the horizontal speed is capped
   * at the minion speed and the legs advance by `dt * speed * 3`.
   */
  function MoveToward(m: Minion, target: Vec3, dt: real, sqrt: real -> real): (r: Minion)
    requires IsSqrt(sqrt)
    ensures r == m.(body := m.body.(velocity := r.body.velocity), legPhase := r.legPhase)
    ensures r.body.velocity.y == m.body.velocity.y
    ensures HorizDistSq(target, m.body.position) < 0.01 ==> r == m
    ensures HorizDistSq(target, m.body.position) >= 0.01 ==>
      && r.legPhase == m.legPhase + dt * MINION.speed * 3.0
      && HorizSpeedSq(r.body.velocity) <= MINION.speed * MINION.speed
      && (HorizSpeedSq(m.body.velocity) <= MINION.speed * MINION.speed ==> r.body.velocity == m.body.velocity)
  {
    SqrtBelow(sqrt, HorizDistSq(target, m.body.position), 0.1);
    if sqrt(HorizDistSq(target, m.body.position)) < 0.1 then m
    else m.(body := m.body.(velocity := CapHorizontalSpeed(m.body.velocity, 5.0, sqrt)),
            legPhase := m.legPhase + dt * 5.0 * 3.0)
  }

  /**
   * `updateRoaming` against the snapshot of live enemies: idle with no enemy; wind up on the
   * nearest one when it is within attack range; otherwise walk toward it.
   */
  function RoamingStep(m: Minion, snapshot: seq<Enemy>, dt: real, sqrt: real -> real): (r: Minion)
    requires IsSqrt(sqrt)
    ensures snapshot == [] ==> r == m
    ensures Nearest(snapshot, m.body.position).Some? ==>
      var t := snapshot[Nearest(snapshot, m.body.position).value];
      if HorizDistSq(t.body.position, m.body.position) < MINION.attackRange * MINION.attackRange
      then r == m.(aiState := Windup, stateTimer := MINION.windupTime, targetId := Some(t.id))
      else r == MoveToward(m, t.body.position, dt, sqrt)
  {
    match Nearest(snapshot, m.body.position)
    case None => m
    case Some(k) =>
      var t := snapshot[k];
      SqrtBelow(sqrt, HorizDistSq(t.body.position, m.body.position), 1.8);
      if sqrt(HorizDistSq(t.body.position, m.body.position)) < 1.8 then
        m.(aiState := Windup, stateTimer := 0.4, targetId := Some(t.id))
      else
        MoveToward(m, t.body.position, dt, sqrt)
  }

  /**
   * `updateWindup`: the timer runs down; without a live target the minion goes back to
   * roaming and forgets the target; with one, it bonks once the timer reaches zero.
   */
  function WindupStep(m: Minion, es: seq<Enemy>, dt: real): (r: Minion)
    requires m.aiState == Windup
    ensures r.stateTimer == (if r.aiState == Bonk then 0.1 else m.stateTimer - dt)
    ensures FindLive(es, m.targetId, 0).None? ==>
      r == m.(aiState := Roaming, stateTimer := m.stateTimer - dt, targetId := None)
    ensures FindLive(es, m.targetId, 0).Some? ==>
      && r.targetId == m.targetId && r.body == m.body && r.legPhase == m.legPhase
      && (r.aiState == Bonk <==> m.stateTimer - dt <= 0.0)
      && (r.aiState != Bonk ==> r == m.(stateTimer := m.stateTimer - dt))
  {
    var timer := m.stateTimer - dt;
    if FindLive(es, m.targetId, 0).None? then m.(aiState := Roaming, stateTimer := timer, targetId := None)
    else if timer <= 0.0 then m.(aiState := Bonk, stateTimer := 0.1)
    else m.(stateTimer := timer)
  }

  /** What one minion's turn does: its new record, the enemy list after it, and the kills it adds. */
  datatype Turn = Turn(minion: Minion, enemies: seq<Enemy>, kills: nat)

  /**
   * `updateBonk`: a live target loses exactly the minion damage and is killed when that takes
   * it to zero; whatever happened, the minion cools down and forgets its target.
   */
  function BonkStep(m: Minion, es: seq<Enemy>): (t: Turn)
    ensures t.minion == m.(aiState := Cooldown, stateTimer := MINION.cooldownTime, targetId := None)
    ensures |t.enemies| == |es| && NoRevival(es, t.enemies) && t.kills == Deaths(es, t.enemies) <= 1
    ensures FindLive(es, m.targetId, 0).None? ==> t.enemies == es
    ensures FindLive(es, m.targetId, 0).Some? ==>
      var j := FindLive(es, m.targetId, 0).value;
      var hp := es[j].hp - MINION.damage;
      t.enemies == es[j := es[j].(hp := hp, alive := hp > 0.0)]
  {
    var cooled := m.(aiState := Cooldown, stateTimer := 0.6, targetId := None);
    match FindLive(es, m.targetId, 0)
    case None =>
      DeathsNone(es);
      Turn(cooled, es, 0)
    case Some(j) =>
      var hp := es[j].hp - 1.5;
      if hp <= 0.0 && es[j].alive then
        DeathsUpdate(es, j, es[j].(hp := hp, alive := false));
        Turn(cooled, es[j := es[j].(hp := hp, alive := false)], 1)
      else
        DeathsUpdate(es, j, es[j].(hp := hp));
        Turn(cooled, es[j := es[j].(hp := hp)], 0)
  }

  /** `updateCooldown`: back to roaming exactly when the timer runs out. */
  function CooldownStep(m: Minion, dt: real): (r: Minion)
    ensures r.stateTimer == m.stateTimer - dt
    ensures r.aiState == (if m.stateTimer - dt <= 0.0 then Roaming else m.aiState)
    ensures r == m.(aiState := r.aiState, stateTimer := r.stateTimer)
  {
    var timer := m.stateTimer - dt;
    if timer <= 0.0 then m.(aiState := Roaming, stateTimer := timer) else m.(stateTimer := timer)
  }

  /** `updateRecovery`: horizontal velocity damped by 5%, back to roaming when the timer runs out. */
  function RecoveryStep(m: Minion, dt: real): (r: Minion)
    ensures r.stateTimer == m.stateTimer - dt
    ensures r.aiState == (if m.stateTimer - dt <= 0.0 then Roaming else m.aiState)
    ensures r.body.velocity == Vec3(m.body.velocity.x * 0.95, m.body.velocity.y, m.body.velocity.z * 0.95)
    ensures HorizSpeedSq(r.body.velocity) <= HorizSpeedSq(m.body.velocity)
    ensures r == m.(aiState := r.aiState, stateTimer := r.stateTimer, body := m.body.(velocity := r.body.velocity))
  {
    var v := m.body.velocity;
    var damped := m.body.(velocity := Vec3(v.x * 0.95, v.y, v.z * 0.95));
    var timer := m.stateTimer - dt;
    assert (v.x * 0.95) * (v.x * 0.95) == 0.9025 * (v.x * v.x);
    assert (v.z * 0.95) * (v.z * 0.95) == 0.9025 * (v.z * v.z);
    if timer <= 0.0 then m.(aiState := Roaming, stateTimer := timer, body := damped)
    else m.(stateTimer := timer, body := damped)
  }

  /** One minion's turn in `updateMinions`: the fling check first, then its state's update. */
  function StepMinion(m: Minion, snapshot: seq<Enemy>, es: seq<Enemy>, dt: real, sqrt: real -> real): (t: Turn)
    requires IsSqrt(sqrt)
    ensures |t.enemies| == |es| && NoRevival(es, t.enemies) && t.kills == Deaths(es, t.enemies) <= 1
    ensures m.aiState != Recovery && Flung(m, sqrt) ==>
      t == Turn(m.(aiState := Recovery, stateTimer := MINION.recoveryTime, targetId := None), es, 0)
    ensures m.aiState != Bonk ==> t.enemies == es
  {
    DeathsNone(es);
    if m.aiState != Recovery && sqrt(SpeedSq(m.body.velocity)) > 8.0 then
      Turn(m.(aiState := Recovery, stateTimer := 1.2, targetId := None), es, 0)
    else
      match m.aiState
      case Roaming => Turn(RoamingStep(m, snapshot, dt, sqrt), es, 0)
      case Windup => Turn(WindupStep(m, es, dt), es, 0)
      case Bonk => BonkStep(m, es)
      case Cooldown => Turn(CooldownStep(m, dt), es, 0)
      case Recovery => Turn(RecoveryStep(m, dt), es, 0)
  }

  /** Every turn keeps "a target exactly in windup and bonk". */
  lemma StepKeepsTargetInv(m: Minion, snapshot: seq<Enemy>, es: seq<Enemy>, dt: real, sqrt: real -> real)
    requires IsSqrt(sqrt) && TargetInv(m)
    ensures TargetInv(StepMinion(m, snapshot, es, dt, sqrt).minion)
  {
    if !(m.aiState != Recovery && sqrt(SpeedSq(m.body.velocity)) > 8.0) && m.aiState == Roaming {
      var r := RoamingStep(m, snapshot, dt, sqrt);
      if Nearest(snapshot, m.body.position).Some? {
        var t := snapshot[Nearest(snapshot, m.body.position).value];
        if HorizDistSq(t.body.position, m.body.position) >= MINION.attackRange * MINION.attackRange {
          assert r.aiState == m.aiState && r.targetId == m.targetId;
        }
      }
    }
  }

  /** A freshly spawned minion satisfies the invariant. */
  lemma SpawnedTargetInv(m: Minion)
    requires m.aiState == Roaming && m.targetId == None
    ensures TargetInv(m)
  {
  }

  /** Ids are unique in the enemy list (each comes from the id counter). */
  predicate UniqueIds(es: seq<Enemy>)
  {
    forall a, b :: 0 <= a < |es| && 0 <= b < |es| && es[a].id == es[b].id ==> a == b
  }

  /**
   * Two minions bonking the same target in one sweep kill it at most once: after a kill the
   * second lookup finds no live enemy with that id.
   */
  lemma NoDoubleKill(m1: Minion, m2: Minion, es: seq<Enemy>)
    requires m1.targetId == m2.targetId && UniqueIds(es)
    ensures BonkStep(m1, es).kills + BonkStep(m2, BonkStep(m1, es).enemies).kills <= 1
  {
    var t1 := BonkStep(m1, es);
    if t1.kills == 1 {
      var j := FindLive(es, m1.targetId, 0).value;
      assert t1.enemies == es[j := t1.enemies[j]];
    }
  }

  datatype Sweep = Sweep(minions: seq<Minion>, enemies: seq<Enemy>, kills: int)

  /** The minions and enemies after the first `n` minions have taken their turn. */
  function StepFirst(ms: seq<Minion>, snapshot: seq<Enemy>, es: seq<Enemy>, kills: int, n: nat, dt: real, sqrt: real -> real): (s: Sweep)
    requires IsSqrt(sqrt) && n <= |ms|
    ensures |s.minions| == |ms| && |s.enemies| == |es| && NoRevival(es, s.enemies)
    ensures s.kills == kills + Deaths(es, s.enemies)
    ensures forall i :: n <= i < |ms| ==> s.minions[i] == ms[i]
  {
    if n == 0 then
      DeathsNone(es);
      Sweep(ms, es, kills)
    else
      var s := StepFirst(ms, snapshot, es, kills, n - 1, dt, sqrt);
      var t := StepMinion(s.minions[n - 1], snapshot, s.enemies, dt, sqrt);
      DeathsTrans(es, s.enemies, t.enemies);
      Sweep(s.minions[n - 1 := t.minion], t.enemies, s.kills + t.kills)
  }

  /** The sweep after minion `n` has taken its turn, as the loop of `updateMinions` steps. */
  lemma StepNext(ms: seq<Minion>, snapshot: seq<Enemy>, es: seq<Enemy>, kills: int, n: nat, dt: real, sqrt: real -> real)
    requires IsSqrt(sqrt) && n < |ms|
    ensures var s := StepFirst(ms, snapshot, es, kills, n, dt, sqrt);
      var t := StepMinion(s.minions[n], snapshot, s.enemies, dt, sqrt);
      StepFirst(ms, snapshot, es, kills, n + 1, dt, sqrt) == Sweep(s.minions[n := t.minion], t.enemies, s.kills + t.kills)
  {
  }

  /** A whole sweep keeps the target invariant of every minion. */
  lemma {:induction false} StepFirstKeepsTargetInv(ms: seq<Minion>, snapshot: seq<Enemy>, es: seq<Enemy>, kills: int, n: nat, dt: real, sqrt: real -> real)
    requires IsSqrt(sqrt) && n <= |ms| && forall i :: 0 <= i < |ms| ==> TargetInv(ms[i])
    ensures forall i :: 0 <= i < |ms| ==> TargetInv(StepFirst(ms, snapshot, es, kills, n, dt, sqrt).minions[i])
  {
    if n > 0 {
      StepFirstKeepsTargetInv(ms, snapshot, es, kills, n - 1, dt, sqrt);
      var s := StepFirst(ms, snapshot, es, kills, n - 1, dt, sqrt);
      StepKeepsTargetInv(s.minions[n - 1], snapshot, s.enemies, dt, sqrt);
      var t := StepMinion(s.minions[n - 1], snapshot, s.enemies, dt, sqrt);
      assert StepFirst(ms, snapshot, es, kills, n, dt, sqrt).minions == s.minions[n - 1 := t.minion];
    }
  }

  /** `updateRoaming`, in place on a copy of the minion. */
  method UpdateRoaming(m: Minion, snapshot: seq<Enemy>, dt: real, sqrt: real -> real) returns (r: Minion)
    requires IsSqrt(sqrt)
    ensures r == RoamingStep(m, snapshot, dt, sqrt)
  {
    r := m;
    var k := FindNearestEnemy(m.body.position, snapshot);
    if k.None? {
      return;
    }
    var target := snapshot[k.value];
    var dx := target.body.position.x - m.body.position.x;
    var dz := target.body.position.z - m.body.position.z;
    assert dx * dx + dz * dz == HorizDistSq(target.body.position, m.body.position);
    var dist := sqrt(dx * dx + dz * dz);
    if dist < 1.8 {
      r := m.(aiState := Windup, stateTimer := 0.4, targetId := Some(target.id));
      return;
    }
    r := MoveToward(m, target.body.position, dt, sqrt);
  }

  /** `updateWindup`. */
  method UpdateWindup(m: Minion, es: seq<Enemy>, dt: real) returns (r: Minion)
    requires m.aiState == Windup
    ensures r == WindupStep(m, es, dt)
  {
    r := m.(stateTimer := m.stateTimer - dt);
    var j := FindLiveEnemy(es, m.targetId);
    if j.None? {
      r := r.(aiState := Roaming, targetId := None);
      return;
    }
    if r.stateTimer <= 0.0 {
      r := r.(aiState := Bonk, stateTimer := 0.1);
    }
  }

  /** `updateBonk`: the damage and the kill go to the state; the minion's new record is returned. */
  method UpdateBonk(state: GameState, m: Minion) returns (r: Minion)
    modifies state`enemies, state`wave
    ensures r == BonkStep(m, old(state.enemies)).minion
    ensures state.enemies == BonkStep(m, old(state.enemies)).enemies
    ensures state.wave == old(state.wave).(kills := old(state.wave.kills) + BonkStep(m, old(state.enemies)).kills)
  {
    var j := FindLiveEnemy(state.enemies, m.targetId);
    if j.Some? {
      var target := state.enemies[j.value];
      state.enemies := state.enemies[j.value := target.(hp := target.hp - 1.5)];
      if state.enemies[j.value].hp <= 0.0 && state.enemies[j.value].alive {
        Damage.KillEnemy(state, j.value);
      }
    }
    r := m.(aiState := Cooldown, stateTimer := 0.6, targetId := None);
  }

  /** One minion's turn, in place. */
  method TickMinion(state: GameState, i: nat, snapshot: seq<Enemy>, dt: real, sqrt: real -> real)
    requires IsSqrt(sqrt) && i < |state.minions|
    modifies state`minions, state`enemies, state`wave
    ensures
      var t := StepMinion(old(state.minions[i]), snapshot, old(state.enemies), dt, sqrt);
      && state.minions == old(state.minions)[i := t.minion]
      && state.enemies == t.enemies
      && state.wave == old(state.wave).(kills := old(state.wave.kills) + t.kills)
  {
    var m := state.minions[i];
    if m.aiState != Recovery {
      var vel := m.body.velocity;
      assert vel.x * vel.x + vel.y * vel.y + vel.z * vel.z == SpeedSq(vel);
      var speed := sqrt(vel.x * vel.x + vel.y * vel.y + vel.z * vel.z);
      if speed > 8.0 {
        state.minions := state.minions[i := m.(aiState := Recovery, stateTimer := 1.2, targetId := None)];
        return;
      }
    }
    var r: Minion;
    match m.aiState {
      case Roaming => r := UpdateRoaming(m, snapshot, dt, sqrt);
      case Windup => r := UpdateWindup(m, state.enemies, dt);
      case Bonk => r := UpdateBonk(state, m);
      case Cooldown => r := CooldownStep(m, dt);
      case Recovery => r := RecoveryStep(m, dt);
    }
    state.minions := state.minions[i := r];
  }

  /** `updateMinions`. */
  method UpdateMinions(state: GameState, dt: real, sqrt: real -> real)
    requires IsSqrt(sqrt)
    modifies state`minions, state`enemies, state`wave
    ensures
      var s := StepFirst(old(state.minions), FilterAlive(old(state.enemies)), old(state.enemies),
                         old(state.wave.kills), |old(state.minions)|, dt, sqrt);
      && state.minions == s.minions && state.enemies == s.enemies
      && state.wave == old(state.wave).(kills := s.kills)
  {
    var aliveEnemies := FilterAliveLoop(state.enemies);
    ghost var ms0, es0, w0 := state.minions, state.enemies, state.wave;
    ghost var s := StepFirst(ms0, aliveEnemies, es0, w0.kills, 0, dt, sqrt);
    var i := 0;
    while i < |state.minions|
      invariant i <= |state.minions| == |ms0|
      invariant s == StepFirst(ms0, aliveEnemies, es0, w0.kills, i, dt, sqrt)
      invariant state.minions == s.minions && state.enemies == s.enemies
      invariant state.wave == w0.(kills := s.kills)
    {
      StepNext(ms0, aliveEnemies, es0, w0.kills, i, dt, sqrt);
      TickMinion(state, i, aliveEnemies, dt, sqrt);
      s := StepFirst(ms0, aliveEnemies, es0, w0.kills, i + 1, dt, sqrt);
      i := i + 1;
    }
  }
}
