/**
 * The simulation-facing part of the renderer: the swap-and-pop sweep that drops dead
 * entities once their meshes are gone, and the projectile mesh registry it consults.
 * The mesh registries are sets of entity ids; the meshes themselves are not modelled.
 */
module Renderer {
  import opened State
  import opened Physics

  /** The elements `x` of `a` with `p(x) == want`, in their original order. */
  function Select<T(!new)>(a: seq<T>, p: T -> bool, want: bool): (r: seq<T>)
    ensures |r| <= |a|
    ensures forall x :: x in r <==> x in a && p(x) == want
  {
    if a == [] then []
    else (if p(a[0]) == want then [a[0]] else []) + Select(a[1..], p, want)
  }

  /** Every element lands on exactly one side of the split. */
  lemma {:induction false} SelectSplit<T(!new)>(a: seq<T>, p: T -> bool)
    ensures multiset(a) == multiset(Select(a, p, false)) + multiset(Select(a, p, true))
  {
    if a != [] {
      SelectSplit(a[1..], p);
      assert a == [a[0]] + a[1..];
    }
  }

  /**
   * Two sequences that together hold the elements of `a`, one holding only elements `p`
   * rejects and the other only elements `p` accepts, are the two sides of the split up to order.
   */
  /** The count of one value on each side of the split. */
  lemma PartitionAt<T(!new)>(a: seq<T>, kept: seq<T>, gone: seq<T>, p: T -> bool, x: T)
    requires multiset(kept) + multiset(gone) == multiset(a)
    requires multiset(a) == multiset(Select(a, p, false)) + multiset(Select(a, p, true))
    requires forall y :: y in kept ==> !p(y)
    requires forall y :: y in gone ==> p(y)
    ensures multiset(kept)[x] == multiset(Select(a, p, false))[x]
    ensures multiset(gone)[x] == multiset(Select(a, p, true))[x]
  {
    var sf, st := Select(a, p, false), Select(a, p, true);
    assert multiset(kept)[x] + multiset(gone)[x] == multiset(a)[x] == multiset(sf)[x] + multiset(st)[x];
    if p(x) {
      assert x !in kept && x !in sf;
      assert multiset(kept)[x] == 0 && multiset(sf)[x] == 0;
    } else {
      assert x !in gone && x !in st;
      assert multiset(gone)[x] == 0 && multiset(st)[x] == 0;
    }
  }

  /**
   * Two sequences that together hold the elements of `a`, one holding only elements `p`
   * rejects and the other only elements `p` accepts, are the two sides of the split up to order.
   */
  lemma Partition<T(!new)>(a: seq<T>, kept: seq<T>, gone: seq<T>, p: T -> bool)
    requires multiset(kept) + multiset(gone) == multiset(a)
    requires forall x :: x in kept ==> !p(x)
    requires forall x :: x in gone ==> p(x)
    ensures multiset(kept) == multiset(Select(a, p, false))
    ensures multiset(gone) == multiset(Select(a, p, true))
  {
    SelectSplit(a, p);
    forall x
      ensures multiset(kept)[x] == multiset(Select(a, p, false))[x]
      ensures multiset(gone)[x] == multiset(Select(a, p, true))[x]
    {
      PartitionAt(a, kept, gone, p, x);
    }
  }

  /** One removal: the last element overwrites slot `i` and the array is popped. */
  function SwapPop<T>(a: seq<T>, i: nat): (r: seq<T>)
    requires i < |a|
    ensures |r| == |a| - 1
    ensures multiset(r) + multiset{a[i]} == multiset(a)
    ensures r[..i] == a[..i]
  {
    var b := a[i := a[|a| - 1]];
    assert multiset(b) == multiset(a) - multiset{a[i]} + multiset{a[|a| - 1]};
    assert b == b[..|a| - 1] + [a[|a| - 1]];
    assert multiset(b) == multiset(b[..|a| - 1]) + multiset{a[|a| - 1]};
    b[..|a| - 1]
  }

  /**
   * What the sweep of `swapRemove` leaves from index `i` on: the remaining array and the
   * elements the predicate accepted, in the order it accepted them.
   */
  function Sweep<T>(a: seq<T>, i: nat, remove: T -> bool): (r: (seq<T>, seq<T>))
    requires i <= |a|
    ensures i <= |r.0| && |r.0| + |r.1| == |a|
    decreases |a| - i
  {
    if i == |a| then (a, [])
    else if remove(a[i]) then
      var rest := Sweep(SwapPop(a, i), i, remove);
      (rest.0, [a[i]] + rest.1)
    else Sweep(a, i + 1, remove)
  }

  /**
   * The sweep removes exactly the accepted elements: nothing left is accepted, everything
   * removed was, the two together are the original elements, and the prefix already
   * scanned stays in place.
   */
  lemma SweepFacts<T>(a: seq<T>, i: nat, remove: T -> bool)
    requires i <= |a|
    requires forall k :: 0 <= k < i ==> !remove(a[k])
    ensures forall x :: x in Sweep(a, i, remove).0 ==> !remove(x)
    ensures forall x :: x in Sweep(a, i, remove).1 ==> remove(x)
    ensures multiset(Sweep(a, i, remove).0) + multiset(Sweep(a, i, remove).1) == multiset(a)
    ensures Sweep(a, i, remove).0[..i] == a[..i]
  {
    SweepKept(a, i, remove);
    SweepGone(a, i, remove);
    SweepCount(a, i, remove);
  }

  /** What the sweep leaves is all rejected, and the prefix already scanned stays in place. */
  lemma {:induction false} SweepKept<T>(a: seq<T>, i: nat, remove: T -> bool)
    requires i <= |a|
    requires forall k :: 0 <= k < i ==> !remove(a[k])
    ensures forall x :: x in Sweep(a, i, remove).0 ==> !remove(x)
    ensures Sweep(a, i, remove).0[..i] == a[..i]
    decreases |a| - i
  {
    if i == |a| {
    } else if remove(a[i]) {
      var b := SwapPop(a, i);
      assert forall k :: 0 <= k < i ==> b[k] == a[k];
      SweepKept(b, i, remove);
    } else {
      SweepKept(a, i + 1, remove);
      var r := Sweep(a, i + 1, remove).0;
      assert r[..i] == r[..i + 1][..i];
    }
  }

  /** What the sweep removes was all accepted. */
  lemma {:induction false} SweepGone<T>(a: seq<T>, i: nat, remove: T -> bool)
    requires i <= |a|
    ensures forall x :: x in Sweep(a, i, remove).1 ==> remove(x)
    decreases |a| - i
  {
    if i == |a| {
    } else if remove(a[i]) {
      SweepGone(SwapPop(a, i), i, remove);
    } else {
      SweepGone(a, i + 1, remove);
    }
  }

  /** What the sweep leaves and what it removes are, together, the original elements. */
  lemma {:induction false} SweepCount<T>(a: seq<T>, i: nat, remove: T -> bool)
    requires i <= |a|
    ensures multiset(Sweep(a, i, remove).0) + multiset(Sweep(a, i, remove).1) == multiset(a)
    decreases |a| - i
  {
    if i == |a| {
    } else if remove(a[i]) {
      var b := SwapPop(a, i);
      SweepCount(b, i, remove);
      var rest := Sweep(b, i, remove);
      calc {
        multiset(rest.0) + multiset([a[i]] + rest.1);
        multiset(rest.0) + multiset(rest.1) + multiset{a[i]};
        multiset(b) + multiset{a[i]};
        multiset(a);
      }
    } else {
      SweepCount(a, i + 1, remove);
    }
  }

  /**
   * The sweep keeps exactly the rejected elements and removes exactly the accepted ones,
   * counted with multiplicity; the array shrinks by the number removed.
   */
  lemma SweepRemovesExactly<T(!new)>(a: seq<T>, remove: T -> bool)
    ensures multiset(Sweep(a, 0, remove).0) == multiset(Select(a, remove, false))
    ensures multiset(Sweep(a, 0, remove).1) == multiset(Select(a, remove, true))
    ensures |Sweep(a, 0, remove).0| == |a| - |Sweep(a, 0, remove).1|
  {
    SweepFacts(a, 0, remove);
    var s := Sweep(a, 0, remove);
    Partition(a, s.0, s.1, remove);
    assert |multiset(s.0)| + |multiset(s.1)| == |multiset(a)|;
  }

  /**
   * `swapRemove`: overwrite the accepted slot with the last element and pop, otherwise
   * advance. Each iteration either advances `i` or shrinks the array. `gone` lists what the
   * predicate accepted, in order, which is where the caller's side effect happens.
   */
  method SwapRemove<T(!new)>(a: seq<T>, remove: T -> bool) returns (r: seq<T>, gone: seq<T>)
    ensures (r, gone) == Sweep(a, 0, remove)
    ensures forall x :: x in r ==> !remove(x)
    ensures multiset(r) == multiset(Select(a, remove, false))
    ensures multiset(gone) == multiset(Select(a, remove, true))
  {
    r, gone := a, [];
    var i := 0;
    assert gone + Sweep(r, i, remove).1 == Sweep(r, i, remove).1;
    while i < |r|
      invariant i <= |r|
      invariant Sweep(a, 0, remove) == (Sweep(r, i, remove).0, gone + Sweep(r, i, remove).1)
      decreases |r| - i
    {
      if remove(r[i]) {
        ghost var rest := Sweep(SwapPop(r, i), i, remove);
        assert gone + Sweep(r, i, remove).1 == (gone + [r[i]]) + rest.1;
        gone := gone + [r[i]];
        r := SwapPop(r, i);
      } else {
        i := i + 1;
      }
    }
    assert gone + Sweep(r, i, remove).1 == gone;
    SweepFacts(a, 0, remove);
    SweepRemovesExactly(a, remove);
  }

  /** The `removeBody` calls for a list of swept entities. */
  function RemovedAll(ids: seq<int>): (r: seq<WorldCall>)
    ensures |r| == |ids| && forall k :: 0 <= k < |ids| ==> r[k] == Removed(ids[k])
  {
    seq(|ids|, k requires 0 <= k < |ids| => Removed(ids[k]))
  }

  /** The enemies' ids, in list order: the key view the enemy mesh registry is looked up by. */
  function EnemyIds(es: seq<Enemy>): (r: seq<int>)
    ensures |r| == |es| && forall k :: 0 <= k < |es| ==> r[k] == es[k].id
  {
    seq(|es|, k requires 0 <= k < |es| => es[k].id)
  }

  /** The projectiles' ids, in list order: the key view the projectile mesh registry is looked up by. */
  function ProjectileIds(ps: seq<Projectile>): (r: seq<int>)
    ensures |r| == |ps| && forall k :: 0 <= k < |ps| ==> r[k] == ps[k].id
  {
    seq(|ps|, k requires 0 <= k < |ps| => ps[k].id)
  }

  /** An enemy is swept once it is dead and its death animation has released its mesh. */
  function EnemyGone(enemyMeshes: set<int>): Enemy -> bool
  {
    (e: Enemy) => !e.alive && e.id !in enemyMeshes
  }

  /** A projectile is swept once it is dead and its mesh has been dropped from the registry. */
  function ProjectileGone(projectileMeshes: set<int>): Projectile -> bool
  {
    (p: Projectile) => !p.alive && p.id !in projectileMeshes
  }

  /**
   * `cleanupDeadEntities`: sweep the enemies, then the projectiles, calling `removeBody` for
   * each swept entity at the moment it is accepted.
   */
  method CleanupDeadEntities(state: GameState, world: World, enemyMeshes: set<int>, projectileMeshes: set<int>)
    modifies state`enemies, state`projectiles, world
    ensures var se := Sweep(old(state.enemies), 0, EnemyGone(enemyMeshes));
      var sp := Sweep(old(state.projectiles), 0, ProjectileGone(projectileMeshes));
      && state.enemies == se.0 && state.projectiles == sp.0
      && world.calls == old(world.calls) + RemovedAll(EnemyIds(se.1)) + RemovedAll(ProjectileIds(sp.1))
  {
    var enemies, deadEnemies := SwapRemove(state.enemies, EnemyGone(enemyMeshes));
    state.enemies := enemies;
    RemoveBodies(world, EnemyIds(deadEnemies));
    var projectiles, deadProjectiles := SwapRemove(state.projectiles, ProjectileGone(projectileMeshes));
    state.projectiles := projectiles;
    RemoveBodies(world, ProjectileIds(deadProjectiles));
  }

  /** One `removeBody` call per id, in order. */
  method RemoveBodies(world: World, ids: seq<int>)
    modifies world
    ensures world.calls == old(world.calls) + RemovedAll(ids)
  {
    for k := 0 to |ids|
      invariant world.calls == old(world.calls) + RemovedAll(ids[..k])
    {
      world.RemoveBody(ids[k]);
      assert RemovedAll(ids[..k + 1]) == RemovedAll(ids[..k]) + [Removed(ids[k])];
    }
    assert ids[..|ids|] == ids;
  }

  /**
   * The sweep of `cleanupDeadEntities` keeps an enemy exactly when it is alive or its mesh is
   * still registered, so no live enemy is ever removed, and it removes a projectile exactly
   * when it is dead and unregistered; each removed entity is removed once per occurrence.
   */
  lemma CleanupRules(es: seq<Enemy>, ps: seq<Projectile>, enemyMeshes: set<int>, projectileMeshes: set<int>)
    ensures var se := Sweep(es, 0, EnemyGone(enemyMeshes));
      && (forall e :: e in se.0 <==> e in es && (e.alive || e.id in enemyMeshes))
      && (forall e :: e in se.1 <==> e in es && !e.alive && e.id !in enemyMeshes)
      && multiset(se.1) == multiset(Select(es, EnemyGone(enemyMeshes), true))
    ensures var sp := Sweep(ps, 0, ProjectileGone(projectileMeshes));
      && (forall p :: p in sp.0 <==> p in ps && (p.alive || p.id in projectileMeshes))
      && (forall p :: p in sp.1 <==> p in ps && !p.alive && p.id !in projectileMeshes)
      && multiset(sp.1) == multiset(Select(ps, ProjectileGone(projectileMeshes), true))
  {
    SweepRemovesExactly(es, EnemyGone(enemyMeshes));
    SweepRemovesExactly(ps, ProjectileGone(projectileMeshes));
    var se := Sweep(es, 0, EnemyGone(enemyMeshes));
    forall e ensures e in se.0 <==> e in Select(es, EnemyGone(enemyMeshes), false) {
      assert e in se.0 <==> e in multiset(se.0);
    }
    forall e ensures e in se.1 <==> e in Select(es, EnemyGone(enemyMeshes), true) {
      assert e in se.1 <==> e in multiset(se.1);
    }
    var sp := Sweep(ps, 0, ProjectileGone(projectileMeshes));
    forall p ensures p in sp.0 <==> p in Select(ps, ProjectileGone(projectileMeshes), false) {
      assert p in sp.0 <==> p in multiset(sp.0);
    }
    forall p ensures p in sp.1 <==> p in Select(ps, ProjectileGone(projectileMeshes), true) {
      assert p in sp.1 <==> p in multiset(sp.1);
    }
  }

  /**
   * The registry bookkeeping of `syncProjectiles`, one projectile at a time: a mesh is
   * registered on first sight and dropped again in the frame the projectile is seen dead.
   */
  function Registered(registry: set<int>, ps: seq<Projectile>): (r: set<int>)
    ensures forall id :: id !in ProjectileIds(ps) ==> (id in r <==> id in registry)
    ensures ps != [] ==> (ps[|ps| - 1].id in r <==> ps[|ps| - 1].alive)
    decreases |ps|
  {
    if ps == [] then registry
    else
      assert forall k :: 0 <= k < |ps| - 1 ==> ProjectileIds(ps[1..])[k] == ProjectileIds(ps)[k + 1];
      assert ProjectileIds(ps)[0] == ps[0].id;
      Registered(if ps[0].alive then registry + {ps[0].id} else registry - {ps[0].id}, ps[1..])
  }

  predicate UniqueIds(ps: seq<Projectile>)
  {
    forall j, k :: 0 <= j < k < |ps| ==> ps[j].id != ps[k].id
  }

  /**
   * With distinct ids, after one sync a listed projectile's id is registered exactly when
   * the projectile is alive; ids of unlisted projectiles keep their registration.
   */
  lemma {:induction false} RegisteredRules(registry: set<int>, ps: seq<Projectile>)
    requires UniqueIds(ps)
    ensures forall k :: 0 <= k < |ps| ==> (ps[k].id in Registered(registry, ps) <==> ps[k].alive)
    ensures forall id :: id !in ProjectileIds(ps) ==> (id in Registered(registry, ps) <==> id in registry)
    decreases |ps|
  {
    if ps != [] {
      var next := if ps[0].alive then registry + {ps[0].id} else registry - {ps[0].id};
      RegisteredRules(next, ps[1..]);
      forall id | id in ProjectileIds(ps[1..])
        ensures id in ProjectileIds(ps)
      {
        var k :| 0 <= k < |ps[1..]| && ProjectileIds(ps[1..])[k] == id;
        assert ProjectileIds(ps)[k + 1] == id;
      }
      assert ps[0].id !in ProjectileIds(ps[1..]) by {
        forall k | 0 <= k < |ps| - 1
          ensures ProjectileIds(ps[1..])[k] != ps[0].id
        {
          assert ps[k + 1].id != ps[0].id;
        }
      }
      forall k | 0 <= k < |ps|
        ensures ps[k].id in Registered(registry, ps) <==> ps[k].alive
      {
        if k > 0 {
          assert ps[1..][k - 1] == ps[k];
        }
      }
      forall id | id !in ProjectileIds(ps)
        ensures id in Registered(registry, ps) <==> id in registry
      {
        assert id != ps[0].id by { assert ProjectileIds(ps)[0] == ps[0].id; }
      }
    }
  }

  /**
   * A sync followed by a sweep removes every dead projectile that was listed at the sync,
   * and keeps every live one.
   */
  lemma SyncThenSweep(registry: set<int>, ps: seq<Projectile>)
    requires UniqueIds(ps)
    ensures var kept := Sweep(ps, 0, ProjectileGone(Registered(registry, ps))).0;
      && (forall p :: p in kept ==> p.alive)
      && (forall p :: p in ps && p.alive ==> p in kept)
  {
    var reg := Registered(registry, ps);
    RegisteredRules(registry, ps);
    CleanupRules([], ps, {}, reg);
    forall p | p in ps && !p.alive
      ensures p.id !in reg
    {
      var k :| 0 <= k < |ps| && ps[k] == p;
    }
  }
}
