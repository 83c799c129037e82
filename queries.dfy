/**
 * The enemy queries that several systems run over an enemy list: the nearest one by
 * horizontal distance, the live one with a given id, and the live ones in order. Each is a
 * loop in the source and a method here, specified by a function.
 */
module Queries {
  import opened Common
  import opened Geometry
  import opened State
  import opened Selection

  /** The nearest enemy of the list by horizontal distance, the first one on ties. */
  function Nearest(es: seq<Enemy>, pos: Vec3): (r: Option<nat>)
    ensures r.Some? ==> r.value < |es|
    ensures r.None? <==> es == []
    ensures IsFirstMin(HorizKeys(es, pos), AllTrue(|es|), None, r)
  {
    ScanMinIsFirstMin(HorizKeys(es, pos), AllTrue(|es|), None, |es|);
    ScanMinNoneIff(HorizKeys(es, pos), AllTrue(|es|), |es|);
    ScanMin(HorizKeys(es, pos), AllTrue(|es|), None, |es|)
  }

  /** `findNearestEnemy`: the running-minimum loop that starts at infinity. */
  method FindNearestEnemy(pos: Vec3, es: seq<Enemy>) returns (r: Option<nat>)
    ensures r == Nearest(es, pos)
  {
    ghost var keys, ok := HorizKeys(es, pos), AllTrue(|es|);
    r := None;
    var nearestDistSq := 0.0;
    var i := 0;
    while i < |es|
      invariant i <= |es|
      invariant r == ScanMin(keys, ok, None, i)
      invariant r.Some? ==> nearestDistSq == keys[r.value]
    {
      var distSq := HorizDistSq(es[i].body.position, pos);
      if r.None? || distSq < nearestDistSq {
        nearestDistSq := distSq;
        r := Some(i);
      }
      i := i + 1;
    }
  }

  /** `enemies.find((e) => e.id === id && e.alive)`, as an index from `k` on. */
  function FindLive(es: seq<Enemy>, id: Option<int>, k: nat): (r: Option<nat>)
    requires k <= |es|
    ensures r.Some? ==>
      && k <= r.value < |es| && id == Some(es[r.value].id) && es[r.value].alive
      && forall j :: k <= j < r.value ==> !(id == Some(es[j].id) && es[j].alive)
    ensures r.None? ==> forall j :: k <= j < |es| ==> !(id == Some(es[j].id) && es[j].alive)
    decreases |es| - k
  {
    if k == |es| then None
    else if id == Some(es[k].id) && es[k].alive then Some(k)
    else FindLive(es, id, k + 1)
  }

  /** The search loop behind `find`. */
  method FindLiveEnemy(es: seq<Enemy>, id: Option<int>) returns (r: Option<nat>)
    ensures r == FindLive(es, id, 0)
  {
    var j := 0;
    while j < |es|
      invariant j <= |es|
      invariant FindLive(es, id, 0) == FindLive(es, id, j)
    {
      if id == Some(es[j].id) && es[j].alive {
        return Some(j);
      }
      j := j + 1;
    }
    return None;
  }

  /** `enemies.filter((e) => e.alive)`, as the loop that builds the snapshot. */
  method FilterAliveLoop(es: seq<Enemy>) returns (r: seq<Enemy>)
    ensures r == FilterAlive(es)
  {
    r := [];
    var i := 0;
    while i < |es|
      invariant i <= |es|
      invariant r == FilterAlive(es[..i])
    {
      assert es[..i + 1][..i] == es[..i];
      if es[i].alive {
        r := r + [es[i]];
      }
      i := i + 1;
    }
    assert es[..i] == es;
  }
}
