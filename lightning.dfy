/**
 * Chain lightning: the tower strikes the live enemy nearest to it, then jumps up to
 * `lightningChains - 1` times to the nearest live enemy not yet struck that lies strictly
 * within `lightningChainRange` of the previous link. Every link loses the same damage and is
 * stunned; a fading arc records the path. A chain is a list of indices into the enemy list.
 *
 * The source scans a filtered copy of the live enemies; the model scans the full list and
 * skips the dead ones, which visits the same enemies in the same order.
 */
module Lightning {
  import opened Common
  import opened Geometry
  import opened State
  import opened Random
  import opened Selection

  /** Where every arc starts: the top of the tower. */
  const TowerTop := Vec3(0.0, 6.5, 0.0)
  /** How long an arc stays on screen. */
  const ArcMaxAge := 0.25

  /** The candidates of `findNearestExcluding`: alive and not struck yet. */
  function ChainOk(es: seq<Enemy>, hit: set<int>): (r: seq<bool>)
    ensures |r| == |es| && forall i :: 0 <= i < |es| ==> r[i] == (es[i].alive && es[i].id !in hit)
  {
    seq(|es|, i requires 0 <= i < |es| => es[i].alive && es[i].id !in hit)
  }

  /** `findNearest` over the live enemies: the first one nearest to `pos`. */
  function First(es: seq<Enemy>, pos: Vec3): (r: Option<nat>)
    ensures r.Some? ==> r.value < |es| && es[r.value].alive
  {
    ScanMin(HorizKeys(es, pos), AliveFlags(es), None, |es|)
  }

  /**
   * The first link is the live enemy nearest to the tower, the first one on ties, and there
   * is one exactly when some enemy is alive.
   */
  lemma FirstIsNearest(es: seq<Enemy>, pos: Vec3)
    ensures First(es, pos).None? <==> FilterAlive(es) == []
    ensures IsFirstMin(HorizKeys(es, pos), AliveFlags(es), None, First(es, pos))
  {
    ScanMinIsFirstMin(HorizKeys(es, pos), AliveFlags(es), None, |es|);
    ScanMinNoneIff(HorizKeys(es, pos), AliveFlags(es), |es|);
    FilterAliveEmpty(es);
  }

  /** `findNearestExcluding`: the next link after the enemy at index `from`. */
  function NextLink(es: seq<Enemy>, from: nat, hit: set<int>, range: real): (r: Option<nat>)
    requires from < |es|
    ensures r.Some? ==> r.value < |es| && es[r.value].alive && es[r.value].id !in hit
  {
    ScanMin(HorizKeys(es, es[from].body.position), ChainOk(es, hit), Some(range * range), |es|)
  }

  /**
   * The next link is the candidate nearest to the previous one, the first on ties, and it
   * lies strictly within range.
   */
  lemma NextLinkIsNearest(es: seq<Enemy>, from: nat, hit: set<int>, range: real)
    requires from < |es|
    ensures var r := NextLink(es, from, hit, range);
      && IsFirstMin(HorizKeys(es, es[from].body.position), ChainOk(es, hit), Some(range * range), r)
      && (r.Some? ==> HorizDistSq(es[r.value].body.position, es[from].body.position) < range * range)
  {
    ScanMinIsFirstMin(HorizKeys(es, es[from].body.position), ChainOk(es, hit), Some(range * range), |es|);
  }

  /** Every link of `chain` is an index into `es`. */
  predicate InBounds(es: seq<Enemy>, chain: seq<nat>)
  {
    forall k :: 0 <= k < |chain| ==> chain[k] < |es|
  }

  /** The ids of the enemies a chain has struck. */
  function ChainIds(es: seq<Enemy>, chain: seq<nat>): (r: set<int>)
    requires InBounds(es, chain)
    ensures forall k :: 0 <= k < |chain| ==> es[chain[k]].id in r
    ensures r == set k | 0 <= k < |chain| :: es[chain[k]].id
  {
    if chain == [] then {}
    else ChainIds(es, chain[..|chain| - 1]) + {es[chain[|chain| - 1]].id}
  }

  /**
   * A well-formed chain: in bounds, every link alive with an id of its own, and every link
   * after the first strictly within range of the one before.
   */
  predicate Linked(es: seq<Enemy>, chain: seq<nat>, range: real)
  {
    && (forall k :: 0 <= k < |chain| ==> chain[k] < |es| && es[chain[k]].alive)
    && (forall a, b :: 0 <= a < b < |chain| ==> es[chain[a]].id != es[chain[b]].id)
    && (forall k :: 1 <= k < |chain| ==>
          HorizDistSq(es[chain[k]].body.position, es[chain[k - 1]].body.position) < range * range)
  }

  /** The chain loop: at most `fuel` more links, stopping at the first step without a candidate. */
  function Extend(es: seq<Enemy>, chain: seq<nat>, fuel: nat, range: real): (r: seq<nat>)
    requires chain != [] && InBounds(es, chain)
    ensures |chain| <= |r| <= |chain| + fuel && r[..|chain|] == chain
    ensures InBounds(es, r)
    decreases fuel
  {
    if fuel == 0 then chain
    else match NextLink(es, chain[|chain| - 1], ChainIds(es, chain), range)
      case None => chain
      case Some(j) =>
        var r := Extend(es, chain + [j], fuel - 1, range);
        assert r[..|chain|] == r[..|chain| + 1][..|chain|];
        r
  }

  /** The links `fireLightning` strikes, in order. */
  function SelectChain(es: seq<Enemy>, towerPos: Vec3, chains: int, range: real): (r: seq<nat>)
    ensures InBounds(es, r)
  {
    match First(es, towerPos)
    case None => []
    case Some(f) => Extend(es, [f], if chains > 1 then chains - 1 else 0, range)
  }

  /** One more link keeps a chain well formed. */
  lemma LinkedStep(es: seq<Enemy>, chain: seq<nat>, range: real, j: nat)
    requires chain != [] && Linked(es, chain, range)
    requires NextLink(es, chain[|chain| - 1], ChainIds(es, chain), range) == Some(j)
    ensures Linked(es, chain + [j], range)
  {
    NextLinkIsNearest(es, chain[|chain| - 1], ChainIds(es, chain), range);
    var c := chain + [j];
    forall a, b | 0 <= a < b < |c|
      ensures es[c[a]].id != es[c[b]].id
    {
      if b == |chain| {
        assert es[chain[a]].id in ChainIds(es, chain);
      }
    }
  }

  /** The extension loop keeps the chain well formed. */
  lemma {:induction false} ExtendLinked(es: seq<Enemy>, chain: seq<nat>, fuel: nat, range: real)
    requires chain != [] && Linked(es, chain, range)
    ensures Linked(es, Extend(es, chain, fuel, range), range)
    decreases fuel
  {
    if fuel > 0 {
      match NextLink(es, chain[|chain| - 1], ChainIds(es, chain), range)
      case None =>
      case Some(j) =>
        LinkedStep(es, chain, range, j);
        ExtendLinked(es, chain + [j], fuel - 1, range);
    }
  }

  /** No candidate is left within range of the last link of `chain`. */
  predicate Stuck(es: seq<Enemy>, chain: seq<nat>, range: real)
  {
    && chain != [] && InBounds(es, chain)
    && NextLink(es, chain[|chain| - 1], ChainIds(es, chain), range).None?
  }

  /** The extension loop ends early only when no candidate is left within range. */
  lemma {:induction false} ExtendStops(es: seq<Enemy>, chain: seq<nat>, fuel: nat, range: real)
    requires chain != [] && InBounds(es, chain)
    requires |Extend(es, chain, fuel, range)| < |chain| + fuel
    ensures Stuck(es, Extend(es, chain, fuel, range), range)
    decreases fuel
  {
    assert fuel > 0;
    var next := NextLink(es, chain[|chain| - 1], ChainIds(es, chain), range);
    var n: nat := fuel - 1;
    ExtendStep(es, chain, n, range, next);
    if next.Some? {
      ChainAppend(es, chain, next.value);
      ExtendStops(es, chain + [next.value], n, range);
    }
  }

  /**
   * The chain of `fireLightning`: empty exactly when no enemy is alive; otherwise it starts
   * at the live enemy nearest the tower, has at most `max(1, lightningChains)` links, every
   * link alive with a distinct id and each later one strictly within range of the one
   * before, and it stops only when the chain count is spent or no candidate is left.
   */
  lemma SelectChainValid(es: seq<Enemy>, towerPos: Vec3, chains: int, range: real)
    ensures var r := SelectChain(es, towerPos, chains, range);
      && (r == [] <==> FilterAlive(es) == [])
      && (r != [] ==> Some(r[0]) == First(es, towerPos))
      && |r| <= (if chains > 1 then chains else 1)
      && Linked(es, r, range)
      && (0 < |r| < chains ==> NextLink(es, r[|r| - 1], ChainIds(es, r), range).None?)
  {
    var r := SelectChain(es, towerPos, chains, range);
    FirstIsNearest(es, towerPos);
    match First(es, towerPos)
    case None =>
    case Some(f) =>
      var fuel: nat := if chains > 1 then chains - 1 else 0;
      ExtendLinked(es, [f], fuel, range);
      assert r[..1] == [f];
      if |r| < chains {
        ExtendStops(es, [f], fuel, range);
      }
  }

  /** Linked chains never strike the same enemy twice. */
  lemma LinkedDistinct(es: seq<Enemy>, chain: seq<nat>, range: real)
    requires Linked(es, chain, range)
    ensures forall a, b :: 0 <= a < b < |chain| ==> chain[a] != chain[b]
  {
  }

  /** `findNearest`, the loop. */
  method FindNearest(es: seq<Enemy>, pos: Vec3) returns (r: Option<nat>)
    ensures r == First(es, pos)
  {
    ghost var keys, ok := HorizKeys(es, pos), AliveFlags(es);
    r := None;
    var bestDist := 0.0;
    var i := 0;
    while i < |es|
      invariant i <= |es|
      invariant r == ScanMin(keys, ok, None, i)
      invariant r.Some? ==> bestDist == keys[r.value]
    {
      if es[i].alive {
        var d := HorizDistSq(es[i].body.position, pos);
        if r.None? || d < bestDist {
          bestDist := d;
          r := Some(i);
        }
      }
      i := i + 1;
    }
  }

  /** `findNearestExcluding`, the loop that starts at the squared range. */
  method FindNearestExcluding(es: seq<Enemy>, from: nat, hit: set<int>, range: real) returns (r: Option<nat>)
    requires from < |es|
    ensures r == NextLink(es, from, hit, range)
  {
    ghost var keys, ok := HorizKeys(es, es[from].body.position), ChainOk(es, hit);
    var pos := es[from].body.position;
    r := None;
    var bestDist := range * range;
    var i := 0;
    while i < |es|
      invariant i <= |es|
      invariant r == ScanMin(keys, ok, Some(range * range), i)
      invariant bestDist == if r.Some? then keys[r.value] else range * range
      invariant r.Some? ==> keys[r.value] < range * range
    {
      if es[i].alive && es[i].id !in hit {
        var d := HorizDistSq(es[i].body.position, pos);
        if d < bestDist {
          bestDist := d;
          r := Some(i);
        }
      }
      i := i + 1;
    }
  }

  /** One turn of the chain loop, as the extension sees it, written for a fuel of `n + 1`. */
  lemma ExtendStep(es: seq<Enemy>, chain: seq<nat>, n: nat, range: real, next: Option<nat>)
    requires chain != [] && InBounds(es, chain)
    requires next == NextLink(es, chain[|chain| - 1], ChainIds(es, chain), range)
    ensures next.None? ==> Extend(es, chain, n + 1, range) == chain
    ensures next.Some? ==> Extend(es, chain, n + 1, range) == Extend(es, chain + [next.value], n, range)
  {
  }

  /** Appending an in-bounds link keeps a chain in bounds and adds that link's id. */
  lemma ChainAppend(es: seq<Enemy>, chain: seq<nat>, j: nat)
    requires InBounds(es, chain)
    requires j < |es|
    ensures InBounds(es, chain + [j])
    ensures ChainIds(es, chain + [j]) == ChainIds(es, chain) + {es[j].id}
  {
    assert (chain + [j])[..|chain|] == chain;
  }

  /** The chain loop of `fireLightning`. */
  method BuildChain(es: seq<Enemy>, first: nat, chains: int, range: real) returns (chain: seq<nat>)
    requires first < |es|
    ensures chain == Extend(es, [first], if chains > 1 then chains - 1 else 0, range)
  {
    ghost var fuel: nat := if chains > 1 then chains - 1 else 0;
    ghost var spec := Extend(es, [first], fuel, range);
    chain := [first];
    var hit := {es[first].id};
    var current := first;
    var i := 1;
    assert [first][..0] == [];
    while i < chains
      invariant 1 <= i && chain != [] && InBounds(es, chain)
      invariant current == chain[|chain| - 1] && hit == ChainIds(es, chain)
      invariant fuel == if i < chains then chains - i else 0
      invariant spec == Extend(es, chain, fuel, range)
    {
      var next := FindNearestExcluding(es, current, hit, range);
      ghost var n: nat := fuel - 1;
      ExtendStep(es, chain, n, range, next);
      if next.None? {
        return;
      }
      ChainAppend(es, chain, next.value);
      chain := chain + [next.value];
      hit := hit + {es[next.value].id};
      current := next.value;
      fuel := n;
      i := i + 1;
    }
  }

  /** A chained enemy that this strike kills. */
  predicate Lethal(e: Enemy, dmg: real)
  {
    e.alive && e.hp - dmg <= 0.0
  }

  /**
   * What the strike does to one link: `dmg` off its hp, its stun raised to at least
   * `stun`, and, when this kills it, a small launch whose x and z come from two draws.
   */
  function Struck(e: Enemy, dmg: real, stun: real, stream: nat -> real, d: nat): (r: Enemy)
    ensures r.hp == e.hp - dmg && r.stunTimer == Max(e.stunTimer, stun)
    ensures r.alive <==> e.alive && !Lethal(e, dmg)
    ensures r.body.position == e.body.position
  {
    var e1 := e.(hp := e.hp - dmg, stunTimer := Max(e.stunTimer, stun));
    if Lethal(e, dmg) then
      e1.(alive := false, body := e1.body.(velocity := Vec3((stream(d) - 0.5) * 4.0, 6.0, (stream(d + 1) - 0.5) * 4.0)))
    else e1
  }

  /** 1 for a strike that kills its link, 0 otherwise. */
  function Kill(e: Enemy, dmg: real): (r: nat)
    ensures r == 1 <==> Lethal(e, dmg)
    ensures r <= 1
  {
    if Lethal(e, dmg) then 1 else 0
  }

  /** How many of the first `n` links the strike kills. */
  function KillsAmong(es: seq<Enemy>, chain: seq<nat>, n: nat, dmg: real): (r: nat)
    requires n <= |chain| && InBounds(es, chain)
    ensures r <= n
  {
    if n == 0 then 0
    else KillsAmong(es, chain, n - 1, dmg) + Kill(es[chain[n - 1]], dmg)
  }

  /** The strike of one link, in place; two draws are consumed only on a kill. */
  method StrikeOne(state: GameState, idx: nat, dmg: real, stun: real, rng: Rng)
    requires idx < |state.enemies| && rng.Valid()
    modifies state`enemies, state`wave, rng
    ensures rng.Valid()
    ensures var d := old(rng.drawn);
      && state.enemies == old(state.enemies)[idx := Struck(old(state.enemies[idx]), dmg, stun, rng.stream, d)]
      && rng.drawn == d + 2 * Kill(old(state.enemies[idx]), dmg)
      && state.wave == old(state.wave).(kills := old(state.wave.kills) + Kill(old(state.enemies[idx]), dmg))
  {
    var e := state.enemies[idx];
    e := e.(hp := e.hp - dmg);
    e := e.(stunTimer := Max(e.stunTimer, stun));
    if e.hp <= 0.0 && e.alive {
      e := e.(alive := false);
      state.wave := state.wave.(kills := state.wave.kills + 1);
      var rx := rng.Next();
      var rz := rng.Next();
      e := e.(body := e.body.(velocity := Vec3((rx - 0.5) * 4.0, 6.0, (rz - 0.5) * 4.0)));
    }
    state.enemies := state.enemies[idx := e];
  }

  /** The enemy list, draws consumed and kills counted after striking the first `n` links. */
  datatype Strike = Strike(enemies: seq<Enemy>, draws: nat, kills: nat)

  function StrikeFirst(es: seq<Enemy>, chain: seq<nat>, n: nat, dmg: real, stun: real, stream: nat -> real, d0: nat): (s: Strike)
    requires n <= |chain| && InBounds(es, chain)
    ensures |s.enemies| == |es|
  {
    if n == 0 then Strike(es, 0, 0)
    else
      var s := StrikeFirst(es, chain, n - 1, dmg, stun, stream, d0);
      var e := s.enemies[chain[n - 1]];
      var d := d0 + s.draws;
      Strike(s.enemies[chain[n - 1] := Struck(e, dmg, stun, stream, d)],
             s.draws + 2 * Kill(e, dmg), s.kills + Kill(e, dmg))
  }

  /** Link `k` of `chain` in `after` is its record in `es` struck with its own pair of draws. */
  predicate StruckLink(es: seq<Enemy>, chain: seq<nat>, after: seq<Enemy>, k: nat, dmg: real, stun: real, stream: nat -> real, d0: nat)
    requires k < |chain| && InBounds(es, chain)
    requires |after| == |es|
  {
    var d := d0 + 2 * KillsAmong(es, chain, k, dmg);
    after[chain[k]] == Struck(es[chain[k]], dmg, stun, stream, d)
  }

  /** The strike leaves alone an enemy that none of the first `n` links points at. */
  lemma {:induction false} StrikeOthersAt(es: seq<Enemy>, chain: seq<nat>, n: nat, i: nat, dmg: real, stun: real, stream: nat -> real, d0: nat)
    requires n <= |chain| && InBounds(es, chain)
    requires i < |es| && forall j :: 0 <= j < n ==> chain[j] != i
    ensures StrikeFirst(es, chain, n, dmg, stun, stream, d0).enemies[i] == es[i]
  {
    if n > 0 {
      StrikeUntouched(es, chain, n, i, dmg, stun, stream, d0);
      StrikeOthersAt(es, chain, n - 1, i, dmg, stun, stream, d0);
    }
  }

  /** The strike leaves every enemy off the chain alone. */
  lemma StrikeOthers(es: seq<Enemy>, chain: seq<nat>, dmg: real, stun: real, stream: nat -> real, d0: nat)
    requires InBounds(es, chain)
    ensures var s := StrikeFirst(es, chain, |chain|, dmg, stun, stream, d0);
      forall i :: 0 <= i < |es| && i !in chain ==> s.enemies[i] == es[i]
  {
    forall i | 0 <= i < |es| && i !in chain
      ensures StrikeFirst(es, chain, |chain|, dmg, stun, stream, d0).enemies[i] == es[i]
    {
      StrikeOthersAt(es, chain, |chain|, i, dmg, stun, stream, d0);
    }
  }

  /**
   * Over distinct links, the kills counted are exactly the links that were alive and reach
   * zero hp, and each of them consumes two draws.
   */
  lemma {:induction false} StrikeKills(es: seq<Enemy>, chain: seq<nat>, n: nat, dmg: real, stun: real, stream: nat -> real, d0: nat)
    requires n <= |chain| && InBounds(es, chain)
    requires forall a, b :: 0 <= a < b < |chain| ==> chain[a] != chain[b]
    ensures var s := StrikeFirst(es, chain, n, dmg, stun, stream, d0);
      s.kills == KillsAmong(es, chain, n, dmg) && s.draws == 2 * s.kills
  {
    if n > 0 {
      StrikeKills(es, chain, n - 1, dmg, stun, stream, d0);
      StrikeCount(es, chain, n, dmg, stun, stream, d0);
      StrikeOthersAt(es, chain, n - 1, chain[n - 1], dmg, stun, stream, d0);
    }
  }

  /**
   * Over distinct links each link is struck once, as it was before the strike: it loses
   * exactly `dmg`, its stun becomes `max(old, stun)`, and it dies exactly when it was alive
   * and reaches zero hp, launched by the two draws that follow those of the links before it.
   */
  lemma {:induction false} StrikeLink(es: seq<Enemy>, chain: seq<nat>, n: nat, k: nat, dmg: real, stun: real, stream: nat -> real, d0: nat)
    requires n <= |chain| && InBounds(es, chain)
    requires forall a, b :: 0 <= a < b < |chain| ==> chain[a] != chain[b]
    requires k < n
    ensures var d := d0 + StrikeFirst(es, chain, k, dmg, stun, stream, d0).draws;
      StrikeFirst(es, chain, n, dmg, stun, stream, d0).enemies[chain[k]]
        == Struck(es[chain[k]], dmg, stun, stream, d)
  {
    if k == n - 1 {
      StrikeLast(es, chain, k, dmg, stun, stream, d0);
    } else {
      assert chain[k] != chain[n - 1];
      StrikeUntouched(es, chain, n, chain[k], dmg, stun, stream, d0);
      StrikeLink(es, chain, n - 1, k, dmg, stun, stream, d0);
    }
  }

  /** The link struck last is struck as it was before the strike. */
  lemma StrikeLast(es: seq<Enemy>, chain: seq<nat>, k: nat, dmg: real, stun: real, stream: nat -> real, d0: nat)
    requires k < |chain| && InBounds(es, chain)
    requires forall a, b :: 0 <= a < b < |chain| ==> chain[a] != chain[b]
    ensures var d := d0 + StrikeFirst(es, chain, k, dmg, stun, stream, d0).draws;
      StrikeFirst(es, chain, k + 1, dmg, stun, stream, d0).enemies[chain[k]]
        == Struck(es[chain[k]], dmg, stun, stream, d)
  {
    StrikeOthersAt(es, chain, k, chain[k], dmg, stun, stream, d0);
    StrikeNext(es, chain, k, dmg, stun, stream, d0);
  }

  /** Striking one more link updates that link's record and nothing else. */
  lemma StrikeStep(es: seq<Enemy>, chain: seq<nat>, n: nat, dmg: real, stun: real, stream: nat -> real, d0: nat)
    requires 0 < n <= |chain| && InBounds(es, chain)
    ensures var s := StrikeFirst(es, chain, n - 1, dmg, stun, stream, d0);
      var d := d0 + s.draws;
      StrikeFirst(es, chain, n, dmg, stun, stream, d0).enemies
        == s.enemies[chain[n - 1] := Struck(s.enemies[chain[n - 1]], dmg, stun, stream, d)]
  {
  }

  /** Striking link `k` after the links before it, as the damage loop takes its steps. */
  lemma StrikeNext(es: seq<Enemy>, chain: seq<nat>, k: nat, dmg: real, stun: real, stream: nat -> real, d0: nat)
    requires k < |chain| && InBounds(es, chain)
    ensures var s := StrikeFirst(es, chain, k, dmg, stun, stream, d0);
      var e := s.enemies[chain[k]];
      StrikeFirst(es, chain, k + 1, dmg, stun, stream, d0)
        == Strike(s.enemies[chain[k] := Struck(e, dmg, stun, stream, d0 + s.draws)],
                  s.draws + 2 * Kill(e, dmg), s.kills + Kill(e, dmg))
  {
  }

  /** Striking link `n - 1` counts a kill, and two draws, exactly when it is lethal. */
  lemma StrikeCount(es: seq<Enemy>, chain: seq<nat>, n: nat, dmg: real, stun: real, stream: nat -> real, d0: nat)
    requires 0 < n <= |chain| && InBounds(es, chain)
    ensures var s := StrikeFirst(es, chain, n - 1, dmg, stun, stream, d0);
      var t := StrikeFirst(es, chain, n, dmg, stun, stream, d0);
      && t.draws == s.draws + 2 * Kill(s.enemies[chain[n - 1]], dmg)
      && t.kills == s.kills + Kill(s.enemies[chain[n - 1]], dmg)
  {
  }

  /** Striking link `n - 1` leaves every other index as it was. */
  lemma StrikeUntouched(es: seq<Enemy>, chain: seq<nat>, n: nat, i: nat, dmg: real, stun: real, stream: nat -> real, d0: nat)
    requires 0 < n <= |chain| && InBounds(es, chain)
    requires i < |es| && i != chain[n - 1]
    ensures StrikeFirst(es, chain, n, dmg, stun, stream, d0).enemies[i]
      == StrikeFirst(es, chain, n - 1, dmg, stun, stream, d0).enemies[i]
  {
  }

  /** The damage loop of `fireLightning`. */
  method StrikeChain(state: GameState, chain: seq<nat>, dmg: real, stun: real, rng: Rng)
    requires rng.Valid() && InBounds(state.enemies, chain)
    modifies state`enemies, state`wave, rng
    ensures rng.Valid()
    ensures var s := StrikeFirst(old(state.enemies), chain, |chain|, dmg, stun, rng.stream, old(rng.drawn));
      && state.enemies == s.enemies && rng.drawn == old(rng.drawn) + s.draws
      && state.wave == old(state.wave).(kills := old(state.wave.kills) + s.kills)
  {
    ghost var es0, d0, w0 := state.enemies, rng.drawn, state.wave;
    var k := 0;
    while k < |chain|
      invariant k <= |chain|
      invariant StruckSoFar(state, rng, es0, chain, k, dmg, stun, d0, w0)
    {
      StrikeLinkInPlace(state, rng, es0, chain, k, dmg, stun, d0, w0);
      k := k + 1;
    }
  }

  /** The state of the damage loop after striking the first `k` links of `chain`. */
  ghost predicate StruckSoFar(state: GameState, rng: Rng, es0: seq<Enemy>, chain: seq<nat>, k: nat, dmg: real, stun: real, d0: nat, w0: WaveState)
    reads state, rng
  {
    && k <= |chain| && InBounds(es0, chain) && rng.Valid()
    && var s := StrikeFirst(es0, chain, k, dmg, stun, rng.stream, d0);
      && state.enemies == s.enemies && rng.drawn == d0 + s.draws
      && state.wave == w0.(kills := w0.kills + s.kills)
  }

  /** One turn of the damage loop: link `k` is struck in place. */
  method StrikeLinkInPlace(state: GameState, rng: Rng, ghost es0: seq<Enemy>, chain: seq<nat>, k: nat, dmg: real, stun: real, ghost d0: nat, ghost w0: WaveState)
    requires k < |chain| && StruckSoFar(state, rng, es0, chain, k, dmg, stun, d0, w0)
    modifies state`enemies, state`wave, rng
    ensures StruckSoFar(state, rng, es0, chain, k + 1, dmg, stun, d0, w0)
  {
    ghost var s := StrikeFirst(es0, chain, k, dmg, stun, rng.stream, d0);
    ghost var e := s.enemies[chain[k]];
    StrikeNext(es0, chain, k, dmg, stun, rng.stream, d0);
    StrikeOne(state, chain[k], dmg, stun, rng);
    ghost var t := StrikeFirst(es0, chain, k + 1, dmg, stun, rng.stream, d0);
    assert t.enemies == s.enemies[chain[k] := Struck(e, dmg, stun, rng.stream, d0 + s.draws)];
    assert state.enemies == t.enemies;
    assert rng.drawn == d0 + t.draws;
    assert state.wave == w0.(kills := w0.kills + t.kills);
  }

  /** The points of an arc: the tower top, then each link's position. */
  function ChainPoints(es: seq<Enemy>, chain: seq<nat>): (r: seq<Vec3>)
    requires InBounds(es, chain)
    ensures |r| == |chain| + 1 && r[0] == TowerTop
  {
    [TowerTop] + seq(|chain|, k requires 0 <= k < |chain| => es[chain[k]].body.position)
  }

  /** Each point after the first is the position of the link at that place in the chain. */
  lemma ChainPointsAt(es: seq<Enemy>, chain: seq<nat>, k: nat)
    requires InBounds(es, chain)
    requires k < |chain|
    ensures ChainPoints(es, chain)[k + 1] == es[chain[k]].body.position
  {
  }

  /** The strike moves nobody: every enemy keeps its position. */
  lemma {:induction false} StrikeKeepsPositions(es: seq<Enemy>, chain: seq<nat>, n: nat, dmg: real, stun: real, stream: nat -> real, d0: nat)
    requires n <= |chain| && InBounds(es, chain)
    ensures forall i :: 0 <= i < |es| ==>
      StrikeFirst(es, chain, n, dmg, stun, stream, d0).enemies[i].body.position == es[i].body.position
  {
    if n > 0 {
      StrikeKeepsPositions(es, chain, n - 1, dmg, stun, stream, d0);
    }
  }

  /** The loop that builds the arc's points. */
  method ArcPoints(es: seq<Enemy>, chain: seq<nat>) returns (points: seq<Vec3>)
    requires InBounds(es, chain)
    ensures points == ChainPoints(es, chain)
  {
    points := [TowerTop];
    var k := 0;
    while k < |chain|
      invariant k <= |chain| && |points| == k + 1 && points[0] == TowerTop
      invariant forall m :: 0 <= m < k ==> points[m + 1] == es[chain[m]].body.position
    {
      points := points + [es[chain[k]].body.position];
      k := k + 1;
    }
  }

  /**
   * `fireLightning`: the chain the tower selects is struck link by link, and one fresh arc
   * through the links is recorded; with no live enemy nothing happens at all.
   */
  method FireLightning(state: GameState, rng: Rng)
    requires rng.Valid()
    modifies state`enemies, state`wave, state`lightningArcs, rng
    ensures rng.Valid()
    ensures var t := old(state.tower);
      var chain := SelectChain(old(state.enemies), t.position, t.lightningChains, t.lightningChainRange);
      var s := StrikeFirst(old(state.enemies), chain, |chain|, t.lightningDamage, t.lightningStunDuration, rng.stream, old(rng.drawn));
      && state.enemies == s.enemies
      && state.wave == old(state.wave).(kills := old(state.wave.kills) + s.kills)
      && rng.drawn == old(rng.drawn) + s.draws
      && state.lightningArcs == old(state.lightningArcs)
           + if chain == [] then [] else [LightningArc(ChainPoints(old(state.enemies), chain), 0.0, ArcMaxAge)]
  {
    var tower := state.tower;
    var first := FindNearest(state.enemies, tower.position);
    if first.None? {
      assert state.lightningArcs == state.lightningArcs + [];
      return;
    }
    ghost var es0, d0 := state.enemies, rng.drawn;
    var chain := BuildChain(state.enemies, first.value, tower.lightningChains, tower.lightningChainRange);
    assert chain == SelectChain(es0, tower.position, tower.lightningChains, tower.lightningChainRange);
    StrikeChain(state, chain, tower.lightningDamage, tower.lightningStunDuration, rng);
    var points := ArcPoints(state.enemies, chain);
    StrikeKeepsPositions(es0, chain, |chain|, tower.lightningDamage, tower.lightningStunDuration, rng.stream, d0);
    assert points == ChainPoints(es0, chain);
    state.lightningArcs := state.lightningArcs + [LightningArc(points, 0.0, 0.25)];
  }

  /**
   * What the strike does to the enemy list, stated per enemy, for a chain without repeated
   * links (as every selected chain is, by `SelectChainValid` and `LinkedDistinct`): every
   * link is struck once, from its record before the strike, with the two draws its place in
   * the kill order selects; everyone off the chain is untouched; the kills are the links
   * that were alive and reach zero hp, two draws each.
   */
  lemma StrikeEffect(es: seq<Enemy>, chain: seq<nat>, dmg: real, stun: real, stream: nat -> real, d0: nat)
    requires InBounds(es, chain)
    requires forall a, b :: 0 <= a < b < |chain| ==> chain[a] != chain[b]
    ensures StrikeFirst(es, chain, |chain|, dmg, stun, stream, d0).kills == KillsAmong(es, chain, |chain|, dmg)
    ensures StrikeFirst(es, chain, |chain|, dmg, stun, stream, d0).draws == 2 * KillsAmong(es, chain, |chain|, dmg)
    ensures forall i :: 0 <= i < |es| && i !in chain ==> StrikeFirst(es, chain, |chain|, dmg, stun, stream, d0).enemies[i] == es[i]
    ensures forall k :: 0 <= k < |chain| ==>
      StruckLink(es, chain, StrikeFirst(es, chain, |chain|, dmg, stun, stream, d0).enemies, k, dmg, stun, stream, d0)
  {
    StrikeKills(es, chain, |chain|, dmg, stun, stream, d0);
    StrikeOthers(es, chain, dmg, stun, stream, d0);
    forall k | 0 <= k < |chain|
      ensures StruckLink(es, chain, StrikeFirst(es, chain, |chain|, dmg, stun, stream, d0).enemies, k, dmg, stun, stream, d0)
    {
      StrikeLink(es, chain, |chain|, k, dmg, stun, stream, d0);
      StrikeKills(es, chain, k, dmg, stun, stream, d0);
    }
  }

  /** An arc one tick older. */
  function Aged(a: LightningArc, dt: real): LightningArc
  {
    a.(age := a.age + dt)
  }

  /** The arcs that survive a tick: each one aged, the expired ones gone, the order kept. */
  function AgeArcs(arcs: seq<LightningArc>, dt: real): (r: seq<LightningArc>)
    ensures |r| <= |arcs|
    ensures forall k :: 0 <= k < |r| ==> r[k].age < r[k].maxAge
  {
    if arcs == [] then []
    else
      var rest := AgeArcs(arcs[1..], dt);
      if Aged(arcs[0], dt).age < arcs[0].maxAge then [Aged(arcs[0], dt)] + rest else rest
  }

  /** The survivors are exactly the aged arcs still younger than their maximum age. */
  lemma {:induction false} AgeArcsMembers(arcs: seq<LightningArc>, dt: real)
    ensures forall a :: a in AgeArcs(arcs, dt) <==> exists b :: b in arcs && a == Aged(b, dt) && a.age < a.maxAge
  {
    if arcs != [] {
      AgeArcsMembers(arcs[1..], dt);
      assert forall b :: b in arcs <==> b == arcs[0] || b in arcs[1..];
    }
  }

  /** Aging a concatenation ages each part: survivors keep their relative order. */
  lemma {:induction false} AgeArcsAppend(a: seq<LightningArc>, b: seq<LightningArc>, dt: real)
    ensures AgeArcs(a + b, dt) == AgeArcs(a, dt) + AgeArcs(b, dt)
  {
    if a == [] {
      assert a + b == b;
    } else {
      assert (a + b)[0] == a[0] && (a + b)[1..] == a[1..] + b;
      AgeArcsAppend(a[1..], b, dt);
    }
  }

  /** The arcs that survive from index `i` on: arc `i` aged or dropped, then the rest. */
  lemma AgeArcsAt(arcs: seq<LightningArc>, i: nat, dt: real)
    requires i < |arcs|
    ensures AgeArcs(arcs[i..], dt)
      == (if Aged(arcs[i], dt).age < arcs[i].maxAge then [Aged(arcs[i], dt)] else []) + AgeArcs(arcs[i + 1..], dt)
  {
    assert arcs[i..][1..] == arcs[i + 1..];
  }

  /** The list part-way through the backwards loop: arcs before `k` untouched, the survivors of the rest after them. */
  function Spliced(arcs0: seq<LightningArc>, k: nat, dt: real): seq<LightningArc>
    requires k <= |arcs0|
  {
    arcs0[..k] + AgeArcs(arcs0[k..], dt)
  }

  /** One turn of the backwards loop: splicing arc `i` out, or replacing it by its aged copy, extends the surviving suffix. */
  lemma SpliceStep(arcs0: seq<LightningArc>, i: nat, arcs: seq<LightningArc>, dt: real)
    requires i < |arcs0| && arcs == Spliced(arcs0, i + 1, dt)
    ensures var arc := arcs[i].(age := arcs[i].age + dt);
      && (arc.age >= arc.maxAge ==> arcs[..i] + arcs[i + 1..] == Spliced(arcs0, i, dt))
      && (arc.age < arc.maxAge ==> arcs[..i] + [arc] + arcs[i + 1..] == Spliced(arcs0, i, dt))
  {
    var rest := AgeArcs(arcs0[i + 1..], dt);
    assert arcs[..i] == arcs0[..i] && arcs[i] == arcs0[i];
    assert arcs[i + 1..] == rest;
    AgeArcsAt(arcs0, i, dt);
    var arc := arcs[i].(age := arcs[i].age + dt);
    if arc.age < arc.maxAge {
      assert arcs[..i] + [arc] + arcs[i + 1..] == arcs0[..i] + ([arc] + rest);
    }
  }

  /** `updateLightningArcs`: the backwards loop that splices out expired arcs. */
  method UpdateLightningArcs(state: GameState, dt: real)
    modifies state`lightningArcs
    ensures state.lightningArcs == AgeArcs(old(state.lightningArcs), dt)
  {
    ghost var arcs0 := state.lightningArcs;
    var i := |state.lightningArcs| - 1;
    ghost var k := i + 1;
    while i >= 0
      invariant -1 <= i < |arcs0| && k == i + 1
      invariant state.lightningArcs == Spliced(arcs0, k, dt)
    {
      var arcs := state.lightningArcs;
      var arc := arcs[i];
      arc := arc.(age := arc.age + dt);
      SpliceStep(arcs0, i, arcs, dt);
      if arc.age >= arc.maxAge {
        state.lightningArcs := arcs[..i] + arcs[i + 1..];
      } else {
        state.lightningArcs := arcs[..i] + [arc] + arcs[i + 1..];
      }
      k := i;
      i := i - 1;
    }
    assert arcs0[0..] == arcs0;
  }
}
