/**
 * The running-best scans that every targeting routine of the game uses: walk the list once,
 * keep the candidate whose key is strictly better than the best so far. Such a scan returns
 * the FIRST index achieving the optimum, and, when the running best starts at a bound
 * instead of infinity, only candidates strictly below the bound qualify.
 */
module Selection {
  import opened Common

  predicate Below(k: real, bound: Option<real>)
  {
    bound.None? || k < bound.value
  }

  /**
   * `r` is what a left-to-right scan over the first `n` indices returns: the first eligible
   * index with the least key among eligible keys under the bound, or None when no eligible
   * key is under the bound.
   */
  ghost predicate IsFirstMinUpTo(keys: seq<real>, ok: seq<bool>, bound: Option<real>, n: nat, r: Option<nat>)
    requires |ok| == |keys| && n <= |keys|
  {
    match r
    case None => forall i :: 0 <= i < n && ok[i] ==> !Below(keys[i], bound)
    case Some(m) =>
      && m < n && ok[m] && Below(keys[m], bound)
      && (forall i :: 0 <= i < n && ok[i] ==> keys[m] <= keys[i])
      && (forall i :: 0 <= i < m && ok[i] ==> keys[m] < keys[i])
  }

  ghost predicate IsFirstMin(keys: seq<real>, ok: seq<bool>, bound: Option<real>, r: Option<nat>)
    requires |ok| == |keys|
  {
    IsFirstMinUpTo(keys, ok, bound, |keys|, r)
  }

  /** One step of the scan: index `n` is compared against the best of the first `n`. */
  lemma FirstMinStep(keys: seq<real>, ok: seq<bool>, bound: Option<real>, n: nat, r: Option<nat>)
    requires |ok| == |keys| && n < |keys| && IsFirstMinUpTo(keys, ok, bound, n, r)
    ensures
      var better := ok[n] && Below(keys[n], bound) && (r.None? || keys[n] < keys[r.value]);
      IsFirstMinUpTo(keys, ok, bound, n + 1, if better then Some(n) else r)
  {
  }

  /** The scan's answer is determined by the keys: two answers are equal. */
  lemma {:induction false} FirstMinUnique(keys: seq<real>, ok: seq<bool>, bound: Option<real>, a: Option<nat>, b: Option<nat>)
    requires |ok| == |keys| && IsFirstMin(keys, ok, bound, a) && IsFirstMin(keys, ok, bound, b)
    ensures a == b
  {
    if a.Some? && b.Some? {
      // both keys are minimal, hence equal; neither can then come strictly after the other
      assert keys[a.value] == keys[b.value];
    }
  }

  /**
   * The scan for a maximum that starts at minus infinity, with a strict comparison: the first
   * index of a greatest key, None exactly for the empty list.
   */
  ghost predicate IsFirstMaxUpTo(keys: seq<real>, n: nat, r: Option<nat>)
    requires n <= |keys|
  {
    match r
    case None => n == 0
    case Some(m) =>
      && m < n
      && (forall i :: 0 <= i < n ==> keys[i] <= keys[m])
      && (forall i :: 0 <= i < m ==> keys[i] < keys[m])
  }

  ghost predicate IsFirstMax(keys: seq<real>, r: Option<nat>)
  {
    IsFirstMaxUpTo(keys, |keys|, r)
  }

  lemma {:induction false} FirstMaxUnique(keys: seq<real>, a: Option<nat>, b: Option<nat>)
    requires IsFirstMax(keys, a) && IsFirstMax(keys, b)
    ensures a == b
  {
    if a.Some? && b.Some? {
      assert keys[a.value] == keys[b.value];
    }
  }

  /** The running-minimum scan itself, over the first `n` indices. */
  function ScanMin(keys: seq<real>, ok: seq<bool>, bound: Option<real>, n: nat): (r: Option<nat>)
    requires |ok| == |keys| && n <= |keys|
    ensures r.Some? ==> r.value < n && ok[r.value]
  {
    if n == 0 then None
    else
      var r := ScanMin(keys, ok, bound, n - 1);
      if ok[n - 1] && Below(keys[n - 1], bound) && (r.None? || keys[n - 1] < keys[r.value]) then Some(n - 1) else r
  }

  /** The scan finds the first eligible minimum under the bound. */
  lemma {:induction false} ScanMinIsFirstMin(keys: seq<real>, ok: seq<bool>, bound: Option<real>, n: nat)
    requires |ok| == |keys| && n <= |keys|
    ensures IsFirstMinUpTo(keys, ok, bound, n, ScanMin(keys, ok, bound, n))
  {
    if n > 0 {
      ScanMinIsFirstMin(keys, ok, bound, n - 1);
      FirstMinStep(keys, ok, bound, n - 1, ScanMin(keys, ok, bound, n - 1));
    }
  }

  /** With no bound the scan finds something exactly when some index is eligible. */
  lemma ScanMinNoneIff(keys: seq<real>, ok: seq<bool>, n: nat)
    requires |ok| == |keys| && n <= |keys|
    ensures ScanMin(keys, ok, None, n).None? <==> forall i :: 0 <= i < n ==> !ok[i]
  {
    ScanMinIsFirstMin(keys, ok, None, n);
  }

  /** The running-maximum scan that starts at minus infinity. */
  function ScanMax(keys: seq<real>, n: nat): (r: Option<nat>)
    requires n <= |keys|
    ensures r.Some? ==> r.value < n
  {
    if n == 0 then None
    else
      var r := ScanMax(keys, n - 1);
      if r.None? || keys[n - 1] > keys[r.value] then Some(n - 1) else r
  }

  lemma {:induction false} ScanMaxIsFirstMax(keys: seq<real>, n: nat)
    requires n <= |keys|
    ensures IsFirstMaxUpTo(keys, n, ScanMax(keys, n))
  {
    if n > 0 {
      ScanMaxIsFirstMax(keys, n - 1);
    }
  }

  /** All-true eligibility, for scans over lists that were filtered beforehand. */
  function AllTrue(n: nat): (r: seq<bool>)
    ensures |r| == n && forall i :: 0 <= i < n ==> r[i]
  {
    seq(n, _ => true)
  }
}
