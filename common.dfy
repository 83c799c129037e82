/** Helpers shared by both generations of the simulation. */
module Common {

  /** `null`-or-value, as the source's `T | null` fields and lookups. */
  datatype Option<T> = None | Some(value: T)

  /** `Math.max` on two numbers. */
  function Max(a: real, b: real): (r: real)
    ensures r >= a && r >= b
    ensures r == a || r == b
  {
    if a >= b then a else b
  }

  /** `Math.min` on two numbers. */
  function Min(a: real, b: real): (r: real)
    ensures r <= a && r <= b
    ensures r == a || r == b
  {
    if a <= b then a else b
  }

  /** The sequence of `n` copies of `x` (what a `for` loop of `push(x)` builds). */
  function Repeat<T>(x: T, n: nat): (r: seq<T>)
    ensures |r| == n
    ensures forall i :: 0 <= i < n ==> r[i] == x
  {
    if n == 0 then [] else Repeat(x, n - 1) + [x]
  }

  /** Number of occurrences of `x` in `s`. */
  function Count<T(==)>(s: seq<T>, x: T): nat
  {
    if s == [] then 0 else Count(s[..|s| - 1], x) + (if s[|s| - 1] == x then 1 else 0)
  }

  lemma {:induction false} CountAppend<T>(a: seq<T>, b: seq<T>, x: T)
    ensures Count(a + b, x) == Count(a, x) + Count(b, x)
    decreases |b|
  {
    if b == [] {
      assert a + b == a;
    } else {
      assert (a + b)[..|a + b| - 1] == a + b[..|b| - 1];
      CountAppend(a, b[..|b| - 1], x);
    }
  }

  lemma {:induction false} CountRepeat<T>(y: T, n: nat, x: T)
    ensures Count(Repeat(y, n), x) == if x == y then n else 0
  {
    if n > 0 {
      assert Repeat(y, n)[..n - 1] == Repeat(y, n - 1);
      CountRepeat(y, n - 1, x);
    }
  }
}
