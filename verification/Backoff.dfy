/** The retry delay computed by the SQL function `backoff_interval`. */
module Backoff {
  import opened Options

  const DEFAULT_BASE := 2
  const DEFAULT_MAX := 300

  /** The `backoff_policy` column: both fields may be missing from the JSON object. */
  datatype Policy = Policy(baseSeconds: Option<int>, maxSeconds: Option<int>)

  function Base(p: Policy): int
  {
    if p.baseSeconds.Some? then p.baseSeconds.value else DEFAULT_BASE
  }

  function Cap(p: Policy): int
  {
    if p.maxSeconds.Some? then p.maxSeconds.value else DEFAULT_MAX
  }

  function Pow2(n: nat): (r: nat)
    ensures r > n
  {
    if n == 0 then 1 else 2 * Pow2(n - 1)
  }

  /** Seconds to wait after a failure at the given attempt. */
  function Interval(attempt: int, p: Policy): int
  {
    var exponent := if attempt - 1 > 0 then attempt - 1 else 0;
    var raw := Base(p) * Pow2(exponent);
    if raw < Cap(p) then raw else Cap(p)
  }

  lemma {:induction false} Pow2Monotone(m: nat, n: nat)
    requires m <= n
    ensures Pow2(m) <= Pow2(n)
  {
    if m < n {
      Pow2Monotone(m, n - 1);
    }
  }

  lemma ScaleMonotone(base: int, x: nat, y: nat)
    requires 0 <= base && x <= y
    ensures base * x <= base * y
  {
    if x < y {
      assert base * y - base * x == base * (y - x);
    }
  }

  /** With a non-negative base the delay never shrinks and never passes the cap. */
  lemma DelayGrowsToCap(m: int, n: int, p: Policy)
    requires Base(p) >= 0 && m <= n
    ensures Interval(m, p) <= Interval(n, p) <= Cap(p)
  {
    var e := if m - 1 > 0 then m - 1 else 0;
    var f := if n - 1 > 0 then n - 1 else 0;
    Pow2Monotone(e, f);
    ScaleMonotone(Base(p), Pow2(e), Pow2(f));
  }

  /** The delay starts at the base and doubles with every further failure until it meets the cap. */
  lemma DelayDoubles(n: int, p: Policy)
    requires n >= 1 && Base(p) >= 0 && Cap(p) >= 0
    ensures Interval(1, p) == if Base(p) < Cap(p) then Base(p) else Cap(p)
    ensures Interval(n + 1, p) == if 2 * Interval(n, p) < Cap(p) then 2 * Interval(n, p) else Cap(p)
  {
    assert Pow2(0) == 1 && Pow2(n) == 2 * Pow2(n - 1);
    assert Base(p) * Pow2(n) == 2 * (Base(p) * Pow2(n - 1));
  }

  ghost predicate NeverShrinks(p: Policy)
  {
    forall m: int, n: int {:trigger Interval(m, p), Interval(n, p)} :: m <= n ==> Interval(m, p) <= Interval(n, p)
  }

  /** The delay is monotone for exactly the policies with a non-negative base. */
  lemma NeverShrinksIff(p: Policy)
    ensures NeverShrinks(p) <==> Base(p) >= 0
  {
    if Base(p) >= 0 {
      forall m: int, n: int | m <= n ensures Interval(m, p) <= Interval(n, p) {
        DelayGrowsToCap(m, n, p);
      }
    } else {
      var k: nat := if Cap(p) < 0 then -Cap(p) else 0;
      NegativeBaseDives(Base(p), k);
      assert Interval(k + 1, p) == Base(p) * Pow2(k);
      assert Interval(k + 2, p) == Base(p) * Pow2(k + 1) < Interval(k + 1, p);
    }
  }

  lemma NegativeBaseDives(base: int, k: nat)
    requires base < 0
    ensures base * Pow2(k) + k < 0
    ensures base * Pow2(k + 1) < base * Pow2(k)
  {
    ScaleMonotone(-base - 1, 0, Pow2(k));
    assert base * Pow2(k) == -((-base - 1) * Pow2(k)) - Pow2(k);
    assert base * Pow2(k + 1) == base * Pow2(k) + base * Pow2(k);
  }

  /** A policy that sets nothing: two seconds after the first failure, twice as long after each further one,
      five minutes in the end. */
  lemma DefaultDelay(n: int)
    requires n >= 1
    ensures Interval(n, Policy(None, None)) == if n <= 8 then Pow2(n) else DEFAULT_MAX
    ensures DEFAULT_BASE <= Interval(n, Policy(None, None)) <= DEFAULT_MAX
  {
    DelayGrowsToCap(1, n, Policy(None, None));
    assert Pow2(n) == 2 * Pow2(n - 1);
    assert Pow2(3) == 8 && Pow2(6) == 64 && Pow2(8) == 256 && Pow2(9) == 512;
    if n <= 8 {
      Pow2Monotone(n, 8);
    } else {
      Pow2Monotone(9, n);
    }
  }
}
