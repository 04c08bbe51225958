/** Retry backoff: capped doubling with up to ten percent of jitter. */
module Backoff {

  datatype Policy = Policy(base: nat, cap: nat)

  function Pow2(n: nat): (p: nat)
    ensures p >= 1
  {
    if n == 0 then 1 else 2 * Pow2(n - 1)
  }

  /** The delay before jitter, in seconds. `attempts` counts the attempts already made. */
  function Delay(p: Policy, attempts: nat): nat {
    var doubled := p.base * Pow2(if attempts >= 1 then attempts - 1 else 0);
    if doubled < p.cap then doubled else p.cap
  }

  /** `u` is the uniform draw, scaled to [0, 1]. */
  function WithJitter(delay: real, u: real): real {
    delay + u * (delay * 0.1)
  }

  function ComputeBackoff(p: Policy, attempts: nat, u: real): real {
    WithJitter(Delay(p, attempts) as real, u)
  }

  predicate Draw(u: real) {
    0.0 <= u <= 1.0
  }

  lemma {:induction false} Pow2Grows(m: nat, n: nat)
    requires m <= n
    ensures Pow2(m) <= Pow2(n)
  {
    if m < n {
      Pow2Grows(m, n - 1);
    }
  }

  lemma JitterBounds(d: real, u: real)
    requires 0.0 <= d && Draw(u)
    ensures d <= WithJitter(d, u) <= 1.1 * d
  {
    Scaled(u, d);
    assert u * (d * 0.1) == (u * d) * 0.1;
  }

  /** The delays that can be drawn: exactly those from the capped doubling up to ten percent above it. */
  lemma JitterExactly(p: Policy, attempts: nat, delay: real)
    ensures (exists u: real :: Draw(u) && ComputeBackoff(p, attempts, u) == delay) <==>
            Delay(p, attempts) as real <= delay <= 1.1 * Delay(p, attempts) as real
  {
    var d := Delay(p, attempts) as real;
    if u: real :| Draw(u) && ComputeBackoff(p, attempts, u) == delay {
      JitterBounds(d, u);
    }
    if d <= delay <= 1.1 * d {
      var u := if d == 0.0 then 0.0 else (delay - d) / (d * 0.1);
      if d > 0.0 {
        assert u * (d * 0.1) == delay - d;
        Ratio(delay - d, d * 0.1);
      }
      assert Draw(u) && ComputeBackoff(p, attempts, u) == delay;
    }
  }

  lemma Ratio(x: real, y: real)
    requires 0.0 <= x <= y && y > 0.0
    ensures 0.0 <= x / y <= 1.0
  {
    assert x / y * y == x;
  }

  lemma Scaled(u: real, x: real)
    requires Draw(u) && 0.0 <= x
    ensures 0.0 <= u * x <= x
  {
  }

  /** Every delay lies between min(base, cap) and 1.1 times the cap. */
  lemma DelayBounds(p: Policy, attempts: nat, u: real)
    requires Draw(u)
    ensures (if p.base < p.cap then p.base else p.cap) as real <= ComputeBackoff(p, attempts, u)
    ensures ComputeBackoff(p, attempts, u) <= 1.1 * Delay(p, attempts) as real <= 1.1 * p.cap as real
  {
    var k := if attempts >= 1 then attempts - 1 else 0;
    Product(p.base, 1, Pow2(k));
    assert Delay(p, attempts) >= if p.base < p.cap then p.base else p.cap;
    JitterBounds(Delay(p, attempts) as real, u);
  }

  lemma Product(a: nat, x: nat, y: nat)
    requires x <= y
    ensures a * x <= a * y
  {
  }

  /** The part without jitter never shrinks as attempts grow. */
  lemma DelayGrows(p: Policy, m: nat, n: nat)
    requires m <= n
    ensures Delay(p, m) <= Delay(p, n)
  {
    var i := if m >= 1 then m - 1 else 0;
    var j := if n >= 1 then n - 1 else 0;
    Pow2Grows(i, j);
    Product(p.base, Pow2(i), Pow2(j));
  }

  /** The recurrence behind the power: start at the base, double each time, never pass the cap. */
  lemma DelayDoubles(p: Policy, n: nat)
    requires n >= 1
    ensures Delay(p, 1) == if p.base < p.cap then p.base else p.cap
    ensures Delay(p, n + 1) == if 2 * Delay(p, n) < p.cap then 2 * Delay(p, n) else p.cap
  {
    assert Pow2(0) == 1 && Pow2(n) == 2 * Pow2(n - 1);
    assert p.base * (2 * Pow2(n - 1)) == 2 * (p.base * Pow2(n - 1));
  }

  /** An upper bound on the waits after attempts 1..n. */
  function WaitBound(p: Policy, n: nat): real {
    if n == 0 then 0.0 else WaitBound(p, n - 1) + 1.1 * Delay(p, n) as real
  }

  /** The closed form: at most base * (2^n - 1), and at most n caps, each with its jitter. */
  lemma {:induction false} WaitBoundClosed(p: Policy, n: nat)
    ensures WaitBound(p, n) <= 1.1 * (p.base * (Pow2(n) - 1)) as real
    ensures WaitBound(p, n) <= 1.1 * (n * p.cap) as real
  {
    if n > 0 {
      WaitBoundClosed(p, n - 1);
      var q := Pow2(n - 1);
      assert p.base * (Pow2(n) - 1) == p.base * (q - 1) + p.base * q by {
        assert Pow2(n) - 1 == (q - 1) + q;
        Distribute(p.base, q - 1, q);
      }
      assert n * p.cap == (n - 1) * p.cap + p.cap;
    }
  }

  lemma Distribute(a: nat, x: nat, y: nat)
    ensures a * (x + y) == a * x + a * y
  {
  }

  lemma {:induction false} WaitBoundGrows(p: Policy, m: nat, n: nat)
    requires m <= n
    ensures WaitBound(p, m) <= WaitBound(p, n)
  {
    if m < n {
      WaitBoundGrows(p, m, n - 1);
    }
  }
}
