/** The clock divider used to derive slower clocks from a master tick. */
module Clock {

  /** One tick on a divider with period `div` and countdown `dec`: fires and
    * reloads when the countdown is at zero, otherwise counts down. */
  function TickStep(div: nat, dec: nat): (r: (bool, nat))
    requires dec > 0 || div >= 1
    ensures r.0 <==> dec == 0
    ensures r.1 < div || (dec > 0 && r.1 == dec - 1)
  {
    if dec == 0 then (true, div - 1) else (false, dec - 1)
  }

  /** The countdown after `n` ticks. */
  function CountdownAfter(div: nat, dec: nat, n: nat): nat
    requires div >= 1
  {
    if n == 0 then dec else TickStep(div, CountdownAfter(div, dec, n - 1)).1
  }

  /** Whether the `n`-th tick (counting from 1) fires. */
  function FiresOn(div: nat, dec: nat, n: nat): bool
    requires div >= 1 && n >= 1
  {
    TickStep(div, CountdownAfter(div, dec, n - 1)).0
  }

  class SlaveClock {
    var div: nat
    var dec: nat

    /** A divider by `div`; the source computes `div - 1` in `u32`, so a zero
      * divisor is refused. */
    constructor (div: nat)
      requires div >= 1
      ensures this.div == div && dec == div - 1
    {
      this.div := div;
      dec := div - 1;
    }

    /** Restarts the countdown one step further away than `new` does. */
    method Reset()
      modifies this
      ensures div == old(div) && dec == div
    {
      dec := div;
    }

    /** Fires iff the countdown is 0, reloading it with `div - 1`. */
    method Tick() returns (fired: bool)
      requires dec > 0 || div >= 1
      modifies this
      ensures div == old(div)
      ensures (fired, dec) == TickStep(div, old(dec))
    {
      if dec == 0 {
        dec := div - 1;
        fired := true;
      } else {
        dec := dec - 1;
        fired := false;
      }
    }
  }

  /** From a fresh divider the countdown after `n` ticks is `div - 1 - n % div`. */
  lemma {:induction false} CountdownFromNew(div: nat, n: nat)
    requires div >= 1
    ensures CountdownAfter(div, div - 1, n) == div - 1 - n % div
  {
    if n > 0 {
      CountdownFromNew(div, n - 1);
      ModStep(n, div);
    }
  }

  /** How a remainder moves when the dividend grows by one. */
  lemma ModStep(n: nat, d: nat)
    requires d >= 1 && n >= 1
    ensures if (n - 1) % d == d - 1 then n % d == 0 else n % d == (n - 1) % d + 1
  {
    var q, r := (n - 1) / d, (n - 1) % d;
    if r == d - 1 {
      DivModUnique(n, d, q + 1, 0);
    } else {
      DivModUnique(n, d, q, r + 1);
    }
  }

  /** Euclidean quotient and remainder are the only such pair. */
  lemma DivModUnique(n: int, d: int, q: int, r: int)
    requires d >= 1 && n == d * q + r && 0 <= r < d
    ensures n / d == q && n % d == r
  {
    var k := n / d - q;
    assert d * k == r - n % d by {
      assert n == d * (n / d) + n % d;
      assert d * (n / d) == d * q + d * k;
    }
    MulAwayFromZero(d, k);
  }

  lemma MulAwayFromZero(d: int, k: int)
    requires d >= 1
    ensures k >= 1 ==> d * k >= d
    ensures k <= -1 ==> d * k <= -d
  {
    if k >= 1 {
      assert d * k == d + d * (k - 1);
    } else if k <= -1 {
      assert d * k == -d + d * (k + 1);
    }
  }

  /** A fresh divider fires exactly on every `div`-th tick. */
  lemma FiresEveryDivTicks(div: nat, n: nat)
    requires div >= 1 && n >= 1
    ensures FiresOn(div, div - 1, n) <==> n % div == 0
  {
    CountdownFromNew(div, n - 1);
    ModStep(n, div);
  }

  /** After `reset` the first tick only brings the countdown to where `new`
    * puts it, so the divider fires on tick `div + 1` and every `div` ticks on. */
  lemma {:induction false} FiresAfterReset(div: nat, n: nat)
    requires div >= 1 && n >= 1
    ensures FiresOn(div, div, n) <==> n >= 2 && (n - 1) % div == 0
  {
    if n >= 2 {
      ShiftAfterReset(div, n - 1);
      FiresEveryDivTicks(div, n - 1);
    }
  }

  lemma {:induction false} ShiftAfterReset(div: nat, n: nat)
    requires div >= 1 && n >= 1
    ensures CountdownAfter(div, div, n) == CountdownAfter(div, div - 1, n - 1)
  {
    if n > 1 {
      ShiftAfterReset(div, n - 1);
    }
  }
}
