/** The reconnect schedule over the reals: capped exponential backoff with equal jitter. */
module Backoff {
  import opened Bytes

  /** Non-negative times in seconds; no attempt limit means retrying forever. */
  datatype Policy = Policy(initial: real, cap: real, multiplier: real, maxAttempts: Option<nat>)

  predicate Sane(p: Policy) {
    p.initial >= 0.0 && p.cap >= 0.0
  }

  function Min(a: real, b: real): real {
    if b < a then b else a
  }

  function Growth(p: Policy): (g: real)
    ensures g >= 1.0
  {
    if p.multiplier < 1.0 then 1.0 else p.multiplier
  }

  function Power(g: real, n: nat): real {
    if n == 0 then 1.0 else g * Power(g, n - 1)
  }

  function Uncapped(p: Policy, rounds: nat): real {
    p.initial * Power(Growth(p), rounds)
  }

  /** The unjittered delay of the `n`th attempt, from 1. */
  function Base(p: Policy, n: nat): real {
    Min(p.cap, Uncapped(p, if n == 0 then 0 else n - 1))
  }

  lemma {:induction false} PowerAtLeastOne(g: real, n: nat)
    requires g >= 1.0
    ensures Power(g, n) >= 1.0
  {
    if n > 0 {
      PowerAtLeastOne(g, n - 1);
      assert g * Power(g, n - 1) >= g * 1.0;
    }
  }

  lemma Grows(p: Policy, i: nat)
    requires Sane(p)
    ensures Uncapped(p, i) >= 0.0 && Uncapped(p, i + 1) == Uncapped(p, i) * Growth(p)
  {
    var g := Growth(p);
    var power := Power(g, i);
    PowerAtLeastOne(g, i);
    assert p.initial * power >= 0.0;
    assert Power(g, i + 1) == g * power;
    Associates(p.initial, g, power);
  }

  /** One more round multiplies what is still below the cap, and keeps what has reached it. */
  lemma GrowOnce(p: Policy, i: nat)
    requires Sane(p)
    ensures 0.0 <= Uncapped(p, i) <= Uncapped(p, i + 1)
    ensures Min(p.cap, Min(p.cap, Uncapped(p, i)) * Growth(p)) == Min(p.cap, Uncapped(p, i + 1))
  {
    hide Uncapped, Growth;
    Grows(p, i);
    CapThenGrow(p.cap, Uncapped(p, i), Growth(p));
  }

  lemma CapThenGrow(cap: real, x: real, g: real)
    requires cap >= 0.0 && x >= 0.0 && g >= 1.0
    ensures x * g >= x && Min(cap, Min(cap, x) * g) == Min(cap, x * g)
  {
    Scales(x, g);
    Scales(cap, g);
  }

  lemma Associates(a: real, g: real, b: real)
    ensures a * (g * b) == (a * b) * g
  {
  }

  lemma Scales(x: real, g: real)
    requires x >= 0.0 && g >= 1.0
    ensures x * g >= x
  {
    assert x * (g - 1.0) >= 0.0;
  }

  lemma {:induction false} BaseMonotone(p: Policy, m: nat, n: nat)
    requires Sane(p) && m <= n
    ensures 0.0 <= Base(p, m) <= Base(p, n) <= p.cap
    decreases n - m
  {
    hide Uncapped, Growth;
    if m < n {
      BaseMonotone(p, m, n - 1);
      if n >= 2 {
        GrowOnce(p, n - 2);
      }
    } else {
      GrowOnce(p, if n == 0 then 0 else n - 1);
    }
  }

  lemma {:induction false} CapReached(p: Policy, i: nat, n: nat)
    requires Sane(p) && i <= n && Uncapped(p, i) >= p.cap
    ensures Uncapped(p, n) >= p.cap
    decreases n - i
  {
    hide Uncapped, Growth;
    if i < n {
      CapReached(p, i, n - 1);
      GrowOnce(p, n - 1);
    }
  }

  /** The loop that leaves early once the cap is reached computes the closed form. */
  method BaseDelay(p: Policy, attempt: nat) returns (secs: real)
    requires Sane(p)
    ensures secs == Base(p, attempt)
  {
    hide Uncapped, Growth;
    secs := Min(p.initial, p.cap);
    PowerZero(p);
    var growth := Growth(p);
    var i: nat := 1;
    while i < attempt
      invariant i <= attempt || i == 1
      invariant secs == Min(p.cap, Uncapped(p, i - 1))
    {
      GrowOnce(p, i - 1);
      secs := Min(secs * growth, p.cap);
      i := i + 1;
      if secs >= p.cap {
        CapReached(p, i - 1, attempt - 1);
        break;
      }
    }
  }

  lemma PowerZero(p: Policy)
    ensures Uncapped(p, 0) == p.initial
  {
  }

  /** `r` is the random draw from [0, 1). */
  function Jittered(base: real, r: real): real {
    base / 2.0 + base / 2.0 * r
  }

  lemma Positive(a: real, b: real)
    requires a > 0.0 && b > 0.0
    ensures a * b > 0.0
  {
  }

  lemma NotNegative(a: real, b: real)
    requires a >= 0.0 && b >= 0.0
    ensures a * b >= 0.0
  {
  }

  lemma JitterBand(base: real, r: real)
    requires base >= 0.0 && 0.0 <= r < 1.0
    ensures base / 2.0 <= Jittered(base, r) <= base
    ensures Jittered(base, r) < base <==> base > 0.0
  {
    var half := base / 2.0;
    NotNegative(half, r);
    NotNegative(half, 1.0 - r);
    assert half * (1.0 - r) == half - half * r;
    if base > 0.0 {
      Positive(half, 1.0 - r);
    } else {
      assert half == 0.0;
      assert half * r == 0.0;
    }
  }

  /** The draw spreads over the whole band: each delay in it comes of exactly one. */
  lemma JitterSpreads(base: real, secs: real, r: real)
    requires base > 0.0 && 0.0 <= r < 1.0 && base / 2.0 <= secs < base
    ensures 0.0 <= (secs - base / 2.0) / (base / 2.0) < 1.0
    ensures Jittered(base, r) == secs <==> r == (secs - base / 2.0) / (base / 2.0)
  {
    var half := base / 2.0;
    var x := (secs - half) / half;
    assert x * half == secs - half;
    if x < 0.0 {
      Positive(half, -x);
    } else if x >= 1.0 {
      NotNegative(half, x - 1.0);
    }
    if r < x {
      Positive(half, x - r);
    } else if x < r {
      Positive(half, r - x);
    }
  }

  method Delay(p: Policy, attempt: nat, r: real) returns (secs: real)
    requires Sane(p)
    ensures secs == Jittered(Base(p, attempt), r)
  {
    var base := BaseDelay(p, attempt);
    var half := base / 2.0;
    secs := half + half * r;
  }
}
