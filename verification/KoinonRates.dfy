/** The price of a swap, and of swaps in a row. */
module KoinonRates {
  import opened Base
  import opened Koinon

  lemma MulDivMeaning(n: nat, k: nat, d: nat)
    requires d > 0
    ensures MulDiv(n, k, d) * d <= n * k < (MulDiv(n, k, d) + 1) * d
  {
  }

  lemma Scaled(a: nat, b: nat, k: nat)
    requires a <= b
    ensures a * k <= b * k && (a < b && k > 0 ==> a * k < b * k)
  {
    assert b * k == a * k + (b - a) * k;
  }

  lemma BelowExact(n: nat, d: nat, f: nat, m: nat, q: nat, out: nat)
    requires q * d <= n && out * m <= q * f
    ensures out * d * m <= n * f
  {
    Scaled(out * m, q * f, d);
    Scaled(q * d, n, f);
    assert q * f * d == q * d * f;
    assert out * m * d == out * d * m;
  }

  lemma NearExact(n: nat, d: nat, f: nat, m: nat, q: nat, out: nat)
    requires n < (q + 1) * d && q * f < (out + 1) * m && f <= m && d > 0
    ensures n * f < (out + 2) * d * m
  {
    Scaled(n, (q + 1) * d, f);
    assert (q + 1) * d * f == (q * f + f) * d;
    assert (out + 2) * m == (out + 1) * m + m;
    Scaled(q * f + f, (out + 2) * m, d);
    assert (out + 2) * m * d == (out + 2) * d * m;
  }

  /** The price of one swap. With `z` the exact value `uiAmount * rateA * (10_000 - fee) / (rateB * 10_000)`, the two
      floors pay at most `z` and more than `z - 2`. */
  lemma SwapPrice(uiAmount: u64, rateA: u32, rateB: u32, feeBps: u16)
    requires Quote(uiAmount, rateA, rateB, feeBps).Some?
    ensures rateB > 0 && feeBps <= 10_000
    ensures var out := Quote(uiAmount, rateA, rateB, feeBps).value;
      out * rateB * 10_000 <= uiAmount * rateA * (10_000 - feeBps) < (out + 2) * rateB * 10_000
  {
    hide MulDiv;
    var q := MulDiv(uiAmount, rateA, rateB);
    MulDivMeaning(uiAmount, rateA, rateB);
    MulDivMeaning(q, 10_000 - feeBps, 10_000);
    BelowExact(uiAmount * rateA, rateB, 10_000 - feeBps, 10_000, q, MulDiv(q, 10_000 - feeBps, 10_000));
    NearExact(uiAmount * rateA, rateB, 10_000 - feeBps, 10_000, q, MulDiv(q, 10_000 - feeBps, 10_000));
  }

  /** So the two floors lose at most one unit against flooring once at the end. */
  lemma OneUnitFromSingleFloor(uiAmount: u64, rateA: u32, rateB: u32, feeBps: u16)
    requires Quote(uiAmount, rateA, rateB, feeBps).Some?
    ensures rateB > 0 && feeBps <= 10_000
    ensures var out := Quote(uiAmount, rateA, rateB, feeBps).value;
      out <= MulDiv(uiAmount * rateA, 10_000 - feeBps, rateB * 10_000) <= out + 1
  {
    hide MulDiv, Quote;
    SwapPrice(uiAmount, rateA, rateB, feeBps);
    var out, d := Quote(uiAmount, rateA, rateB, feeBps).value, rateB * 10_000;
    var single := MulDiv(uiAmount * rateA, 10_000 - feeBps, d);
    MulDivMeaning(uiAmount * rateA, 10_000 - feeBps, d);
    assert out * rateB * 10_000 == out * d && (out + 2) * rateB * 10_000 == (out + 2) * d;
    if single < out {
      Scaled(single + 1, out, d);
    } else if single > out + 1 {
      Scaled(out + 2, single, d);
    }
  }

  lemma MulDivAtMost(n: nat, k: nat, d: nat)
    requires d > 0
    ensures MulDiv(n, k, d) <= n * k
  {
    hide MulDiv;
    MulDivMeaning(n, k, d);
    Scaled(1, d, MulDiv(n, k, d));
  }

  /** The intermediate products never overflow: a quote fails only on a zero rate, an impossible spread, or a final
      value that does not fit. */
  lemma QuoteFailsOnlyAtTheEnd(uiAmount: u64, rateA: u32, rateB: u32, feeBps: u16)
    ensures Quote(uiAmount, rateA, rateB, feeBps).None? <==>
      rateB == 0 || feeBps > 10_000 || MulDiv(MulDiv(uiAmount, rateA, rateB), 10_000 - feeBps, 10_000) > U64_MAX
  {
    hide MulDiv;
    Scaled(uiAmount, U64_MAX, rateA);
    Scaled(rateA, U32_MAX, U64_MAX);
    if rateB > 0 && feeBps <= 10_000 {
      var q := MulDiv(uiAmount, rateA, rateB);
      MulDivAtMost(uiAmount, rateA, rateB);
      Scaled(q, U64_MAX * U32_MAX, 10_000 - feeBps);
    }
  }

  // --------------------------------------------------------------- swaps in a row

  function Pow(b: nat, n: nat): nat {
    if n == 0 then 1 else b * Pow(b, n - 1)
  }

  /** Swapping the whole proceeds on from member to member, along their rates. */
  function Chain(ui: u64, rates: seq<u32>, feeBps: u16): Option<u64>
    requires |rates| > 0
    decreases |rates|
  {
    if |rates| == 1 then Some(ui)
    else match Quote(ui, rates[0], rates[1], feeBps)
      case None => None
      case Some(out) => Chain(out, rates[1..], feeBps)
  }

  lemma OneHop(out: nat, last: nat, p: nat, w: nat, pf: nat, v: nat, f: nat)
    requires out * last * p <= w * pf && w * 10_000 <= v * f
    ensures out * last * (10_000 * p) <= v * (f * pf)
  {
    Scaled(out * last * p, w * pf, 10_000);
    assert out * last * p * 10_000 == out * last * (10_000 * p);
    Scaled(w * 10_000, v * f, pf);
    assert w * pf * 10_000 == w * 10_000 * pf;
    assert v * f * pf == v * (f * pf);
  }

  /** Each of `n` hops keeps at most the fraction `(10_000 - fee) / 10_000` of the value at the members' rates. */
  lemma {:induction false} HopsShrink(ui: u64, rates: seq<u32>, feeBps: u16)
    requires |rates| > 0 && feeBps <= 10_000 && Chain(ui, rates, feeBps).Some?
    ensures var n := |rates| - 1;
      Chain(ui, rates, feeBps).value * rates[n] * Pow(10_000, n) <= ui * rates[0] * Pow(10_000 - feeBps, n)
    decreases |rates|
  {
    hide Quote;
    if |rates| > 1 {
      var o, n := Quote(ui, rates[0], rates[1], feeBps).value, |rates| - 1;
      HopsShrink(o, rates[1..], feeBps);
      SwapPrice(ui, rates[0], rates[1], feeBps);
      OneHop(Chain(ui, rates, feeBps).value, rates[n], Pow(10_000, n - 1), o * rates[1], Pow(10_000 - feeBps, n - 1),
             ui * rates[0], 10_000 - feeBps);
    }
  }

  lemma PowMonotone(a: nat, b: nat, n: nat)
    requires a <= b
    ensures Pow(a, n) <= Pow(b, n)
    ensures b > 0 ==> Pow(b, n) > 0
    ensures a < b && n > 0 ==> Pow(a, n) < Pow(b, n)
  {
    if n > 0 {
      PowMonotone(a, b, n - 1);
      Scaled(Pow(a, n - 1), Pow(b, n - 1), a);
      Scaled(a, b, Pow(b, n - 1));
    }
  }

  /** No cycle of swaps returns more UI value than it started with; with a spread, every cycle of positive value loses. */
  lemma NoProfitableCycle(ui: u64, rates: seq<u32>, feeBps: u16)
    requires |rates| > 1 && feeBps <= 10_000 && Chain(ui, rates, feeBps).Some?
    requires rates[0] == rates[|rates| - 1] > 0
    ensures Chain(ui, rates, feeBps).value <= ui
    ensures feeBps > 0 && ui > 0 ==> Chain(ui, rates, feeBps).value < ui
  {
    hide Chain;
    var n, r, out := |rates| - 1, rates[0], Chain(ui, rates, feeBps).value;
    HopsShrink(ui, rates, feeBps);
    PowMonotone(10_000 - feeBps, 10_000, n);
    CycleLoses(out, ui, r, Pow(10_000, n), Pow(10_000 - feeBps, n));
  }

  lemma CycleLoses(out: nat, ui: nat, r: nat, whole: nat, kept: nat)
    requires out * r * whole <= ui * r * kept && kept <= whole && r > 0 && whole > 0
    ensures out <= ui
    ensures kept < whole && ui > 0 ==> out < ui
  {
    Scaled(kept, whole, ui * r);
    assert ui * r * kept <= ui * r * whole;
    if out > ui {
      Scaled(ui * r, out * r, whole) by { Scaled(ui, out, r); }
      assert false;
    }
  }
}
