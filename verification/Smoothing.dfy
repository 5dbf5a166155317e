/** Exponential smoothing of one coordinate over the accepted measurements. */
module Smoothing {

  predicate Factor(alpha: real) { 0.0 < alpha <= 1.0 }

  function Blend(previous: real, measurement: real, alpha: real): real {
    (1.0 - alpha) * previous + alpha * measurement
  }

  /** The first measurement as it is, each later one blended in. */
  function Smooth(ms: seq<real>, alpha: real): real
    requires ms != []
  {
    var n := |ms| - 1;
    if n == 0 then ms[0] else Blend(Smooth(ms[..n], alpha), ms[n], alpha)
  }

  function Pow(x: real, n: nat): real { if n == 0 then 1.0 else x * Pow(x, n - 1) }

  /** The weight of measurement i after n of them: it fades with every later one. */
  function Weight(n: nat, i: nat, alpha: real): real
    requires i < n
  {
    if n == i + 1 then (if i == 0 then 1.0 else alpha) else Times(1.0 - alpha, Weight(n - 1, i, alpha))
  }

  function Times(x: real, y: real): real { x * y }

  /** The first k terms of the weighted sum of n measurements. */
  function WeightedSum(ms: seq<real>, n: nat, k: nat, alpha: real): real
    requires k <= n && k <= |ms|
  {
    if k == 0 then 0.0 else WeightedSum(ms, n, k - 1, alpha) + Times(Weight(n, k - 1, alpha), ms[k - 1])
  }

  lemma {:induction false} WeightClosed(n: nat, i: nat, alpha: real)
    requires i < n
    ensures Weight(n, i, alpha) == (if i == 0 then 1.0 else alpha) * Pow(1.0 - alpha, n - 1 - i)
  {
    if n > i + 1 {
      WeightClosed(n - 1, i, alpha);
      var c, p := if i == 0 then 1.0 else alpha, Pow(1.0 - alpha, n - 2 - i);
      assert (1.0 - alpha) * (c * p) == c * ((1.0 - alpha) * p);
    }
  }

  lemma ScaleTerm(r: real, rest: real, w: real, m: real, rest': real, w': real)
    requires rest' == r * rest && w' == r * w
    ensures rest' + w' * m == r * (rest + w * m)
  {
    assert (r * w) * m == r * (w * m);
  }

  lemma {:induction false} Rescale(ms: seq<real>, n: nat, k: nat, alpha: real)
    requires k <= n && k <= |ms|
    ensures WeightedSum(ms, n + 1, k, alpha) == (1.0 - alpha) * WeightedSum(ms, n, k, alpha)
  {
    if k > 0 {
      Rescale(ms, n, k - 1, alpha);
      ScaleTerm(1.0 - alpha, WeightedSum(ms, n, k - 1, alpha), Weight(n, k - 1, alpha), ms[k - 1],
                WeightedSum(ms, n + 1, k - 1, alpha), Weight(n + 1, k - 1, alpha));
    }
  }

  lemma {:induction false} SumOfPrefix(ms: seq<real>, n: nat, k: nat, alpha: real)
    requires k <= n && k <= |ms| - 1
    ensures WeightedSum(ms[..|ms| - 1], n, k, alpha) == WeightedSum(ms, n, k, alpha)
  {
    if k > 0 { SumOfPrefix(ms, n, k - 1, alpha); }
  }

  /** The fold is the closed-form weighted sum with weights (1-a)^(n-1) for the
      first measurement and a (1-a)^(n-1-i) for the others. */
  lemma {:induction false} ClosedForm(ms: seq<real>, alpha: real)
    requires ms != []
    ensures Smooth(ms, alpha) == WeightedSum(ms, |ms|, |ms|, alpha)
  {
    var n := |ms| - 1;
    if n == 0 {
      assert WeightedSum(ms, 1, 0, alpha) == 0.0;
    } else {
      ClosedForm(ms[..n], alpha);
      SumOfPrefix(ms, n, n, alpha);
      Rescale(ms, n, n, alpha);
      assert Weight(n + 1, n, alpha) == alpha;
    }
  }

  /** The weights add up to one: smoothing a constant gives the constant. */
  lemma {:induction false} ConstantIsFixed(c: real, n: nat, alpha: real)
    requires n > 0
    ensures Smooth(seq(n, _ => c), alpha) == c
  {
    var ms := seq(n, _ => c);
    if n > 1 {
      ConstantIsFixed(c, n - 1, alpha);
      assert ms[..n - 1] == seq(n - 1, _ => c);
    }
  }

  lemma WeightsSumToOne(n: nat, alpha: real)
    requires n > 0
    ensures WeightedSum(seq(n, _ => 1.0), n, n, alpha) == 1.0
  {
    ConstantIsFixed(1.0, n, alpha);
    ClosedForm(seq(n, _ => 1.0), alpha);
  }

  /** The result never leaves the range of the accepted measurements. */
  lemma {:induction false} StaysInRange(ms: seq<real>, alpha: real, lo: real, hi: real)
    requires ms != [] && Factor(alpha)
    requires forall i :: 0 <= i < |ms| ==> lo <= ms[i] <= hi
    ensures lo <= Smooth(ms, alpha) <= hi
  {
    var n := |ms| - 1;
    if n > 0 {
      StaysInRange(ms[..n], alpha, lo, hi);
      BlendInRange(Smooth(ms[..n], alpha), ms[n], alpha, lo, hi);
    }
  }

  lemma BlendInRange(p: real, m: real, alpha: real, lo: real, hi: real)
    requires Factor(alpha) && lo <= p <= hi && lo <= m <= hi
    ensures lo <= Blend(p, m, alpha) <= hi
  {
    assert (1.0 - alpha) * (p - lo) >= 0.0 && (1.0 - alpha) * (hi - p) >= 0.0;
    assert alpha * (m - lo) >= 0.0 && alpha * (hi - m) >= 0.0;
  }

  lemma {:induction false} StaysPositive(ms: seq<real>, alpha: real)
    requires ms != [] && Factor(alpha)
    requires forall i :: 0 <= i < |ms| ==> ms[i] > 0.0
    ensures Smooth(ms, alpha) > 0.0
  {
    var n := |ms| - 1;
    if n > 0 {
      StaysPositive(ms[..n], alpha);
      var p := Smooth(ms[..n], alpha);
      assert (1.0 - alpha) * p >= 0.0 && alpha * ms[n] > 0.0;
    }
  }

  function Repeat(c: real, k: nat): (r: seq<real>)
    ensures |r| == k
  {
    seq(k, _ => c)
  }

  /** What k updates leave of an error. */
  function Decay(e: real, k: nat, alpha: real): real {
    if k == 0 then e else Times(1.0 - alpha, Decay(e, k - 1, alpha))
  }

  lemma {:induction false} DecayIsPower(e: real, k: nat, alpha: real)
    ensures Decay(e, k, alpha) == Pow(1.0 - alpha, k) * e
  {
    if k > 0 {
      DecayIsPower(e, k - 1, alpha);
      var p := Pow(1.0 - alpha, k - 1);
      assert (1.0 - alpha) * (p * e) == (1.0 - alpha) * p * e;
    }
  }

  lemma BlendError(s: real, c: real, alpha: real)
    ensures Blend(s, c, alpha) - c == Times(1.0 - alpha, s - c)
  {
  }

  /** Under a constant measurement the error decays by exactly 1 - alpha per update. */
  lemma {:induction false} ErrorDecays(ms: seq<real>, c: real, k: nat, alpha: real)
    requires ms != []
    ensures Smooth(ms + Repeat(c, k), alpha) - c == Decay(Smooth(ms, alpha) - c, k, alpha)
  {
    if k == 0 {
      assert ms + Repeat(c, 0) == ms;
    } else {
      var before, after := ms + Repeat(c, k - 1), ms + Repeat(c, k);
      assert after[..|after| - 1] == before && after[|after| - 1] == c;
      ErrorDecays(ms, c, k - 1, alpha);
      BlendError(Smooth(before, alpha), c, alpha);
    }
  }
}
