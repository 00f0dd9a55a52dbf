/** Generalised advantage estimation over one client's column of transitions, in exact reals. */
module Gae {
  import opened Common
  import opened Transitions

  function Delta(x: Transition, gamma: real): real {
    x.reward + gamma * (if x.terminated then 0.0 else x.nextValue) - x.value
  }

  /** The recursion the backward loop runs, from the first transition of xs. */
  function Advantage(xs: seq<Transition>, gamma: real, gaeLambda: real): real {
    if xs == [] then 0.0
    else Delta(xs[0], gamma)
         + gamma * gaeLambda * (if Done(xs[0]) then 0.0 else 1.0) * Advantage(xs[1..], gamma, gaeLambda)
  }

  /** The backward loop over one column. */
  method BackwardPass(xs: seq<Transition>, gamma: real, gaeLambda: real, advantages: array2<real>,
                      column: nat)
    requires advantages.Length0 == |xs| && column < advantages.Length1
    modifies advantages
    ensures forall t :: 0 <= t < |xs| ==> advantages[t, column] == Advantage(xs[t..], gamma, gaeLambda)
    ensures forall t, c :: 0 <= t < |xs| && 0 <= c < advantages.Length1 && c != column ==>
              advantages[t, c] == old(advantages[t, c])
  {
    var nextAdvantage := 0.0;
    var step := |xs|;
    while step > 0
      invariant 0 <= step <= |xs|
      invariant nextAdvantage == Advantage(xs[step..], gamma, gaeLambda)
      invariant forall t :: step <= t < |xs| ==>
                  advantages[t, column] == Advantage(xs[t..], gamma, gaeLambda)
      invariant forall t, c :: 0 <= t < |xs| && 0 <= c < advantages.Length1 && c != column ==>
                  advantages[t, c] == old(advantages[t, c])
    {
      step := step - 1;
      var x := xs[step];
      var bootstrap := if x.terminated then 0.0 else x.nextValue;
      var delta := x.reward + gamma * bootstrap - x.value;
      var continuation := if Done(x) then 0.0 else 1.0;
      assert xs[step..][1..] == xs[step + 1..];
      nextAdvantage := delta + gamma * gaeLambda * continuation * nextAdvantage;
      advantages[step, column] := nextAdvantage;
    }
  }

  // ---------------------------------------------------------------- the closed form

  /** Steps up to and including the first done one. */
  function Horizon(xs: seq<Transition>): (n: nat)
    ensures n <= |xs|
    ensures forall k :: 0 <= k < n - 1 ==> !Done(xs[k])
    ensures n < |xs| ==> 0 < n && Done(xs[n - 1])
  {
    if xs == [] then 0 else if Done(xs[0]) then 1 else 1 + Horizon(xs[1..])
  }

  function Power(base: real, exponent: nat): real {
    if exponent == 0 then 1.0 else Power(base, exponent - 1) * base
  }

  /** The sum of (gamma * gaeLambda)^k * delta_k for k < n. */
  function DiscountedDeltas(xs: seq<Transition>, gamma: real, gaeLambda: real, n: nat): real
    requires n <= |xs|
  {
    if n == 0 then 0.0
    else DiscountedDeltas(xs, gamma, gaeLambda, n - 1)
         + Power(gamma * gaeLambda, n - 1) * Delta(xs[n - 1], gamma)
  }

  lemma {:induction false} PeelFirst(xs: seq<Transition>, gamma: real, gaeLambda: real, n: nat)
    requires 0 < n <= |xs|
    ensures DiscountedDeltas(xs, gamma, gaeLambda, n)
            == Delta(xs[0], gamma)
               + gamma * gaeLambda * DiscountedDeltas(xs[1..], gamma, gaeLambda, n - 1)
  {
    if n > 1 {
      PeelFirst(xs, gamma, gaeLambda, n - 1);
      var w, p, d := gamma * gaeLambda, Power(gamma * gaeLambda, n - 2), Delta(xs[n - 1], gamma);
      assert xs[1..][n - 2] == xs[n - 1];
      assert (p * w) * d == w * (p * d);
    }
  }

  /** The backward loop computes the discounted sum of deltas up to the first done step. */
  lemma {:induction false} ClosedForm(xs: seq<Transition>, gamma: real, gaeLambda: real)
    ensures Advantage(xs, gamma, gaeLambda) == DiscountedDeltas(xs, gamma, gaeLambda, Horizon(xs))
  {
    if xs != [] {
      PeelFirst(xs, gamma, gaeLambda, Horizon(xs));
      if !Done(xs[0]) {
        ClosedForm(xs[1..], gamma, gaeLambda);
      }
    }
  }

  // ---------------------------------------------------------------- episodes do not leak

  /** Advantages up to a done step are independent of everything after it. */
  lemma {:induction false} NothingLeaksAcrossDone(
      xs: seq<Transition>, ys: seq<Transition>, end: nat, t: nat, gamma: real, gaeLambda: real)
    requires end < |xs| && end < |ys| && xs[..end + 1] == ys[..end + 1]
    requires Done(xs[end]) && t <= end
    ensures Advantage(xs[t..], gamma, gaeLambda) == Advantage(ys[t..], gamma, gaeLambda)
    decreases end - t
  {
    assert xs[t] == xs[..end + 1][t] == ys[t];
    if t < end {
      assert xs[t..][1..] == xs[t + 1..] && ys[t..][1..] == ys[t + 1..];
      NothingLeaksAcrossDone(xs, ys, end, t + 1, gamma, gaeLambda);
    }
  }

  /** The deltas that count. */
  function Deltas(xs: seq<Transition>, gamma: real): (ds: seq<real>)
    ensures |ds| == Horizon(xs) && forall k :: 0 <= k < |ds| ==> ds[k] == Delta(xs[k], gamma)
  {
    seq(Horizon(xs), k requires 0 <= k < Horizon(xs) => Delta(xs[k], gamma))
  }

  function Accumulate(ds: seq<real>, w: real): real {
    if ds == [] then 0.0 else ds[0] + w * Accumulate(ds[1..], w)
  }

  lemma {:induction false} AdvantageAccumulates(xs: seq<Transition>, gamma: real, gaeLambda: real)
    ensures Advantage(xs, gamma, gaeLambda) == Accumulate(Deltas(xs, gamma), gamma * gaeLambda)
  {
    if xs != [] && !Done(xs[0]) {
      AdvantageAccumulates(xs[1..], gamma, gaeLambda);
      assert Deltas(xs, gamma)[1..] == Deltas(xs[1..], gamma);
    }
  }

  lemma Distribute(w: real, p: real, e: real, d: real, rest: real)
    ensures d + w * (rest + p * e) == d + w * rest + p * w * e
  {
  }

  /** What a change of the delta at step k weighs at step 0. */
  function Weighed(w: real, k: nat, before: real, after: real): real {
    Power(w, k) * (after - before)
  }

  /** Accumulating is linear in every delta. */
  lemma {:induction false} AccumulateIsLinear(ds: seq<real>, w: real, k: nat, d: real)
    requires k < |ds|
    ensures Accumulate(ds[k := d], w) == Accumulate(ds, w) + Weighed(w, k, ds[k], d)
  {
    var changed := ds[k := d];
    if k == 0 {
      assert changed[1..] == ds[1..];
      assert Power(w, 0) * (d - ds[0]) == d - ds[0];
    } else {
      AccumulateIsLinear(ds[1..], w, k - 1, d);
      assert changed[1..] == ds[1..][k - 1 := d];
      Distribute(w, Power(w, k - 1), d - ds[k], ds[0], Accumulate(ds[1..], w));
    }
  }

  /** Replacing a step by one that is done or not alike leaves the horizon alone. */
  lemma {:induction false} SameHorizon(xs: seq<Transition>, k: nat, x: Transition)
    requires k < |xs| && (Done(x) <==> Done(xs[k]))
    ensures Horizon(xs[k := x]) == Horizon(xs)
  {
    if k == 0 {
      assert xs[k := x][1..] == xs[1..];
    } else {
      assert xs[k := x][1..] == xs[1..][k - 1 := x];
      SameHorizon(xs[1..], k - 1, x);
    }
  }

  lemma ReplacedDeltas(xs: seq<Transition>, k: nat, x: Transition, gamma: real)
    requires k < |xs| && (Done(x) <==> Done(xs[k]))
    ensures var ds := Deltas(xs, gamma);
            Deltas(xs[k := x], gamma) == if Horizon(xs) <= k then ds else ds[k := Delta(x, gamma)]
  {
    SameHorizon(xs, k, x);
  }

  lemma ReplacedAdvantage(xs: seq<Transition>, k: nat, x: Transition, gamma: real, gaeLambda: real)
    requires k < |xs| && (Done(x) <==> Done(xs[k]))
    ensures Advantage(xs[k := x], gamma, gaeLambda)
            == Accumulate(if Horizon(xs) <= k then Deltas(xs, gamma)
                          else Deltas(xs, gamma)[k := Delta(x, gamma)], gamma * gaeLambda)
  {
    AdvantageAccumulates(xs[k := x], gamma, gaeLambda);
    ReplacedDeltas(xs, k, x, gamma);
  }

  /** How an advantage answers a change of step k: by the discounted change of its delta up to the
      first done step, and not at all beyond it. */
  lemma StepSensitivity(xs: seq<Transition>, k: nat, x: Transition, gamma: real, gaeLambda: real)
    requires k < |xs| && (Done(x) <==> Done(xs[k]))
    ensures Advantage(xs[k := x], gamma, gaeLambda)
            == Advantage(xs, gamma, gaeLambda)
               + if Horizon(xs) <= k then 0.0
                 else Weighed(gamma * gaeLambda, k, Delta(xs[k], gamma), Delta(x, gamma))
  {
    AdvantageAccumulates(xs, gamma, gaeLambda);
    ReplacedAdvantage(xs, k, x, gamma, gaeLambda);
    var ds, w := Deltas(xs, gamma), gamma * gaeLambda;
    if k < Horizon(xs) {
      AccumulateIsLinear(ds, w, k, Delta(x, gamma));
    }
  }

  lemma BootstrapWeighed(x: Transition, k: nat, v: real, gamma: real, w: real)
    ensures Weighed(w, k, Delta(x, gamma), Delta(x.(nextValue := v), gamma))
            == if x.terminated then 0.0 else Power(w, k) * (gamma * (v - x.nextValue))
  {
    assert gamma * (v - x.nextValue) == gamma * v - gamma * x.nextValue;
  }

  /** A termination drops the bootstrap value; a truncation, like any other step, keeps it. */
  lemma BootstrapSensitivity(xs: seq<Transition>, k: nat, v: real, gamma: real, gaeLambda: real)
    requires k < Horizon(xs)
    ensures Advantage(xs[k := xs[k].(nextValue := v)], gamma, gaeLambda)
            == Advantage(xs, gamma, gaeLambda)
               + if xs[k].terminated then 0.0
                 else Power(gamma * gaeLambda, k) * (gamma * (v - xs[k].nextValue))
  {
    StepSensitivity(xs, k, xs[k].(nextValue := v), gamma, gaeLambda);
    BootstrapWeighed(xs[k], k, v, gamma, gamma * gaeLambda);
  }

  // ---------------------------------------------------------------- gaeLambda = 1

  /** Rewards discounted up to the first done step, plus the discounted bootstrap of the last step
      counted, unless that step terminated. */
  function DiscountedReturn(xs: seq<Transition>, gamma: real): real {
    if xs == [] then 0.0
    else
      xs[0].reward
      + gamma * (if xs[0].terminated then 0.0
                 else if xs[0].truncated || |xs| == 1 then xs[0].nextValue
                 else DiscountedReturn(xs[1..], gamma))
  }

  /** With gaeLambda = 1 and next values that are the next step's values, values cancel. */
  lemma {:induction false} LambdaOneTelescopes(xs: seq<Transition>, gamma: real)
    requires xs != []
    requires forall k :: 0 <= k < Horizon(xs) - 1 ==> xs[k].nextValue == xs[k + 1].value
    ensures Advantage(xs, gamma, 1.0) + xs[0].value == DiscountedReturn(xs, gamma)
  {
    if !Done(xs[0]) && |xs| > 1 {
      var rest := xs[1..];
      forall k | 0 <= k < Horizon(rest) - 1 ensures rest[k].nextValue == rest[k + 1].value {
        assert xs[k + 1].nextValue == xs[k + 2].value;
      }
      LambdaOneTelescopes(rest, gamma);
      assert xs[0].nextValue == xs[1].value;
      var a := Advantage(rest, gamma, 1.0);
      assert gamma * 1.0 * 1.0 * a == gamma * a;
      assert gamma * (a + rest[0].value) == gamma * a + gamma * rest[0].value;
    } else if !Done(xs[0]) {
      assert Advantage(xs[1..], gamma, 1.0) == 0.0;
    }
  }

  // ---------------------------------------------------------------- size

  lemma Scale(w: real, x: real, y: real)
    requires 0.0 <= w && x <= y
    ensures w * x <= w * y
  {
  }

  lemma AbsStep(d: real, w: real, a: real, bound: real)
    requires 0.0 <= w <= 1.0 && Abs(d) <= bound && Abs(a) * (1.0 - w) <= bound
    ensures Abs(d + w * a) * (1.0 - w) <= bound
  {
    var r, u, m := Abs(d + w * a), 1.0 - w, Abs(a);
    Scale(w, a, m);
    Scale(w, -a, m);
    assert w * -a == -(w * a);
    Scale(u, r, bound + w * m);
    Scale(w, m * u, bound);
    calc {
      r * u;
      <= u * (bound + w * m);
      == u * bound + w * (m * u);
      <= u * bound + w * bound;
      == bound;
    }
  }

  /** |a| <= bound / (1 - w), also for w = 1. */
  predicate Within(a: real, w: real, bound: real) {
    Abs(a) * (1.0 - w) <= bound
  }

  lemma WithinStep(ds: seq<real>, w: real, bound: real)
    requires 0.0 <= w <= 1.0 && ds != [] && Abs(ds[0]) <= bound
    requires Within(Accumulate(ds[1..], w), w, bound)
    ensures Within(Accumulate(ds, w), w, bound)
  {
    AbsStep(ds[0], w, Accumulate(ds[1..], w), bound);
  }

  lemma WithinZero(w: real, bound: real)
    requires 0.0 <= bound
    ensures Within(0.0, w, bound)
  {
  }

  lemma {:induction false} AccumulateIsBounded(ds: seq<real>, w: real, bound: real)
    requires 0.0 <= w <= 1.0 && 0.0 <= bound
    requires forall k :: 0 <= k < |ds| ==> Abs(ds[k]) <= bound
    ensures Within(Accumulate(ds, w), w, bound)
  {
    if ds == [] {
      WithinZero(w, bound);
    } else {
      AccumulateIsBounded(ds[1..], w, bound);
      WithinStep(ds, w, bound);
    }
  }

  /** Bounded deltas give bounded advantages, without dividing by 1 - gamma * gaeLambda. */
  lemma AdvantageIsBounded(xs: seq<Transition>, gamma: real, gaeLambda: real, bound: real)
    requires 0.0 <= gamma * gaeLambda <= 1.0 && 0.0 <= bound
    requires forall k :: 0 <= k < |Deltas(xs, gamma)| ==> Abs(Deltas(xs, gamma)[k]) <= bound
    ensures Within(Advantage(xs, gamma, gaeLambda), gamma * gaeLambda, bound)
  {
    AdvantageAccumulates(xs, gamma, gaeLambda);
    AccumulateIsBounded(Deltas(xs, gamma), gamma * gaeLambda, bound);
  }
}
