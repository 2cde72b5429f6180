/** The forecast assumption helpers: average growth, carry-forward with constant
    growth, constant share of a forecast driver, constant series, and the two
    helpers the forecast engine imports without their definitions being part of
    this model (days outstanding, equity roll-forward), modelled from their uses. */
module Transform {
  import opened Numeric
  import opened Series

  /** x[t] / x[t-1] - 1 for t >= 1, and NaN at the first period (`ser/ser.shift(1) - 1`). */
  function GrowthRatios(x: seq<Num>): (r: seq<Num>)
    ensures |r| == |x|
  {
    seq(|x|, t requires 0 <= t < |x| => if t == 0 then NaN else Sub(Div(x[t], x[t - 1]), Real(1.0)))
  }

  /** `mean_g`: the mean period-over-period growth rate, ignoring undefined ratios. */
  function MeanG(x: seq<Num>): (g: Num)
    ensures g.Real? ==> |x| >= 2
  {
    NanMean(GrowthRatios(x))
  }

  /** A two-period series [100, 110] has mean growth 10%. */
  lemma MeanGTwoPeriods()
    ensures MeanG([Real(100.0), Real(110.0)]) == Real(0.1)
  {
    var r := GrowthRatios([Real(100.0), Real(110.0)]);
    assert r == [NaN, Real(0.1)];
    NanMeanOfConstant(r, 0.1);
  }

  /** Period s is the previous period grown by r. */
  predicate GrowsBy(x: seq<Num>, s: nat, r: real)
    requires 1 <= s < |x|
  {
    x[s] == Mul(x[s - 1], Real(1.0 + r))
  }

  lemma {:induction false} GrowingNonZero(x: seq<Num>, r: real, t: nat)
    requires |x| > 0 && x[0].Real? && x[0].r != 0.0 && 1.0 + r != 0.0
    requires forall s :: 1 <= s < |x| ==> GrowsBy(x, s, r)
    requires t < |x|
    ensures x[t].Real? && x[t].r != 0.0
  {
    if t > 0 {
      GrowingNonZero(x, r, t - 1);
      assert GrowsBy(x, t, r);
    }
  }

  lemma GrowthRatioOfGrowing(x: seq<Num>, r: real, t: nat)
    requires |x| > 0 && x[0].Real? && x[0].r != 0.0 && 1.0 + r != 0.0
    requires forall s :: 1 <= s < |x| ==> GrowsBy(x, s, r)
    requires 1 <= t < |x|
    ensures GrowthRatios(x)[t] == Real(r)
  {
    GrowingNonZero(x, r, t - 1);
    var prev := x[t - 1].r;
    assert GrowsBy(x, t, r);
    assert x[t] == Real(prev * (1.0 + r));
    assert prev * (1.0 + r) == (1.0 + r) * prev;
    DivCancel(1.0 + r, prev);
  }

  /** A series that grows by exactly r every period has mean growth r. */
  lemma MeanGOfConstantGrowth(x: seq<Num>, r: real)
    requires |x| >= 2 && x[0].Real? && x[0].r != 0.0 && 1.0 + r != 0.0
    requires forall s :: 1 <= s < |x| ==> GrowsBy(x, s, r)
    ensures MeanG(x) == Real(r)
  {
    var ratios := GrowthRatios(x);
    forall t | 0 <= t < |x| && ratios[t].Real?
      ensures ratios[t].r == r
    {
      GrowthRatioOfGrowing(x, r, t);
    }
    GrowthRatioOfGrowing(x, r, 1);
    DefinedCountPositive(ratios, 1);
    NanMeanOfConstant(ratios, r);
  }

  lemma {:induction false} DefinedCountPositive(xs: seq<Num>, i: nat)
    requires i < |xs| && xs[i].Real?
    ensures DefinedCount(xs) > 0
  {
    if i > 0 {
      DefinedCountPositive(xs[1..], i - 1);
    }
  }

  /** `const_pandas_series`: `n` copies of one value (0.0 unless told otherwise). */
  function ConstSeries(n: nat, c: Num): (s: seq<Num>)
    ensures |s| == n
    ensures forall i :: 0 <= i < n ==> s[i] == c
  {
    seq(n, i => c)
  }

  /** `const_growth`: the value at the latest date, grown by (1+g)^k at forecast step k = 1..n. */
  function ConstGrowth(dates: seq<Date>, x: seq<Num>, g: Num, n: nat): (f: seq<Num>)
    requires |dates| == |x| > 0
    ensures |f| == n
  {
    var recent := x[LatestIndex(dates)];
    seq(n, k requires 0 <= k < n => Mul(recent, PowNum(Add(Real(1.0), g), k + 1)))
  }

  /** The first forecast is the latest value grown once, and each further
      forecast is the previous one grown once more. */
  lemma ConstGrowthStep(dates: seq<Date>, x: seq<Num>, g: Num, n: nat, k: nat)
    requires |dates| == |x| > 0 && k < n
    ensures k == 0 ==> ConstGrowth(dates, x, g, n)[0] == Mul(x[LatestIndex(dates)], Add(Real(1.0), g))
    ensures k > 0 ==> ConstGrowth(dates, x, g, n)[k] == Mul(ConstGrowth(dates, x, g, n)[k - 1], Add(Real(1.0), g))
  {
    var f := ConstGrowth(dates, x, g, n);
    var recent := x[LatestIndex(dates)];
    var b := Add(Real(1.0), g);
    assert f[k] == Mul(recent, PowNum(b, k + 1));
    assert k > 0 ==> f[k - 1] == Mul(recent, PowNum(b, k));
    if recent.Real? && b.Real? {
      if k == 0 {
        assert Pow(b.r, 1) == b.r;
      } else {
        calc {
          f[k].r;
          recent.r * Pow(b.r, k + 1);
          recent.r * (b.r * Pow(b.r, k));
          (recent.r * Pow(b.r, k)) * b.r;
        }
      }
    }
  }

  /** Step k (counting from 1) of `const_growth` is the latest value times (1+g)^k. */
  lemma {:induction false} ConstGrowthClosedForm(dates: seq<Date>, x: seq<Num>, g: real, n: nat, k: nat)
    requires |dates| == |x| > 0 && k < n
    ensures ConstGrowth(dates, x, Real(g), n)[k] == Mul(x[LatestIndex(dates)], Real(Pow(1.0 + g, k + 1)))
  {
    var f := ConstGrowth(dates, x, Real(g), n);
    var recent := x[LatestIndex(dates)];
    ConstGrowthStep(dates, x, Real(g), n, k);
    if k > 0 {
      ConstGrowthClosedForm(dates, x, g, n, k - 1);
      assert f[k] == Mul(f[k - 1], Real(1.0 + g));
      if recent.Real? {
        calc {
          f[k].r;
          (recent.r * Pow(1.0 + g, k)) * (1.0 + g);
          recent.r * ((1.0 + g) * Pow(1.0 + g, k));
        }
      }
    } else {
      assert Pow(1.0 + g, 1) == 1.0 + g;
    }
  }

  /** With zero growth every forecast period repeats the latest value (carry-forward). */
  lemma ConstGrowthCarryForward(dates: seq<Date>, x: seq<Num>, n: nat, k: nat)
    requires |dates| == |x| > 0 && k < n
    ensures ConstGrowth(dates, x, Real(0.0), n)[k] == x[LatestIndex(dates)]
  {
    ConstGrowthClosedForm(dates, x, 0.0, n, k);
    PowOne(k + 1);
  }

  /** The value carried forward is the one at the latest date, not at the last
      position: for dates given newest first it is the first entry. */
  lemma ConstGrowthUsesLatestDate(a: Num, b: Num)
    ensures ConstGrowth([20211231, 20201231], [a, b], Real(0.0), 1) == [a]
  {
    ConstGrowthCarryForward([20211231, 20201231], [a, b], 1, 0);
  }

  /** `const_share`: each entry of an already forecast driver times one share. */
  function ConstShare(fcast: seq<Num>, shr: Num): (s: seq<Num>)
    ensures |s| == |fcast|
  {
    Scaled(fcast, shr)
  }

  /** The share is recovered from any defined, non-zero entry of the driver, and
      a zero share gives zero wherever the driver is defined. */
  lemma ConstShareRecovers(fcast: seq<Num>, shr: Num, i: nat)
    requires i < |fcast|
    ensures fcast[i].Real? && fcast[i].r != 0.0 ==> Div(ConstShare(fcast, shr)[i], fcast[i]) == shr
    ensures shr == Real(0.0) ==> ConstShare(fcast, shr)[i] == (if fcast[i].Real? then Real(0.0) else NaN)
  {
    if fcast[i].Real? && fcast[i].r != 0.0 && shr.Real? {
      assert (fcast[i].r * shr.r) / fcast[i].r == shr.r;
    }
  }

  /** `days_outstanding(num, den, period)`: period * num / den in each period. */
  function DaysOutstanding(num: seq<Num>, den: seq<Num>, period: real): (d: seq<Num>)
    requires |num| == |den|
    ensures |d| == |num|
  {
    Scaled(Over(num, den), Real(period))
  }

  /** Dividing the days outstanding by the period gives back the plain ratio. */
  lemma DaysOutstandingRatio(num: seq<Num>, den: seq<Num>, period: real, t: nat)
    requires |num| == |den| && t < |num| && period != 0.0
    ensures Div(DaysOutstanding(num, den, period)[t], Real(period)) == Div(num[t], den[t])
  {
    var q := Div(num[t], den[t]);
    if q.Real? {
      assert (q.r * period) / period == q.r;
    }
  }

  /** The running balance start + flows[0] + ... + flows[k] for each k. */
  function RollForward(start: Num, flows: seq<Num>): (r: seq<Num>)
    ensures |r| == |flows|
    decreases |flows|
  {
    if flows == [] then [] else [Add(start, flows[0])] + RollForward(Add(start, flows[0]), flows[1..])
  }

  /** Each roll-forward balance is the previous balance plus the period's flow. */
  lemma {:induction false} RollForwardStep(start: Num, flows: seq<Num>, k: nat)
    requires k < |flows|
    ensures RollForward(start, flows)[k] == Add(if k == 0 then start else RollForward(start, flows)[k - 1], flows[k])
    decreases k
  {
    if k > 0 {
      RollForwardStep(Add(start, flows[0]), flows[1..], k - 1);
    }
  }

  /** `add_movement(te, ni)`: beginning equity, the value of `te` at its latest
      date, rolled forward by each forecast period's net income. */
  function AddMovement(dates: seq<Date>, te: seq<Num>, ni: seq<Num>): (r: seq<Num>)
    requires |dates| == |te| > 0
    ensures |r| == |ni|
  {
    RollForward(te[LatestIndex(dates)], ni)
  }
}
