/** Discounted-cash-flow valuation of a built financial statement: the CAPM
    cost of equity, the cost of debt, the weighted average cost of capital, the
    present value of the forecast unlevered free cash flows plus a Gordon-growth
    continuing value, the bridge from enterprise value to equity value, and the
    grid of enterprise values over candidate discount and growth rates. */
module Valuation {
  import opened Numeric
  import opened Series
  import opened Wrappers
  import opened Income
  import opened Balance
  import opened Cashflow
  import opened Statement

  // Cost of capital.

  /** `calc_cost_of_equity`: the CAPM line through the risk-free rate (beta 0)
      and the market return (beta 1). */
  function CostOfEquity(rf: real, beta: real, market: real): (ke: real)
    ensures beta == 0.0 ==> ke == rf
    ensures beta == 1.0 ==> ke == market
  {
    rf + beta * (market - rf)
  }

  /** For a beta between 0 and 1 the cost of equity lies between the risk-free
      rate and the market return, and it grows with beta when the market pays
      a premium over the risk-free rate. */
  lemma CostOfEquityBetween(rf: real, beta: real, beta2: real, market: real)
    requires 0.0 <= beta <= 1.0 && rf <= market
    ensures rf <= CostOfEquity(rf, beta, market) <= market
    ensures rf < market && beta < beta2 ==> CostOfEquity(rf, beta, market) < CostOfEquity(rf, beta2, market)
  {
    var m := market - rf;
    MulNonNeg(beta, m);
    MulNonNeg(1.0 - beta, m);
    assert beta * m == m - (1.0 - beta) * m;
    if rf < market && beta < beta2 {
      MulPos(beta2 - beta, m);
      SplitProduct(beta, beta2 - beta, m);
      assert CostOfEquity(rf, beta, market) == rf + beta * m;
      assert CostOfEquity(rf, beta2, market) == rf + beta * m + (beta2 - beta) * m;
      assert CostOfEquity(rf, beta, market) < CostOfEquity(rf, beta2, market);
    }
  }

  /** `calc_cost_of_debt`, as its documentation describes it: per period, the
      interest expense over the total financial liability. A zero or undefined
      liability gives an undefined cost. */
  function CostOfDebt(fs: FinancialStatement): (kd: seq<Num>)
    requires fs.income.Aligned() && fs.balance.Aligned() && fs.income.dates == fs.balance.dates
    ensures |kd| == |fs.income.dates|
    ensures forall t :: 0 <= t < |kd| ==>
              (kd[t].Real? <==> fs.income.intExpense[t].Real? && fs.balance.financialLiability.total[t].Real? &&
                                fs.balance.financialLiability.total[t].r != 0.0)
    ensures forall t :: 0 <= t < |kd| && kd[t].Real? ==>
              kd[t].r * fs.balance.financialLiability.total[t].r == fs.income.intExpense[t].r
  {
    Over(fs.income.intExpense, fs.balance.financialLiability.total)
  }

  /** `calc_wacc`: the cost of debt after tax and the cost of equity, weighted
      by the shares of debt and equity in the capital. With no capital at all
      the weights are undefined (Python's float division raises). */
  function Wacc(debt: real, equity: real, taxRate: real, kd: real, ke: real): (w: Option<real>)
    ensures w.Some? <==> debt + equity != 0.0
    ensures w.Some? ==> w.value * (debt + equity) == debt * (1.0 - taxRate) * kd + equity * ke
  {
    if debt + equity == 0.0 then None
    else
      var total := debt + equity;
      Some((debt / total) * (1.0 - taxRate) * kd + (equity / total) * ke)
  }

  /** The two weights sum to one; an all-equity firm pays the cost of equity
      and an all-debt firm the cost of debt after tax. */
  lemma WaccWeights(debt: real, equity: real, taxRate: real, kd: real, ke: real)
    requires debt + equity != 0.0
    ensures debt / (debt + equity) + equity / (debt + equity) == 1.0
    ensures debt == 0.0 ==> Wacc(debt, equity, taxRate, kd, ke) == Some(ke)
    ensures equity == 0.0 ==> Wacc(debt, equity, taxRate, kd, ke) == Some((1.0 - taxRate) * kd)
  {
    var total := debt + equity;
    assert debt / total + equity / total == (debt + equity) / total;
    var w := Wacc(debt, equity, taxRate, kd, ke).value;
    assert w == (debt / total) * (1.0 - taxRate) * kd + (equity / total) * ke;
    if equity == 0.0 {
      assert debt / total == 1.0 && equity / total == 0.0;
      assert w == 1.0 * (1.0 - taxRate) * kd + 0.0 * ke;
      assert w == (1.0 - taxRate) * kd;
    }
    if debt == 0.0 {
      assert equity / total == 1.0 && debt / total == 0.0;
    }
  }

  /** With non-negative debt and equity the WACC lies between the cost of debt
      after tax and the cost of equity. */
  lemma WaccBetween(debt: real, equity: real, taxRate: real, kd: real, ke: real)
    requires debt >= 0.0 && equity >= 0.0 && debt + equity > 0.0
    ensures var w := Wacc(debt, equity, taxRate, kd, ke).value;
            var after := (1.0 - taxRate) * kd;
            (after <= ke ==> after <= w <= ke) && (ke <= after ==> ke <= w <= after)
  {
    var total := debt + equity;
    var wd := debt / total;
    var we := equity / total;
    WaccWeights(debt, equity, taxRate, kd, ke);
    assert wd * (1.0 - taxRate) * kd == wd * ((1.0 - taxRate) * kd);
    Convex(wd, we, (1.0 - taxRate) * kd, ke);
  }

  /** A weighted average with non-negative weights summing to one lies between
      the two values averaged. */
  lemma Convex(wa: real, wb: real, a: real, b: real)
    requires wa >= 0.0 && wb >= 0.0 && wa + wb == 1.0
    ensures a <= b ==> a <= wa * a + wb * b <= b
    ensures b <= a ==> b <= wa * a + wb * b <= a
  {
    assert wa * a + wb * b - a == wb * (b - a);
    assert b - (wa * a + wb * b) == wa * (b - a);
    if a <= b {
      MulNonNeg(wb, b - a);
      MulNonNeg(wa, b - a);
    } else {
      MulNonNeg(wb, a - b);
      MulNonNeg(wa, a - b);
    }
  }

  lemma MulNonNeg(a: real, b: real)
    requires a >= 0.0 && b >= 0.0
    ensures a * b >= 0.0
  {
  }

  lemma SplitProduct(a: real, b: real, m: real)
    ensures (a + b) * m == a * m + b * m
  {
  }

  lemma MulPos(a: real, b: real)
    requires a > 0.0 && b > 0.0
    ensures a * b > 0.0
  {
  }

  // Discounting.

  /** The discount factor of the k-th forecast period, 1/(1+wacc)^k; undefined
      when 1 + wacc is zero. */
  function DiscountFactor(wacc: real, k: nat): Num
  {
    Div(Real(1.0), Real(Pow(1.0 + wacc, k)))
  }

  /** The discount factors of N forecast periods, counted from 1. */
  function DiscountFactors(wacc: real, n: nat): (d: seq<Num>)
    ensures |d| == n
  {
    seq(n, k requires 0 <= k < n => DiscountFactor(wacc, k + 1))
  }

  /** The first period is already discounted once, and each further period
      once more: for a positive rate the factors lie in (0, 1) and strictly
      decrease. */
  lemma DiscountFactorsDecrease(wacc: real, n: nat, k: nat)
    requires wacc > 0.0 && k < n
    ensures var d := DiscountFactors(wacc, n);
            d[k].Real? && 0.0 < d[k].r < 1.0 &&
            (k == 0 ==> d[0].r * (1.0 + wacc) == 1.0) &&
            (k + 1 < n ==> d[k + 1].Real? && d[k + 1].r < d[k].r && d[k + 1].r * (1.0 + wacc) == d[k].r)
  {
    var x := 1.0 + wacc;
    PowPositive(x, k);
    PowGreater(x, k + 1);
    var p := Pow(x, k + 1);
    assert p == x * Pow(x, k);
    assert 1.0 / p < 1.0;
    if k + 1 < n {
      var q := Pow(x, k + 2);
      assert q == x * p;
      assert (1.0 / q) * x == 1.0 / p;
      assert 1.0 / q < 1.0 / p;
    }
  }

  /** Powers of a number above one with a positive exponent are above one. */
  lemma {:induction false} PowGreater(x: real, k: nat)
    requires x > 1.0 && k > 0
    ensures Pow(x, k) > 1.0
  {
    if k > 1 {
      PowGreater(x, k - 1);
      assert Pow(x, k) == x * Pow(x, k - 1);
      assert x * Pow(x, k - 1) > 1.0 * Pow(x, k - 1);
    }
  }

  /** The value today of a stream of cash flows, one period apart and the first
      one period away: the next cash flow plus the value of the rest, discounted
      by one period. Undefined cash flows count as zero. */
  function PresentValue(u: seq<Num>, wacc: real): real
    requires 1.0 + wacc != 0.0
  {
    if u == [] then 0.0
    else ((if u[0].Real? then u[0].r else 0.0) + PresentValue(u[1..], wacc)) / (1.0 + wacc)
  }

  function Discounted(u: seq<Num>, wacc: real, s: nat): seq<Num>
  {
    seq(|u|, k requires 0 <= k < |u| => Mul(u[k], DiscountFactor(wacc, s + k + 1)))
  }

  /** a, compounded k periods at the gross rate x, grows to b. */
  predicate Compounds(a: real, x: real, k: nat, b: real)
  {
    a * Pow(x, k) == b
  }

  /** Cash flows starting s periods later are worth the present value
      discounted s more times. */
  lemma {:induction false} DiscountedSum(u: seq<Num>, wacc: real, s: nat)
    requires 1.0 + wacc != 0.0
    ensures Compounds(DefinedSum(Discounted(u, wacc, s)), 1.0 + wacc, s, PresentValue(u, wacc))
    decreases |u|
  {
    if u != [] {
      DiscountedSum(u[1..], wacc, s + 1);
      DiscountedHead(u, wacc, s);
      StepBackPow(wacc, s, DefinedSum(Discounted(u, wacc, s)), DefinedSum(Discounted(u[1..], wacc, s + 1)),
                  if u[0].Real? then u[0].r else 0.0, PresentValue(u[1..], wacc));
    }
  }

  lemma StepBackPow(wacc: real, s: nat, sd: real, r: real, x0: real, pv1: real)
    requires 1.0 + wacc != 0.0
    requires Compounds(sd - r, 1.0 + wacc, s + 1, x0)
    requires Compounds(r, 1.0 + wacc, s + 1, pv1)
    ensures Compounds(sd, 1.0 + wacc, s, (x0 + pv1) / (1.0 + wacc))
  {
    var x := 1.0 + wacc;
    assert Pow(x, s + 1) == x * Pow(x, s);
    StepBack(x, Pow(x, s), Pow(x, s + 1), sd, r, x0, pv1);
  }

  /** The first cash flow, discounted s + 1 times, and the discounted rest. */
  lemma DiscountedHead(u: seq<Num>, wacc: real, s: nat)
    requires 1.0 + wacc != 0.0 && u != []
    ensures Compounds(DefinedSum(Discounted(u, wacc, s)) - DefinedSum(Discounted(u[1..], wacc, s + 1)), 1.0 + wacc, s + 1,
                      if u[0].Real? then u[0].r else 0.0)
  {
    var x := 1.0 + wacc;
    var d := Discounted(u, wacc, s);
    var p1 := Pow(x, s + 1);
    PowNonZero(x, s + 1);
    var x0 := if u[0].Real? then u[0].r else 0.0;
    var h := x0 * (1.0 / p1);
    assert DefinedSum(d) - DefinedSum(Discounted(u[1..], wacc, s + 1)) == h by {
      assert d[1..] == Discounted(u[1..], wacc, s + 1);
      assert (if d[0].Real? then d[0].r else 0.0) == h by {
        assert DiscountFactor(wacc, s + 1) == Real(1.0 / p1);
      }
    }
    assert Compounds(h, x, s + 1, x0) by {
      Cancel(x0, p1);
    }
  }

  /** Moving one period back: what is worth x0 + pv1 one period later. */
  lemma StepBack(x: real, p: real, p1: real, sd: real, r: real, x0: real, pv1: real)
    requires x != 0.0
    requires p1 == x * p
    requires (sd - r) * p1 == x0
    requires r * p1 == pv1
    ensures sd * p == (x0 + pv1) / x
  {
    Distribute(sd - r, r, p1);
    assert sd * p1 == x0 + pv1;
    assert (sd * p) * x == sd * p1;
    DivOfMul(sd * p, x, x0 + pv1);
  }

  lemma DivOfMul(a: real, x: real, b: real)
    requires x != 0.0 && a * x == b
    ensures a == b / x
  {
  }

  lemma Distribute(a: real, b: real, c: real)
    ensures (a + b) * c == a * c + b * c
  {
  }

  lemma Cancel(a: real, q: real)
    requires q != 0.0
    ensures a * (1.0 / q) * q == a
  {
  }

  /** The discounted sum of the cash flows is their present value, computed
      period by period from the last one back. */
  lemma PresentValueOfStream(u: seq<Num>, wacc: real)
    requires 1.0 + wacc != 0.0
    ensures DefinedSum(Times(u, DiscountFactors(wacc, |u|))) == PresentValue(u, wacc)
  {
    assert Times(u, DiscountFactors(wacc, |u|)) == Discounted(u, wacc, 0);
    DiscountedSum(u, wacc, 0);
    assert Pow(1.0 + wacc, 0) == 1.0;
  }

  // The valuation.

  /** `DCFValuation`: the figures computed by the constructor. */
  datatype Dcf = Dcf(
    wacc: real, g: real,
    pvUfcf: Num, pvUfcfShr: Num, contVal: Num, pvContVal: Num, pvContValShr: Num,
    entVal: Num, totFinLiab: Num, cash: Num, equity: Num)

  predicate WellFormed(fs: FinancialStatement)
  {
    fs.cash.Aligned() && fs.balance.Aligned()
  }

  /** The unlevered free cash flows at the forecast dates, looked up by date. */
  function ForecastUfcf(fs: FinancialStatement): Option<seq<Num>>
    requires WellFormed(fs)
  {
    Select(fs.cash.dates, fs.cash.ufcf, fs.forecastDates)
  }

  function LastActual(fs: FinancialStatement): Date
    requires |fs.actualDates| > 0
  {
    fs.actualDates[|fs.actualDates| - 1]
  }

  /** What the constructor needs of the statement: every forecast date has a
      cash flow, there is at least one forecast and one actual date, and the
      last actual date is on the balance sheet. */
  predicate Valuable(fs: FinancialStatement)
    requires WellFormed(fs)
  {
    (forall k :: 0 <= k < |fs.forecastDates| ==> fs.forecastDates[k] in fs.cash.dates) &&
    |fs.forecastDates| > 0 && |fs.actualDates| > 0 && LastActual(fs) in fs.balance.dates
  }

  /** The figures of a valuation from the forecast cash flows and the financial
      liabilities and cash of the last actual balance sheet. */
  function Figures(wacc: real, g: real, u: seq<Num>, debt: Num, cash: Num): (v: Dcf)
    requires |u| > 0
    ensures v.wacc == wacc && v.g == g
  {
    var n := |u|;
    var discount := DiscountFactors(wacc, n);
    var pv := Real(DefinedSum(Times(u, discount)));
    var cont := Div(Mul(u[n - 1], Real(1.0 + g)), Real(wacc - g));
    var pvCont := Mul(cont, discount[n - 1]);
    var ent := Add(pv, pvCont);
    var finLiab := Neg(debt);
    Dcf(wacc, g, pv, Div(pv, ent), cont, pvCont, Div(pvCont, ent), ent, finLiab, cash, Add(Add(ent, finLiab), cash))
  }

  /** The position of the last actual date on the balance sheet. */
  function LastActualIndex(fs: FinancialStatement): (i: nat)
    requires WellFormed(fs) && Valuable(fs)
    ensures i < |fs.balance.dates| && fs.balance.dates[i] == LastActual(fs)
  {
    IndexOf(fs.balance.dates, LastActual(fs)).value
  }

  /** `DCFValuation.__init__`: discount the forecast cash flows, add the
      discounted continuing value, and bridge to equity value with the debt and
      cash of the last actual balance sheet. Each failure is reported in the
      order the constructor meets it. */
  function Valuate(wacc: real, g: real, fs: FinancialStatement): (r: Result<Dcf>)
    requires WellFormed(fs)
    ensures r.Ok? <==> Valuable(fs)
    ensures (exists k :: 0 <= k < |fs.forecastDates| && fs.forecastDates[k] !in fs.cash.dates) ==>
              r == Err(MissingDate)
    ensures (forall k :: 0 <= k < |fs.forecastDates| ==> fs.forecastDates[k] in fs.cash.dates) ==>
              (|fs.forecastDates| == 0 ==> r == Err(EmptyForecast)) &&
              (|fs.forecastDates| > 0 && |fs.actualDates| == 0 ==> r == Err(EmptyHistory)) &&
              (|fs.forecastDates| > 0 && |fs.actualDates| > 0 && LastActual(fs) !in fs.balance.dates ==>
                 r == Err(MissingDate))
    ensures r.Ok? ==>
              var i := LastActualIndex(fs);
              r.value == Figures(wacc, g, ForecastUfcf(fs).value, fs.balance.financialLiability.total[i],
                                 fs.balance.cash[i])
  {
    match ForecastUfcf(fs)
    case None => Err(MissingDate)
    case Some(u) =>
      if |u| == 0 then Err(EmptyForecast)
      else if |fs.actualDates| == 0 then Err(EmptyHistory)
      else match IndexOf(fs.balance.dates, LastActual(fs))
        case None => Err(MissingDate)
        case Some(i) => Ok(Figures(wacc, g, u, fs.balance.financialLiability.total[i], fs.balance.cash[i]))
  }

  /** The present value of the forecast cash flows is their value today
      discounted period by period at the WACC. */
  lemma FiguresPresentValue(wacc: real, g: real, u: seq<Num>, debt: Num, cash: Num)
    requires |u| > 0 && 1.0 + wacc != 0.0
    ensures Figures(wacc, g, u, debt, cash).pvUfcf == Real(PresentValue(u, wacc))
  {
    PresentValueOfStream(u, wacc);
  }

  /** The continuing value is the Gordon-growth perpetuity of the last forecast
      cash flow, undefined when the WACC equals the growth rate, and it is
      discounted as often as the last forecast period. */
  lemma FiguresContinuingValue(wacc: real, g: real, u: seq<Num>, debt: Num, cash: Num)
    requires |u| > 0
    ensures var v := Figures(wacc, g, u, debt, cash);
            var n := |u|;
            (wacc == g ==> v.contVal == NaN && v.entVal == NaN && v.equity == NaN) &&
            (wacc != g && u[n - 1].Real? ==>
               v.contVal.Real? && v.contVal.r * (wacc - g) == u[n - 1].r * (1.0 + g)) &&
            (v.contVal.Real? && 1.0 + wacc != 0.0 ==>
               v.pvContVal.Real? && v.pvContVal.r * Pow(1.0 + wacc, n) == v.contVal.r)
  {
    var v := Figures(wacc, g, u, debt, cash);
    var n := |u|;
    if v.contVal.Real? && 1.0 + wacc != 0.0 {
      PowNonZero(1.0 + wacc, n);
      var p := Pow(1.0 + wacc, n);
      assert DiscountFactors(wacc, n)[n - 1] == Real(1.0 / p);
      assert v.pvContVal.r == v.contVal.r * (1.0 / p);
    }
  }

  /** Equity value is enterprise value less the financial liabilities plus the
      cash; enterprise value is the present value of the forecast plus that of
      the continuing value. */
  lemma EquityBridge(wacc: real, g: real, u: seq<Num>, debt: Num, cash: Num)
    requires |u| > 0
    ensures var v := Figures(wacc, g, u, debt, cash);
            v.entVal == Add(v.pvUfcf, v.pvContVal) && v.totFinLiab == Neg(debt) && v.cash == cash &&
            (v.entVal.Real? && debt.Real? && cash.Real? ==>
               v.equity.Real? && v.equity.r == v.entVal.r - debt.r + cash.r) &&
            (v.entVal == NaN || debt == NaN || cash == NaN ==> v.equity == NaN)
  {
  }

  /** The shares of the enterprise value held by the forecast cash flows and by
      the continuing value sum to one; with no enterprise value they are
      undefined. */
  lemma SharesSumToOne(wacc: real, g: real, u: seq<Num>, debt: Num, cash: Num)
    requires |u| > 0
    ensures var v := Figures(wacc, g, u, debt, cash);
            (v.entVal.Real? && v.entVal.r != 0.0 ==>
               v.pvUfcfShr.Real? && v.pvContValShr.Real? && v.pvUfcfShr.r + v.pvContValShr.r == 1.0) &&
            (v.entVal == NaN || v.entVal == Real(0.0) ==> v.pvUfcfShr == NaN && v.pvContValShr == NaN)
  {
    var v := Figures(wacc, g, u, debt, cash);
    if v.entVal.Real? && v.entVal.r != 0.0 {
      var e := v.entVal.r;
      assert v.pvUfcf.r + v.pvContVal.r == e;
      assert v.pvUfcf.r / e + v.pvContVal.r / e == (v.pvUfcf.r + v.pvContVal.r) / e;
    }
  }

  /** One forecast year of 110 at a WACC of 10% and no growth: the cash flow is
      worth 100 today, the perpetuity 1100 at the horizon and 1000 today. */
  lemma OnePeriodExample(debt: Num, cash: Num)
    ensures var v := Figures(0.1, 0.0, [Real(110.0)], debt, cash);
            v.pvUfcf == Real(100.0) && v.contVal == Real(1100.0) && v.pvContVal == Real(1000.0) &&
            v.entVal == Real(1100.0)
  {
    var v := Figures(0.1, 0.0, [Real(110.0)], debt, cash);
    var d := DiscountFactors(0.1, 1);
    assert Pow(1.1, 1) == 1.1;
    assert d[0] == Real(1.0 / 1.1);
    var t := Times([Real(110.0)], d);
    assert t == [Real(100.0)];
    assert DefinedSum(t) == 100.0 by {
      assert t[1..] == [];
    }
    assert v.pvUfcf == Real(100.0);
    assert v.contVal == Div(Real(110.0), Real(0.1)) == Real(1100.0);
    assert v.pvContVal == Mul(Real(1100.0), Real(1.0 / 1.1)) == Real(1000.0);
  }

  /** A statement built from sorted actuals and forecast dates can be valued at
      any rates as soon as it has a forecast and its last actual date is one of
      the statements' dates. */
  lemma ValuateBuilt(company: string, aDates: seq<Date>, fDates: seq<Date>, inc: IncomeStatement, bs: BalanceSheet,
                     wacc: real, g: real)
    requires Actuals(inc, bs) && Buildable(inc, bs, fDates)
    requires |fDates| > 0 && |aDates| > 0 && aDates[|aDates| - 1] in inc.dates
    ensures var fs := Build(company, aDates, fDates, inc, bs).value;
            WellFormed(fs) && Valuate(wacc, g, fs).Ok?
  {
    var fs := Build(company, aDates, fDates, inc, bs).value;
    BuildDates(company, aDates, fDates, inc, bs);
    assert WellFormed(fs) && fs.balance.dates == fs.cash.dates == fs.income.dates;
    assert fs.forecastDates == fDates && fs.actualDates == aDates;
    assert multiset(fs.cash.dates) == multiset(inc.dates) + multiset(fs.forecastDates);
    assert LastActual(fs) in inc.dates;
    ValuableOnMergedDates(fs, inc.dates);
  }

  lemma ValuableOnMergedDates(fs: FinancialStatement, aDates: seq<Date>)
    requires WellFormed(fs) && fs.balance.dates == fs.cash.dates
    requires multiset(fs.cash.dates) == multiset(aDates) + multiset(fs.forecastDates)
    requires |fs.forecastDates| > 0 && |fs.actualDates| > 0 && LastActual(fs) in aDates
    ensures Valuable(fs)
  {
    var m := fs.cash.dates;
    forall k | 0 <= k < |fs.forecastDates|
      ensures fs.forecastDates[k] in m
    {
      assert fs.forecastDates[k] in multiset(fs.forecastDates);
      assert fs.forecastDates[k] in multiset(m);
    }
    assert LastActual(fs) in multiset(aDates);
    assert LastActual(fs) in multiset(m);
  }

  // Sensitivity grid.

  /** The offsets around the base WACC and growth rate tried by default. */
  const DefaultOffsets: seq<real> := [-0.01, 0.0, 0.01, 0.02]

  function Candidates(base: real): (c: seq<real>)
    ensures |c| == 4 && c[1] == base
    ensures forall i :: 0 <= i < 4 ==> c[i] - base == DefaultOffsets[i]
  {
    seq(4, i requires 0 <= i < 4 => base + DefaultOffsets[i])
  }

  /** One line of the simulated table. */
  datatype SimRow = SimRow(wacc: real, g: real, entVal: Num)

  /** The line of a fresh valuation at one pair of rates. */
  function Simulated(w: real, g: real, fs: FinancialStatement): (row: SimRow)
    requires WellFormed(fs) && Valuable(fs)
    ensures row == SimRow(w, g, Valuate(w, g, fs).value.entVal)
  {
    var d := Valuate(w, g, fs).value;
    SimRow(d.wacc, d.g, d.entVal)
  }

  function Row(w: real, gs: seq<real>, fs: FinancialStatement): (r: seq<SimRow>)
    requires WellFormed(fs) && Valuable(fs)
    ensures |r| == |gs|
  {
    seq(|gs|, j requires 0 <= j < |gs| => Simulated(w, gs[j], fs))
  }

  /** The valuations for every pair of a WACC and a growth rate, one WACC after
      the other. */
  function Grid(ws: seq<real>, gs: seq<real>, fs: FinancialStatement): seq<SimRow>
    requires WellFormed(fs) && Valuable(fs)
  {
    if ws == [] then [] else Grid(ws[..|ws| - 1], gs, fs) + Row(ws[|ws| - 1], gs, fs)
  }

  /** The grid has one row per pair, in WACC-major order, and each row is a
      fresh valuation at its pair of rates. */
  lemma {:induction false} GridAt(ws: seq<real>, gs: seq<real>, fs: FinancialStatement, i: nat, j: nat)
    requires WellFormed(fs) && Valuable(fs) && i < |ws| && j < |gs|
    ensures |Grid(ws, gs, fs)| == |ws| * |gs|
    ensures i * |gs| + j < |ws| * |gs|
    ensures Grid(ws, gs, fs)[i * |gs| + j] == SimRow(ws[i], gs[j], Valuate(ws[i], gs[j], fs).value.entVal)
    decreases |ws|
  {
    var init := ws[..|ws| - 1];
    GridSize(ws, gs, fs);
    GridSize(init, gs, fs);
    assert (|ws| - 1) * |gs| + |gs| == |ws| * |gs|;
    if i < |ws| - 1 {
      GridAt(init, gs, fs, i, j);
      assert init[i] == ws[i];
    } else {
      assert i * |gs| == |init| * |gs|;
    }
  }

  lemma {:induction false} GridSize(ws: seq<real>, gs: seq<real>, fs: FinancialStatement)
    requires WellFormed(fs) && Valuable(fs)
    ensures |Grid(ws, gs, fs)| == |ws| * |gs|
    decreases |ws|
  {
    if ws != [] {
      GridSize(ws[..|ws| - 1], gs, fs);
      assert (|ws| - 1) * |gs| + |gs| == |ws| * |gs|;
    }
  }

  /** Appending the valuation at the next growth rate extends the row. */
  lemma RowStep(done: seq<SimRow>, w: real, gs: seq<real>, j: nat, fs: FinancialStatement)
    requires WellFormed(fs) && Valuable(fs) && j < |gs|
    ensures done + Row(w, gs[..j], fs) + [Simulated(w, gs[j], fs)] == done + Row(w, gs[..j + 1], fs)
  {
    assert Row(w, gs[..j + 1], fs) == Row(w, gs[..j], fs) + [Simulated(w, gs[j], fs)];
  }

  /** A complete row for the next WACC extends the grid. */
  lemma GridStep(ws: seq<real>, gs: seq<real>, i: nat, fs: FinancialStatement)
    requires WellFormed(fs) && Valuable(fs) && i < |ws|
    ensures Grid(ws[..i], gs, fs) + Row(ws[i], gs[..|gs|], fs) == Grid(ws[..i + 1], gs, fs)
  {
    assert ws[..i + 1][..i] == ws[..i];
    assert gs[..|gs|] == gs;
  }

  /** `simulate_enterprise_val`: a valuation for every WACC and every growth
      rate, by default the base rates shifted by the default offsets. */
  method SimulateEnterpriseVal(base: Dcf, fs: FinancialStatement, waccs: Option<seq<real>>, growths: Option<seq<real>>)
    returns (rows: seq<SimRow>)
    requires WellFormed(fs) && Valuable(fs)
    ensures var ws := if waccs.None? then Candidates(base.wacc) else waccs.value;
            var gs := if growths.None? then Candidates(base.g) else growths.value;
            rows == Grid(ws, gs, fs)
  {
    var ws := if waccs.None? then Candidates(base.wacc) else waccs.value;
    var gs := if growths.None? then Candidates(base.g) else growths.value;
    rows := [];
    var i := 0;
    while i < |ws|
      invariant 0 <= i <= |ws|
      invariant rows == Grid(ws[..i], gs, fs)
    {
      ghost var done := rows;
      var j := 0;
      while j < |gs|
        invariant 0 <= j <= |gs|
        invariant rows == done + Row(ws[i], gs[..j], fs)
      {
        RowStep(done, ws[i], gs, j, fs);
        rows := rows + [Simulated(ws[i], gs[j], fs)];
        j := j + 1;
      }
      GridStep(ws, gs, i, fs);
      i := i + 1;
    }
    assert ws[..i] == ws;
  }

  /** With the default candidates the table has sixteen rows, and the row at
      offsets (0, 0), the sixth, is the base valuation itself. */
  lemma DefaultGridHoldsBase(base: Dcf, fs: FinancialStatement)
    requires WellFormed(fs) && Valuate(base.wacc, base.g, fs) == Ok(base)
    ensures var grid := Grid(Candidates(base.wacc), Candidates(base.g), fs);
            |grid| == 16 && grid[5] == SimRow(base.wacc, base.g, base.entVal)
  {
    GridAt(Candidates(base.wacc), Candidates(base.g), fs, 1, 1);
  }
}
