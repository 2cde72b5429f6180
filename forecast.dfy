/** The forecast engine: one rule per line item turns the actual statements into
    forecast statements over the forecast dates. The income statement is
    forecast first, because the balance sheet uses its forecast sales, cost of
    goods sold and net income as drivers. */
module Forecast {
  import opened Numeric
  import opened Series
  import opened Wrappers
  import opened Transform
  import opened Income
  import opened Balance

  /** The share-of-driver rule: the forecast driver times the mean historical
      ratio of the item to the actual driver, ignoring undefined ratios. */
  function ShareRule(x: seq<Num>, aDriver: seq<Num>, fDriver: seq<Num>): (f: seq<Num>)
    requires |x| == |aDriver|
    ensures |f| == |fDriver|
  {
    ConstShare(fDriver, NanMean(Over(x, aDriver)))
  }

  /** The days-outstanding rule: the forecast driver times the mean days
      outstanding against the actual driver, over a 360-day year, divided back
      by 360. The days outstanding form a pandas series, whose mean skips the
      undefined ratios. */
  function DaysRule(x: seq<Num>, aDriver: seq<Num>, fDriver: seq<Num>): (f: seq<Num>)
    requires |x| == |aDriver|
    ensures |f| == |fDriver|
  {
    DividedBy(ConstShare(fDriver, NanMean(DaysOutstanding(x, aDriver, 360.0))), Real(360.0))
  }

  /** The days-outstanding rule is the forecast driver times the mean of the
      defined plain ratios; it is undefined only when no historical ratio is
      defined (or the driver is not). */
  lemma DaysRuleIsShare(x: seq<Num>, aDriver: seq<Num>, fDriver: seq<Num>, k: nat)
    requires |x| == |aDriver| && k < |fDriver|
    ensures DaysRule(x, aDriver, fDriver)[k] == Mul(fDriver[k], NanMean(Over(x, aDriver)))
    ensures DaysRule(x, aDriver, fDriver)[k].Real? <==> fDriver[k].Real? && DefinedCount(Over(x, aDriver)) > 0
  {
    var ratio := Over(x, aDriver);
    assert DaysOutstanding(x, aDriver, 360.0) == Scaled(ratio, Real(360.0));
    NanMeanScaled(ratio, 360.0);
    var m := NanMean(ratio);
    if fDriver[k].Real? && m.Real? {
      assert (fDriver[k].r * (m.r * 360.0)) / 360.0 == fDriver[k].r * m.r;
    }
  }

  /** An undefined historical ratio is skipped: inventory 10, missing, 12
      against cost of goods sold -40, -44, -48 has a mean ratio of -0.25, so a
      forecast cost of goods sold of -50 gives inventory 12.5. */
  lemma DaysRuleSkipsUndefined()
    ensures DaysRule([Real(10.0), NaN, Real(12.0)], [Real(-40.0), Real(-44.0), Real(-48.0)], [Real(-50.0)]) ==
            [Real(12.5)]
  {
    var x, a := [Real(10.0), NaN, Real(12.0)], [Real(-40.0), Real(-44.0), Real(-48.0)];
    var ratio := Over(x, a);
    assert ratio == [Real(-0.25), NaN, Real(-0.25)];
    assert ratio[1..] == [NaN, Real(-0.25)];
    assert ratio[1..][1..] == [Real(-0.25)];
    assert ratio[1..][1..][1..] == [];
    assert DefinedCount(ratio[1..][1..]) == 1 && DefinedSum(ratio[1..][1..]) == -0.25;
    assert DefinedCount(ratio) == 2 && DefinedSum(ratio) == -0.5;
    assert NanMean(ratio) == Real(-0.25);
    DaysRuleIsShare(x, a, [Real(-50.0)], 0);
  }

  // The income statement forecast.

  /** `is_forecast_avg_growth`: sales grow at their mean historical growth;
      other revenue and interest expense are carried forward; cost of goods
      sold, operating expenses and D&A keep their mean share of sales; raw
      material, lease and other costs are zero; extraordinary income is zero
      times sales; the tax rate is the mean historical rate, and tax and net
      income are then recomputed from it. An empty history has no latest value. */
  function ForecastIncome(inc: IncomeStatement, fDates: seq<Date>): (r: Result<IncomeStatement>)
    requires inc.Aligned()
    ensures r.Ok? <==> |inc.dates| > 0
    ensures r.Ok? ==> r.value.Aligned() && r.value.dates == fDates
  {
    if |inc.dates| == 0 then Err(EmptyHistory)
    else Ok(OverrideTax(ConstructedIncome(inc, fDates), NanMean(Over(inc.tax, inc.ebt))))
  }

  /** The forecast statement as its constructor leaves it, with zero tax. */
  function ConstructedIncome(inc: IncomeStatement, fDates: seq<Date>): (f: IncomeStatement)
    requires inc.Aligned() && |inc.dates| > 0
    ensures f.Aligned() && f.dates == fDates && f.Derived()
  {
    var n := |fDates|;
    var sales := inc.revenue.sales;
    var fSales := ConstGrowth(inc.dates, sales, MeanG(sales), n);
    MakeIncome(fDates,
               MakeRevenue(fSales, ConstGrowth(inc.dates, inc.revenue.otherRevenue, Real(0.0), n)),
               MakeCogs(ConstSeries(n, Real(0.0)), ShareRule(inc.cogs.cogs, sales, fSales)),
               MakeOperatingExpense(ShareRule(inc.opex.opex, sales, fSales),
                                    ConstSeries(n, Real(0.0)), ConstSeries(n, Real(0.0))),
               ShareRule(inc.dAndA, sales, fSales),
               ConstGrowth(inc.dates, inc.intExpense, Real(0.0), n),
               ConstShare(fSales, Real(0.0)),
               ConstSeries(n, Real(0.0)))
  }

  /** The override after construction: one tax rate in every period, tax as that
      rate times EBT, and net income recomputed from that tax. */
  function OverrideTax(s: IncomeStatement, rate: Num): (o: IncomeStatement)
    requires s.Aligned()
    ensures o.Aligned() && o.dates == s.dates
  {
    var taxRate := ConstSeries(|s.dates|, rate);
    var tax := Times(taxRate, s.ebt);
    s.(taxRate := taxRate, tax := tax, netIncome := Plus(s.ebt, tax))
  }

  /** The override agrees with the statement's own derivation in a period whose
      EBT is a non-zero number: recomputing the rate from the new tax gives the rate back. */
  lemma OverrideTaxDerived(s: IncomeStatement, rate: Num, t: nat)
    requires s.Aligned() && t < |s.dates| && s.TotalsAt(t) == Income.Derive(s.RawAt(t))
    requires s.ebt[t].Real? && s.ebt[t].r != 0.0
    ensures OverrideTax(s, rate).TotalsAt(t) == Income.Derive(OverrideTax(s, rate).RawAt(t))
  {
    var e := s.ebt[t];
    if rate.Real? {
      DivCancel(rate.r, e.r);
    }
  }

  /** Forecast sales at step k (counting from 1) are the latest actual sales
      grown k times at the mean historical growth rate. */
  lemma ForecastSales(inc: IncomeStatement, fDates: seq<Date>, k: nat)
    requires inc.Aligned() && |inc.dates| > 0 && k < |fDates|
    requires MeanG(inc.revenue.sales).Real?
    ensures ForecastIncome(inc, fDates).value.revenue.sales[k] ==
              Mul(inc.revenue.sales[LatestIndex(inc.dates)], Real(Pow(1.0 + MeanG(inc.revenue.sales).r, k + 1)))
  {
    ConstGrowthClosedForm(inc.dates, inc.revenue.sales, MeanG(inc.revenue.sales).r, |fDates|, k);
  }

  /** Actual sales of 100, 110 and 121 are forecast as 133.1 and 146.41. */
  lemma ForecastSalesExample(inc: IncomeStatement, fDates: seq<Date>)
    requires inc.Aligned() && Chronological(inc.dates) && |fDates| == 2
    requires inc.revenue.sales == [Real(100.0), Real(110.0), Real(121.0)]
    ensures ForecastIncome(inc, fDates).value.revenue.sales == [Real(133.1), Real(146.41)]
  {
    var sales := inc.revenue.sales;
    assert GrowsBy(sales, 1, 0.1) && GrowsBy(sales, 2, 0.1);
    MeanGOfConstantGrowth(sales, 0.1);
    LatestIsLast(inc.dates);
    ForecastSales(inc, fDates, 0);
    ForecastSales(inc, fDates, 1);
    assert Pow(1.1, 2) == 1.21;
  }

  /** Other revenue and interest expense repeat their latest actual value. */
  lemma ForecastIncomeCarried(inc: IncomeStatement, fDates: seq<Date>, k: nat)
    requires inc.Aligned() && |inc.dates| > 0 && k < |fDates|
    ensures ForecastIncome(inc, fDates).value.revenue.otherRevenue[k] == inc.revenue.otherRevenue[LatestIndex(inc.dates)]
    ensures ForecastIncome(inc, fDates).value.intExpense[k] == inc.intExpense[LatestIndex(inc.dates)]
  {
    ConstGrowthCarryForward(inc.dates, inc.revenue.otherRevenue, |fDates|, k);
    ConstGrowthCarryForward(inc.dates, inc.intExpense, |fDates|, k);
  }

  /** Cost of goods sold, operating expenses and D&A are forecast sales times
      their mean historical ratio to sales; the components forecast as zero
      leave each total equal to the one share-driven component. */
  lemma ForecastIncomeShares(inc: IncomeStatement, fDates: seq<Date>, k: nat)
    requires inc.Aligned() && |inc.dates| > 0 && k < |fDates|
    ensures var f := ForecastIncome(inc, fDates).value;
            f.cogs.rawMaterial[k] == Real(0.0) &&
            f.cogs.cogs[k] == Mul(f.revenue.sales[k], NanMean(Over(inc.cogs.cogs, inc.revenue.sales))) &&
            f.opex.leaseCost[k] == Real(0.0) && f.opex.other[k] == Real(0.0) &&
            f.opex.opex[k] == Mul(f.revenue.sales[k], NanMean(Over(inc.opex.opex, inc.revenue.sales))) &&
            f.dAndA[k] == Mul(f.revenue.sales[k], NanMean(Over(inc.dAndA, inc.revenue.sales)))
  {
  }

  /** Extraordinary income is zero wherever forecast sales are defined; the tax
      rate is the same mean historical rate in every period, tax is that rate
      times EBT, and net income is EBT plus tax. */
  lemma ForecastIncomeTax(inc: IncomeStatement, fDates: seq<Date>, k: nat)
    requires inc.Aligned() && |inc.dates| > 0 && k < |fDates|
    ensures var f := ForecastIncome(inc, fDates).value;
            f.extraordinaryIncome[k] == (if f.revenue.sales[k].Real? then Real(0.0) else NaN) &&
            f.taxRate[k] == NanMean(Over(inc.tax, inc.ebt)) &&
            f.tax[k] == Mul(NanMean(Over(inc.tax, inc.ebt)), f.ebt[k]) &&
            f.netIncome[k] == Add(f.ebt[k], f.tax[k])
  {
  }

  /** Overriding the tax rate agrees with the statement's own derivation in
      every period whose forecast EBT is a non-zero number, so such a forecast
      is a well-derived statement. */
  lemma ForecastIncomeDerived(inc: IncomeStatement, fDates: seq<Date>)
    requires inc.Aligned() && |inc.dates| > 0
    requires forall k :: 0 <= k < |fDates| ==>
               ForecastIncome(inc, fDates).value.ebt[k].Real? && ForecastIncome(inc, fDates).value.ebt[k].r != 0.0
    ensures ForecastIncome(inc, fDates).value.Derived()
  {
    var c := ConstructedIncome(inc, fDates);
    var rate := NanMean(Over(inc.tax, inc.ebt));
    assert ForecastIncome(inc, fDates).value == OverrideTax(c, rate);
    forall t | 0 <= t < |fDates|
      ensures OverrideTax(c, rate).TotalsAt(t) == Income.Derive(OverrideTax(c, rate).RawAt(t))
    {
      assert c.TotalsAt(t) == Income.Derive(c.RawAt(t));
      OverrideTaxDerived(c, rate, t);
    }
  }

  // The balance sheet forecast.

  /** The column of plugged cash: total liabilities and equity less the six non-cash assets. */
  function PlugCash(intangibleAsset: seq<Num>, ppe: seq<Num>, financialAsset: seq<Num>, finLiab: FinLiab,
                    inventory: seq<Num>, tradeReceivable: seq<Num>, otherAsset: seq<Num>, otherLiab: OtherLiab,
                    tradePayable: seq<Num>, equity: Equity): (c: seq<Num>)
    requires |intangibleAsset| == |ppe| == |financialAsset| == |inventory| == |tradeReceivable| == |otherAsset| == |tradePayable|
    requires finLiab.Aligned(|ppe|) && otherLiab.Aligned(|ppe|) && equity.Aligned(|ppe|)
    ensures |c| == |ppe|
  {
    var nonCash := Plus(Plus(Plus(Plus(Plus(intangibleAsset, ppe), financialAsset), inventory), tradeReceivable), otherAsset);
    var tle := Plus(Plus(Plus(tradePayable, otherLiab.total), finLiab.total), equity.totalEquity);
    Minus(tle, nonCash)
  }

  /** `bs_forecast_avg_growth`: intangible and financial assets and financial
      liabilities are carried forward; PP&E, other assets and other liabilities
      keep their mean share of sales; inventory and trade payables follow the
      days-outstanding rule on cost of goods sold, trade receivables on sales;
      equity is zero apart from net annual profit, which rolls the latest actual
      total equity forward by forecast net income; cash is the plug. An empty
      history has no latest value. */
  function ForecastBalance(bs: BalanceSheet, aInc: IncomeStatement, fInc: IncomeStatement, fDates: seq<Date>): (r: Result<BalanceSheet>)
    requires bs.Aligned() && aInc.Aligned() && fInc.Aligned()
    requires bs.dates == aInc.dates && fInc.dates == fDates
    ensures r.Ok? <==> |bs.dates| > 0
    ensures r.Ok? ==> r.value.Aligned() && r.value.dates == fDates
  {
    if |bs.dates| == 0 then Err(EmptyHistory)
    else
      var n := |fDates|;
      var d := bs.dates;
      var aSales, fSales := aInc.revenue.sales, fInc.revenue.sales;
      var intangibleAsset := ConstGrowth(d, bs.intangibleAsset, Real(0.0), n);
      var ppe := ShareRule(bs.ppe, aSales, fSales);
      var financialAsset := ConstGrowth(d, bs.financialAsset, Real(0.0), n);
      var finLiab := MakeFinLiab(ConstGrowth(d, bs.financialLiability.bankBorrowing, Real(0.0), n),
                                 ConstGrowth(d, bs.financialLiability.otherFinancialLiability, Real(0.0), n));
      var inventory := DaysRule(bs.inventory, aInc.cogs.cogs, fInc.cogs.cogs);
      var tradeReceivable := DaysRule(bs.tradeReceivable, aSales, fSales);
      var otherAsset := ShareRule(bs.otherAsset, aSales, fSales);
      var otherLiab := MakeOtherLiab(ShareRule(bs.otherLiability.otherLiability, aSales, fSales),
                                     ShareRule(bs.otherLiability.deferredTaxes, aSales, fSales),
                                     ShareRule(bs.otherLiability.provisionForRetirementBenefit, aSales, fSales));
      var tradePayable := DaysRule(bs.tradePayable, aInc.cogs.cogs, fInc.cogs.cogs);
      var equity := ForecastEquityOf(bs, fInc);
      var cash := PlugCash(intangibleAsset, ppe, financialAsset, finLiab, inventory, tradeReceivable,
                           otherAsset, otherLiab, tradePayable, equity);
      Ok(MakeBalance(fDates, intangibleAsset, ppe, financialAsset, finLiab, inventory, tradeReceivable,
                     otherAsset, otherLiab, cash, tradePayable, equity))
  }

  /** The arguments every balance-sheet forecast lemma assumes. */
  predicate ForecastInputs(bs: BalanceSheet, aInc: IncomeStatement, fInc: IncomeStatement, fDates: seq<Date>)
  {
    bs.Aligned() && aInc.Aligned() && fInc.Aligned() &&
    bs.dates == aInc.dates && fInc.dates == fDates && |bs.dates| > 0
  }

  /** Intangible and financial assets and both financial liabilities repeat
      their latest actual value. */
  lemma ForecastBalanceCarried(bs: BalanceSheet, aInc: IncomeStatement, fInc: IncomeStatement, fDates: seq<Date>, k: nat)
    requires ForecastInputs(bs, aInc, fInc, fDates) && k < |fDates|
    ensures var f := ForecastBalance(bs, aInc, fInc, fDates).value;
            var last := LatestIndex(bs.dates);
            f.intangibleAsset[k] == bs.intangibleAsset[last] &&
            f.financialAsset[k] == bs.financialAsset[last] &&
            f.financialLiability.bankBorrowing[k] == bs.financialLiability.bankBorrowing[last] &&
            f.financialLiability.otherFinancialLiability[k] == bs.financialLiability.otherFinancialLiability[last]
  {
    var n := |fDates|;
    ConstGrowthCarryForward(bs.dates, bs.intangibleAsset, n, k);
    ConstGrowthCarryForward(bs.dates, bs.financialAsset, n, k);
    ConstGrowthCarryForward(bs.dates, bs.financialLiability.bankBorrowing, n, k);
    ConstGrowthCarryForward(bs.dates, bs.financialLiability.otherFinancialLiability, n, k);
  }

  /** PP&E, other assets and each other-liability component are forecast sales
      times their mean historical ratio to actual sales. */
  lemma ForecastBalanceShares(bs: BalanceSheet, aInc: IncomeStatement, fInc: IncomeStatement, fDates: seq<Date>, k: nat)
    requires ForecastInputs(bs, aInc, fInc, fDates) && k < |fDates|
    ensures var f := ForecastBalance(bs, aInc, fInc, fDates).value;
            var s, fs := aInc.revenue.sales, fInc.revenue.sales;
            f.ppe[k] == Mul(fs[k], NanMean(Over(bs.ppe, s))) &&
            f.otherAsset[k] == Mul(fs[k], NanMean(Over(bs.otherAsset, s))) &&
            f.otherLiability.otherLiability[k] == Mul(fs[k], NanMean(Over(bs.otherLiability.otherLiability, s))) &&
            f.otherLiability.deferredTaxes[k] == Mul(fs[k], NanMean(Over(bs.otherLiability.deferredTaxes, s))) &&
            f.otherLiability.provisionForRetirementBenefit[k] ==
              Mul(fs[k], NanMean(Over(bs.otherLiability.provisionForRetirementBenefit, s)))
  {
  }

  /** Inventory and trade payables are forecast cost of goods sold, and trade
      receivables forecast sales, times the mean of the defined historical
      ratios to the actual driver; the line is undefined only when no ratio is. */
  lemma ForecastWorkingCapital(bs: BalanceSheet, aInc: IncomeStatement, fInc: IncomeStatement, fDates: seq<Date>, k: nat)
    requires ForecastInputs(bs, aInc, fInc, fDates) && k < |fDates|
    ensures var f := ForecastBalance(bs, aInc, fInc, fDates).value;
            f.inventory[k] == Mul(fInc.cogs.cogs[k], NanMean(Over(bs.inventory, aInc.cogs.cogs))) &&
            f.tradePayable[k] == Mul(fInc.cogs.cogs[k], NanMean(Over(bs.tradePayable, aInc.cogs.cogs))) &&
            f.tradeReceivable[k] == Mul(fInc.revenue.sales[k], NanMean(Over(bs.tradeReceivable, aInc.revenue.sales)))
    ensures DefinedCount(Over(bs.inventory, aInc.cogs.cogs)) == 0 ==> ForecastBalance(bs, aInc, fInc, fDates).value.inventory[k] == NaN
  {
    DaysRuleIsShare(bs.inventory, aInc.cogs.cogs, fInc.cogs.cogs, k);
    DaysRuleIsShare(bs.tradePayable, aInc.cogs.cogs, fInc.cogs.cogs, k);
    DaysRuleIsShare(bs.tradeReceivable, aInc.revenue.sales, fInc.revenue.sales, k);
  }

  /** Forecast equity: share capital, reserves and retained earnings are zero,
      and net annual profit rolls the latest actual total equity forward by the
      forecast net income. */
  function ForecastEquityOf(bs: BalanceSheet, fInc: IncomeStatement): (e: Equity)
    requires bs.Aligned() && fInc.Aligned() && |bs.dates| > 0
    ensures e.Aligned(|fInc.dates|)
  {
    var zero := ConstSeries(|fInc.dates|, Real(0.0));
    MakeEquity(zero, zero, zero, AddMovement(bs.dates, bs.shareholderEquity.totalEquity, fInc.netIncome))
  }

  /** Share capital, reserves and retained earnings are zero, so total equity
      is the net annual profit line. */
  lemma ForecastEquityIsProfit(bs: BalanceSheet, fInc: IncomeStatement, k: nat)
    requires bs.Aligned() && fInc.Aligned() && |bs.dates| > 0 && k < |fInc.dates|
    ensures ForecastEquityOf(bs, fInc).shareCapital[k] == Real(0.0)
    ensures ForecastEquityOf(bs, fInc).reserve[k] == Real(0.0)
    ensures ForecastEquityOf(bs, fInc).retainedEarning[k] == Real(0.0)
    ensures ForecastEquityOf(bs, fInc).totalEquity[k] == ForecastEquityOf(bs, fInc).netAnnualProfit[k]
  {
    var z := ConstSeries(|fInc.dates|, Real(0.0));
    var x := AddMovement(bs.dates, bs.shareholderEquity.totalEquity, fInc.netIncome);
    assert ForecastEquityOf(bs, fInc) == MakeEquity(z, z, z, x);
    EquityOfZeros(z, x, k);
  }

  /** Total equity rolls forward: the latest actual total equity plus the
      first forecast net income, then each period's plus the next net income. */
  lemma ForecastEquity(bs: BalanceSheet, fInc: IncomeStatement, k: nat)
    requires bs.Aligned() && fInc.Aligned() && |bs.dates| > 0 && k < |fInc.dates|
    ensures k == 0 ==> ForecastEquityOf(bs, fInc).totalEquity[0] ==
                         Add(bs.shareholderEquity.totalEquity[LatestIndex(bs.dates)], fInc.netIncome[0])
    ensures k > 0 ==> ForecastEquityOf(bs, fInc).totalEquity[k] ==
                        Add(ForecastEquityOf(bs, fInc).totalEquity[k - 1], fInc.netIncome[k])
  {
    var e := ForecastEquityOf(bs, fInc);
    ForecastEquityIsProfit(bs, fInc, k);
    RollForwardStep(bs.shareholderEquity.totalEquity[LatestIndex(bs.dates)], fInc.netIncome, k);
    if k > 0 {
      ForecastEquityIsProfit(bs, fInc, k - 1);
    }
  }

  /** The forecast balance sheet's equity is the rolled-forward equity. */
  lemma ForecastBalanceEquity(bs: BalanceSheet, aInc: IncomeStatement, fInc: IncomeStatement, fDates: seq<Date>)
    requires ForecastInputs(bs, aInc, fInc, fDates)
    ensures ForecastBalance(bs, aInc, fInc, fDates).value.shareholderEquity == ForecastEquityOf(bs, fInc)
  {
  }

  /** The forecast cash is the plug, so every forecast period balances (given
      defined non-cash assets), and the forecast sheet is well derived. */
  lemma ForecastBalances(bs: BalanceSheet, aInc: IncomeStatement, fInc: IncomeStatement, fDates: seq<Date>, k: nat)
    requires ForecastInputs(bs, aInc, fInc, fDates) && k < |fDates|
    ensures var f := ForecastBalance(bs, aInc, fInc, fDates).value;
            f.Derived() && f.RawAt(k).cash == CashPlug(f.RawAt(k)) &&
            (NonCashAssets(f.RawAt(k)).Real? ==> f.totalAsset[k] == f.totalLiabilityAndEquity[k])
  {
    var f := ForecastBalance(bs, aInc, fInc, fDates).value;
    assert f.TotalsAt(k) == Balance.Derive(f.RawAt(k));
    BalanceIdentity(f.RawAt(k));
  }
}
