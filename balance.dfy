/** The balance sheet: assets, liabilities and equity, with their derived totals.
    The forecast balance sheet takes cash as the plug that makes total assets
    equal total liabilities and equity. */
module Balance {
  import opened Numeric
  import opened Series
  import opened Wrappers

  /** Non-financial liabilities, deferred taxes and retirement provisions, and their total. */
  datatype OtherLiab = OtherLiab(otherLiability: seq<Num>, deferredTaxes: seq<Num>,
                                 provisionForRetirementBenefit: seq<Num>, total: seq<Num>)
  {
    predicate Aligned(n: nat)
    {
      |otherLiability| == n && |deferredTaxes| == n && |provisionForRetirementBenefit| == n && |total| == n
    }
  }

  /** Bank borrowings and other financial liabilities, and their total. */
  datatype FinLiab = FinLiab(bankBorrowing: seq<Num>, otherFinancialLiability: seq<Num>, total: seq<Num>)
  {
    predicate Aligned(n: nat)
    {
      |bankBorrowing| == n && |otherFinancialLiability| == n && |total| == n
    }
  }

  /** Share capital, reserves, retained earnings and the year's profit, and their total. */
  datatype Equity = Equity(shareCapital: seq<Num>, reserve: seq<Num>, retainedEarning: seq<Num>,
                           netAnnualProfit: seq<Num>, totalEquity: seq<Num>)
  {
    predicate Aligned(n: nat)
    {
      |shareCapital| == n && |reserve| == n && |retainedEarning| == n && |netAnnualProfit| == n && |totalEquity| == n
    }
  }

  function MakeOtherLiab(otherLiability: seq<Num>, deferredTaxes: seq<Num>, provisionForRetirementBenefit: seq<Num>): (o: OtherLiab)
    requires |otherLiability| == |deferredTaxes| == |provisionForRetirementBenefit|
    ensures o.Aligned(|otherLiability|)
  {
    OtherLiab(otherLiability, deferredTaxes, provisionForRetirementBenefit,
              Plus(Plus(otherLiability, deferredTaxes), provisionForRetirementBenefit))
  }

  function MakeFinLiab(bankBorrowing: seq<Num>, otherFinancialLiability: seq<Num>): (f: FinLiab)
    requires |bankBorrowing| == |otherFinancialLiability|
    ensures f.Aligned(|bankBorrowing|)
  {
    FinLiab(bankBorrowing, otherFinancialLiability, Plus(bankBorrowing, otherFinancialLiability))
  }

  function MakeEquity(shareCapital: seq<Num>, reserve: seq<Num>, retainedEarning: seq<Num>, netAnnualProfit: seq<Num>): (e: Equity)
    requires |shareCapital| == |reserve| == |retainedEarning| == |netAnnualProfit|
    ensures e.Aligned(|shareCapital|)
  {
    Equity(shareCapital, reserve, retainedEarning, netAnnualProfit,
           Plus(Plus(Plus(shareCapital, reserve), retainedEarning), netAnnualProfit))
  }

  /** Equity whose first three parts are zero is its net annual profit. */
  lemma EquityOfZeros(z: seq<Num>, x: seq<Num>, k: nat)
    requires |z| == |x| && k < |x| && z[k] == Real(0.0)
    ensures MakeEquity(z, z, z, x).totalEquity[k] == x[k]
  {
    AddZeros(x[k]);
  }

  /** The raw items of one period. */
  datatype BalancePeriod = BalancePeriod(
    intangibleAsset: Num, ppe: Num, financialAsset: Num,
    bankBorrowing: Num, otherFinancialLiability: Num,
    inventory: Num, tradeReceivable: Num, otherAsset: Num,
    otherLiability: Num, deferredTaxes: Num, provisionForRetirementBenefit: Num,
    cash: Num, tradePayable: Num,
    shareCapital: Num, reserve: Num, retainedEarning: Num, netAnnualProfit: Num)

  /** The derived totals of one period. */
  datatype BalanceTotals = BalanceTotals(
    otherLiabTotal: Num, finLiabTotal: Num, totalEquity: Num,
    totalAsset: Num, totalLiabilityAndEquity: Num)

  /** The six assets other than cash, summed. */
  function NonCashAssets(p: BalancePeriod): Num
  {
    Add(Add(Add(Add(Add(p.intangibleAsset, p.ppe), p.financialAsset), p.inventory), p.tradeReceivable), p.otherAsset)
  }

  function LiabilityAndEquity(p: BalancePeriod): Num
  {
    var otherLiab := Add(Add(p.otherLiability, p.deferredTaxes), p.provisionForRetirementBenefit);
    var finLiab := Add(p.bankBorrowing, p.otherFinancialLiability);
    var equity := Add(Add(Add(p.shareCapital, p.reserve), p.retainedEarning), p.netAnnualProfit);
    Add(Add(Add(p.tradePayable, otherLiab), finLiab), equity)
  }

  /** The totals of one period, as the constructors compute them. */
  function Derive(p: BalancePeriod): (d: BalanceTotals)
    ensures d.totalAsset == Add(NonCashAssets(p), p.cash)
    ensures d.totalLiabilityAndEquity == LiabilityAndEquity(p)
  {
    var otherLiab := Add(Add(p.otherLiability, p.deferredTaxes), p.provisionForRetirementBenefit);
    var finLiab := Add(p.bankBorrowing, p.otherFinancialLiability);
    var equity := Add(Add(Add(p.shareCapital, p.reserve), p.retainedEarning), p.netAnnualProfit);
    var totalAsset := Add(Add(Add(Add(Add(Add(p.intangibleAsset, p.ppe), p.financialAsset), p.inventory),
                                      p.tradeReceivable), p.otherAsset), p.cash);
    var tle := Add(Add(Add(p.tradePayable, otherLiab), finLiab), equity);
    BalanceTotals(otherLiab, finLiab, equity, totalAsset, tle)
  }

  /** The forecast cash: total liabilities and equity less the non-cash assets. */
  function CashPlug(p: BalancePeriod): Num
  {
    Sub(LiabilityAndEquity(p), NonCashAssets(p))
  }

  /** With cash as the plug the balance sheet balances; the one exception is a
      period whose non-cash assets are undefined, where total assets are too. */
  lemma BalanceIdentity(p: BalancePeriod)
    requires p.cash == CashPlug(p)
    ensures NonCashAssets(p).Real? ==> Derive(p).totalAsset == Derive(p).totalLiabilityAndEquity
    ensures !NonCashAssets(p).Real? ==> Derive(p).totalAsset == NaN
  {
  }

  /** The plug does not depend on the cash it replaces. */
  lemma CashPlugIgnoresCash(p: BalancePeriod, c: Num)
    ensures CashPlug(p.(cash := c)) == CashPlug(p)
  {
  }

  datatype BalanceSheet = BalanceSheet(
    dates: seq<Date>,
    intangibleAsset: seq<Num>, ppe: seq<Num>, financialAsset: seq<Num>,
    financialLiability: FinLiab,
    inventory: seq<Num>, tradeReceivable: seq<Num>, otherAsset: seq<Num>,
    otherLiability: OtherLiab,
    cash: seq<Num>, tradePayable: seq<Num>,
    shareholderEquity: Equity,
    totalAsset: seq<Num>, totalLiabilityAndEquity: seq<Num>)
  {
    predicate Aligned()
    {
      var n := |dates|;
      |intangibleAsset| == n && |ppe| == n && |financialAsset| == n && financialLiability.Aligned(n) &&
      |inventory| == n && |tradeReceivable| == n && |otherAsset| == n && otherLiability.Aligned(n) &&
      |cash| == n && |tradePayable| == n && shareholderEquity.Aligned(n) &&
      |totalAsset| == n && |totalLiabilityAndEquity| == n
    }

    function RawAt(t: nat): BalancePeriod
      requires Aligned() && t < |dates|
    {
      BalancePeriod(intangibleAsset[t], ppe[t], financialAsset[t],
                    financialLiability.bankBorrowing[t], financialLiability.otherFinancialLiability[t],
                    inventory[t], tradeReceivable[t], otherAsset[t],
                    otherLiability.otherLiability[t], otherLiability.deferredTaxes[t],
                    otherLiability.provisionForRetirementBenefit[t],
                    cash[t], tradePayable[t],
                    shareholderEquity.shareCapital[t], shareholderEquity.reserve[t],
                    shareholderEquity.retainedEarning[t], shareholderEquity.netAnnualProfit[t])
    }

    function TotalsAt(t: nat): BalanceTotals
      requires Aligned() && t < |dates|
    {
      BalanceTotals(otherLiability.total[t], financialLiability.total[t], shareholderEquity.totalEquity[t],
                    totalAsset[t], totalLiabilityAndEquity[t])
    }

    predicate Derived()
      requires Aligned()
    {
      forall t :: 0 <= t < |dates| ==> TotalsAt(t) == Derive(RawAt(t))
    }
  }

  /** `BalanceSheet(...)`: computes the two grand totals column by column. */
  function MakeBalance(dates: seq<Date>, intangibleAsset: seq<Num>, ppe: seq<Num>, financialAsset: seq<Num>,
                       financialLiability: FinLiab, inventory: seq<Num>, tradeReceivable: seq<Num>,
                       otherAsset: seq<Num>, otherLiability: OtherLiab, cash: seq<Num>,
                       tradePayable: seq<Num>, shareholderEquity: Equity): (s: BalanceSheet)
    requires |intangibleAsset| == |ppe| == |financialAsset| == |dates|
    requires |inventory| == |tradeReceivable| == |otherAsset| == |cash| == |tradePayable| == |dates|
    requires financialLiability.Aligned(|dates|) && otherLiability.Aligned(|dates|) && shareholderEquity.Aligned(|dates|)
    ensures s.Aligned() && s.dates == dates
  {
    var totalAsset := Plus(Plus(Plus(Plus(Plus(Plus(intangibleAsset, ppe), financialAsset), inventory),
                                          tradeReceivable), otherAsset), cash);
    var tle := Plus(Plus(Plus(tradePayable, otherLiability.total), financialLiability.total), shareholderEquity.totalEquity);
    BalanceSheet(dates, intangibleAsset, ppe, financialAsset, financialLiability, inventory, tradeReceivable,
                 otherAsset, otherLiability, cash, tradePayable, shareholderEquity, totalAsset, tle)
  }

  /** Building a sheet from sub-totals built by their own constructors gives, in
      every period, the per-period totals. */
  lemma MakeBalanceDerived(dates: seq<Date>, intangibleAsset: seq<Num>, ppe: seq<Num>, financialAsset: seq<Num>,
                           bankBorrowing: seq<Num>, otherFinancialLiability: seq<Num>,
                           inventory: seq<Num>, tradeReceivable: seq<Num>, otherAsset: seq<Num>,
                           otherLiability: seq<Num>, deferredTaxes: seq<Num>, provisionForRetirementBenefit: seq<Num>,
                           cash: seq<Num>, tradePayable: seq<Num>,
                           shareCapital: seq<Num>, reserve: seq<Num>, retainedEarning: seq<Num>, netAnnualProfit: seq<Num>)
    requires |intangibleAsset| == |ppe| == |financialAsset| == |dates|
    requires |bankBorrowing| == |otherFinancialLiability| == |dates|
    requires |inventory| == |tradeReceivable| == |otherAsset| == |cash| == |tradePayable| == |dates|
    requires |otherLiability| == |deferredTaxes| == |provisionForRetirementBenefit| == |dates|
    requires |shareCapital| == |reserve| == |retainedEarning| == |netAnnualProfit| == |dates|
    ensures MakeBalance(dates, intangibleAsset, ppe, financialAsset, MakeFinLiab(bankBorrowing, otherFinancialLiability),
                        inventory, tradeReceivable, otherAsset,
                        MakeOtherLiab(otherLiability, deferredTaxes, provisionForRetirementBenefit),
                        cash, tradePayable, MakeEquity(shareCapital, reserve, retainedEarning, netAnnualProfit)).Derived()
  {
  }

  // attach, which balance.py does not define; mirroring the income statement's:
  // concatenate by date, sort, re-derive.

  function AttachOtherLiab(d1: seq<Date>, a: OtherLiab, d2: seq<Date>, b: OtherLiab): (o: OtherLiab)
    requires a.Aligned(|d1|) && b.Aligned(|d2|)
    ensures o.Aligned(|d1| + |d2|)
  {
    MakeOtherLiab(Merged(d1, d2, a.otherLiability, b.otherLiability),
                  Merged(d1, d2, a.deferredTaxes, b.deferredTaxes),
                  Merged(d1, d2, a.provisionForRetirementBenefit, b.provisionForRetirementBenefit))
  }

  function AttachFinLiab(d1: seq<Date>, a: FinLiab, d2: seq<Date>, b: FinLiab): (f: FinLiab)
    requires a.Aligned(|d1|) && b.Aligned(|d2|)
    ensures f.Aligned(|d1| + |d2|)
  {
    MakeFinLiab(Merged(d1, d2, a.bankBorrowing, b.bankBorrowing),
                Merged(d1, d2, a.otherFinancialLiability, b.otherFinancialLiability))
  }

  function AttachEquity(d1: seq<Date>, a: Equity, d2: seq<Date>, b: Equity): (e: Equity)
    requires a.Aligned(|d1|) && b.Aligned(|d2|)
    ensures e.Aligned(|d1| + |d2|)
  {
    MakeEquity(Merged(d1, d2, a.shareCapital, b.shareCapital), Merged(d1, d2, a.reserve, b.reserve),
               Merged(d1, d2, a.retainedEarning, b.retainedEarning),
               Merged(d1, d2, a.netAnnualProfit, b.netAnnualProfit))
  }

  /** An attach for balance sheets, mirroring `IncomeStatement.attach` (balance.py
      defines none): one balance sheet over the dates of both operands,
      which are each in chronological order, interleaved into chronological
      order; a shared date is a configuration error. */
  function Attach(a: BalanceSheet, b: BalanceSheet): (r: Result<BalanceSheet>)
    requires a.Aligned() && b.Aligned()
    requires Chronological(a.dates) && Chronological(b.dates)
    ensures r.Ok? <==> Disjoint(a.dates, b.dates)
    ensures r.Ok? ==> r.value.Aligned() && r.value.Derived() && r.value.dates == MergedDates(a.dates, b.dates)
  {
    if !Disjoint(a.dates, b.dates) then Err(OverlappingDates)
    else
      var d1, d2 := a.dates, b.dates;
      var r := MakeBalance(MergedDates(d1, d2),
                           Merged(d1, d2, a.intangibleAsset, b.intangibleAsset),
                           Merged(d1, d2, a.ppe, b.ppe),
                           Merged(d1, d2, a.financialAsset, b.financialAsset),
                           AttachFinLiab(d1, a.financialLiability, d2, b.financialLiability),
                           Merged(d1, d2, a.inventory, b.inventory),
                           Merged(d1, d2, a.tradeReceivable, b.tradeReceivable),
                           Merged(d1, d2, a.otherAsset, b.otherAsset),
                           AttachOtherLiab(d1, a.otherLiability, d2, b.otherLiability),
                           Merged(d1, d2, a.cash, b.cash),
                           Merged(d1, d2, a.tradePayable, b.tradePayable),
                           AttachEquity(d1, a.shareholderEquity, d2, b.shareholderEquity));
      assert r.Derived();
      Ok(r)
  }

  /** The attached sheet covers both operands' dates once each, in chronological
      order; at each date it holds the owner's raw items and their totals. */
  lemma AttachAt(a: BalanceSheet, b: BalanceSheet, k: nat)
    requires a.Aligned() && b.Aligned() && Chronological(a.dates) && Chronological(b.dates)
    requires Disjoint(a.dates, b.dates) && k < |a.dates| + |b.dates|
    ensures Attach(a, b).Ok?
    ensures Chronological(Attach(a, b).value.dates)
    ensures multiset(Attach(a, b).value.dates) == multiset(a.dates) + multiset(b.dates)
    ensures forall i :: 0 <= i < |a.dates| && Attach(a, b).value.dates[k] == a.dates[i] ==>
              Attach(a, b).value.RawAt(k) == a.RawAt(i) && Attach(a, b).value.TotalsAt(k) == Derive(a.RawAt(i))
    ensures forall j :: 0 <= j < |b.dates| && Attach(a, b).value.dates[k] == b.dates[j] ==>
              Attach(a, b).value.RawAt(k) == b.RawAt(j) && Attach(a, b).value.TotalsAt(k) == Derive(b.RawAt(j))
  {
    MergedChronological(a.dates, b.dates);
    MergedMultiset(a.dates, b.dates);
    var r := Attach(a, b).value;
    assert r.TotalsAt(k) == Derive(r.RawAt(k));
  }

  /** When every date of the first sheet precedes the second's, attaching is concatenation. */
  lemma AttachPrecedes(a: BalanceSheet, b: BalanceSheet)
    requires a.Aligned() && b.Aligned() && Chronological(a.dates) && Chronological(b.dates)
    requires Precedes(a.dates, b.dates)
    ensures Disjoint(a.dates, b.dates) && Attach(a, b).Ok?
    ensures Attach(a, b).value.dates == a.dates + b.dates
    ensures forall i :: 0 <= i < |a.dates| ==> Attach(a, b).value.RawAt(i) == a.RawAt(i)
    ensures forall j :: 0 <= j < |b.dates| ==> Attach(a, b).value.RawAt(|a.dates| + j) == b.RawAt(j)
  {
    var d1, d2 := a.dates, b.dates;
    MergedPrecedes(d1, d2, a.intangibleAsset, b.intangibleAsset);
    MergedPrecedes(d1, d2, a.ppe, b.ppe);
    MergedPrecedes(d1, d2, a.financialAsset, b.financialAsset);
    MergedPrecedes(d1, d2, a.financialLiability.bankBorrowing, b.financialLiability.bankBorrowing);
    MergedPrecedes(d1, d2, a.financialLiability.otherFinancialLiability, b.financialLiability.otherFinancialLiability);
    MergedPrecedes(d1, d2, a.inventory, b.inventory);
    MergedPrecedes(d1, d2, a.tradeReceivable, b.tradeReceivable);
    MergedPrecedes(d1, d2, a.otherAsset, b.otherAsset);
    MergedPrecedes(d1, d2, a.otherLiability.otherLiability, b.otherLiability.otherLiability);
    MergedPrecedes(d1, d2, a.otherLiability.deferredTaxes, b.otherLiability.deferredTaxes);
    MergedPrecedes(d1, d2, a.otherLiability.provisionForRetirementBenefit, b.otherLiability.provisionForRetirementBenefit);
    MergedPrecedes(d1, d2, a.cash, b.cash);
    MergedPrecedes(d1, d2, a.tradePayable, b.tradePayable);
    MergedPrecedes(d1, d2, a.shareholderEquity.shareCapital, b.shareholderEquity.shareCapital);
    MergedPrecedes(d1, d2, a.shareholderEquity.reserve, b.shareholderEquity.reserve);
    MergedPrecedes(d1, d2, a.shareholderEquity.retainedEarning, b.shareholderEquity.retainedEarning);
    MergedPrecedes(d1, d2, a.shareholderEquity.netAnnualProfit, b.shareholderEquity.netAnnualProfit);
  }

  /** When the first operand's dates all precede the second's, the attached
      sheet's dates are the first operand's followed by the second's. */
  lemma AttachPrecedesDates(a: BalanceSheet, b: BalanceSheet)
    requires a.Aligned() && b.Aligned() && Chronological(a.dates) && Chronological(b.dates)
    requires Precedes(a.dates, b.dates)
    ensures Attach(a, b).Ok? && Attach(a, b).value.dates == a.dates + b.dates
  {
    AttachPrecedes(a, b);
  }

  /** When the first operand's dates all precede the second's, each position of
      the attached statement carries the derived figures of its operand. */
  lemma AttachPrecedesTotals(a: BalanceSheet, b: BalanceSheet, k: nat)
    requires a.Aligned() && b.Aligned() && Chronological(a.dates) && Chronological(b.dates)
    requires Precedes(a.dates, b.dates) && k < |a.dates| + |b.dates|
    ensures Attach(a, b).Ok?
    ensures k < |a.dates| ==> Attach(a, b).value.TotalsAt(k) == Derive(a.RawAt(k))
    ensures k >= |a.dates| ==> Attach(a, b).value.TotalsAt(k) == Derive(b.RawAt(k - |a.dates|))
  {
    AttachPrecedes(a, b);
    var r := Attach(a, b).value;
    assert r.TotalsAt(k) == Derive(r.RawAt(k));
    if k >= |a.dates| {
      assert r.RawAt(|a.dates| + (k - |a.dates|)) == b.RawAt(k - |a.dates|);
    }
  }

  /** `to_pandas_df`: the fourteen columns in their fixed order. */
  function BalanceTable(s: BalanceSheet): (t: seq<Column>)
    ensures |t| == 14
  {
    [Column("Intangible assets", s.intangibleAsset),
     Column("PP&E", s.ppe),
     Column("Financial assets", s.financialAsset),
     Column("Inventory", s.inventory),
     Column("Trade receivable", s.tradeReceivable),
     Column("Other assets", s.otherAsset),
     Column("Cash and equivalents", s.cash),
     Column("Total Assets", s.totalAsset),
     Column("Trade payable", s.tradePayable),
     Column("Trade payable", s.tradePayable),
     Column("Other liabilities", s.otherLiability.total),
     Column("Financial liabilities", s.financialLiability.total),
     Column("Shareholder's equity", s.shareholderEquity.totalEquity),
     Column("Total Liabilities & Equities", s.totalLiabilityAndEquity)]
  }

  /** Of the fourteen columns, the only two that share a name are the two
      "Trade payable" columns, and they hold the same series. */
  lemma BalanceTableShape(s: BalanceSheet)
    requires s.Aligned()
    ensures forall c :: 0 <= c < 14 ==> |BalanceTable(s)[c].values| == |s.dates|
    ensures forall i, j :: 0 <= i < j < 14 ==>
              (BalanceTable(s)[i].name == BalanceTable(s)[j].name <==> i == 8 && j == 9)
    ensures BalanceTable(s)[8] == BalanceTable(s)[9] == Column("Trade payable", s.tradePayable)
  {
  }
}
