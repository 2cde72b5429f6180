/** A company's full financial statement: the actual income statement and
    balance sheet extended by their forecasts, and the cash-flow statement
    derived from the extended pair; and the period labels of the report tables. */
module Statement {
  import opened Numeric
  import opened Series
  import opened Wrappers
  import opened Income
  import opened Balance
  import opened Forecast
  import opened Cashflow

  datatype FinancialStatement = FinancialStatement(
    company: string, actualDates: seq<Date>, forecastDates: seq<Date>,
    income: IncomeStatement, balance: BalanceSheet, cash: CashFlowStatement)

  /** What the dataclasses guarantee of the actual statements. */
  predicate Actuals(inc: IncomeStatement, bs: BalanceSheet)
  {
    inc.Aligned() && inc.Derived() && bs.Aligned() && bs.Derived()
  }

  /** The conditions under which a statement can be built: the actual statements
      share one chronological, non-empty list of dates, and the forecast dates
      are chronological and new. */
  predicate Buildable(inc: IncomeStatement, bs: BalanceSheet, fDates: seq<Date>)
  {
    inc.dates == bs.dates && Chronological(inc.dates) && Chronological(fDates) &&
    |inc.dates| > 0 && Disjoint(inc.dates, fDates)
  }

  /** `FinancialStatement(...)`: forecast the income statement from the actuals,
      forecast the balance sheet from the actual balance sheet, the actual
      income statement and the forecast income statement, attach each forecast
      to its actuals, and derive the cash-flow statement from the attached pair. */
  function Build(company: string, aDates: seq<Date>, fDates: seq<Date>,
                 inc: IncomeStatement, bs: BalanceSheet): (r: Result<FinancialStatement>)
    requires Actuals(inc, bs)
    ensures r.Ok? <==> Buildable(inc, bs, fDates)
    ensures r.Ok? ==> r.value.income.Aligned() && r.value.balance.Aligned() && r.value.cash.Aligned()
    ensures r.Ok? ==> r.value.income.dates == r.value.balance.dates == r.value.cash.dates == MergedDates(inc.dates, fDates)
    ensures r.Ok? ==> r.value.company == company && r.value.actualDates == aDates && r.value.forecastDates == fDates
  {
    if inc.dates != bs.dates then Err(IncomeBalanceDates)
    else if !Chronological(inc.dates) || !Chronological(fDates) then Err(UnsortedDates)
    else match ForecastIncome(inc, fDates)
      case Err(e) => Err(e)
      case Ok(fInc) =>
        match ForecastBalance(bs, inc, fInc, fDates)
        case Err(e) => Err(e)
        case Ok(fBs) =>
          match (Income.Attach(inc, fInc), Balance.Attach(bs, fBs))
          case (Ok(income), Ok(balance)) =>
            Ok(FinancialStatement(company, aDates, fDates, income, balance, MakeCashFlow(income, balance)))
          case (Err(e), _) => Err(e)
          case (_, Err(e)) => Err(e)
  }

  /** The forecast statements a successful build attaches. */
  function ForecastPair(inc: IncomeStatement, bs: BalanceSheet, fDates: seq<Date>): (p: (IncomeStatement, BalanceSheet))
    requires Actuals(inc, bs) && Buildable(inc, bs, fDates)
    ensures p.0.Aligned() && p.1.Aligned() && p.0.dates == p.1.dates == fDates
  {
    var fInc := ForecastIncome(inc, fDates).value;
    (fInc, ForecastBalance(bs, inc, fInc, fDates).value)
  }

  lemma BuildParts(company: string, aDates: seq<Date>, fDates: seq<Date>, inc: IncomeStatement, bs: BalanceSheet)
    requires Actuals(inc, bs) && Buildable(inc, bs, fDates)
    ensures var s := Build(company, aDates, fDates, inc, bs).value;
            var (fInc, fBs) := ForecastPair(inc, bs, fDates);
            s.income == Income.Attach(inc, fInc).value && s.balance == Balance.Attach(bs, fBs).value &&
            s.cash == MakeCashFlow(s.income, s.balance)
  {
  }

  /** The attached statements hold every actual and every forecast date once,
      in chronological order. */
  lemma BuildDates(company: string, aDates: seq<Date>, fDates: seq<Date>, inc: IncomeStatement, bs: BalanceSheet)
    requires Actuals(inc, bs) && Buildable(inc, bs, fDates)
    ensures var s := Build(company, aDates, fDates, inc, bs).value;
            Chronological(s.income.dates) && |s.income.dates| == |inc.dates| + |fDates| &&
            multiset(s.income.dates) == multiset(inc.dates) + multiset(fDates)
  {
    MergedChronological(inc.dates, fDates);
    MergedMultiset(inc.dates, fDates);
  }

  /** At an actual date the attached statements hold the actual figures unchanged. */
  lemma BuildKeepsActuals(company: string, aDates: seq<Date>, fDates: seq<Date>, inc: IncomeStatement, bs: BalanceSheet,
                          k: nat, i: nat)
    requires Actuals(inc, bs) && Buildable(inc, bs, fDates)
    requires k < |inc.dates| + |fDates| && i < |inc.dates|
    requires Build(company, aDates, fDates, inc, bs).value.income.dates[k] == inc.dates[i]
    ensures var s := Build(company, aDates, fDates, inc, bs).value;
            s.income.RawAt(k) == inc.RawAt(i) && s.income.TotalsAt(k) == inc.TotalsAt(i) &&
            s.balance.RawAt(k) == bs.RawAt(i) && s.balance.TotalsAt(k) == bs.TotalsAt(i)
  {
    BuildParts(company, aDates, fDates, inc, bs);
    var (fInc, fBs) := ForecastPair(inc, bs, fDates);
    Income.AttachAt(inc, fInc, k);
    Balance.AttachAt(bs, fBs, k);
    assert inc.TotalsAt(i) == Income.Derive(inc.RawAt(i));
    assert bs.TotalsAt(i) == Balance.Derive(bs.RawAt(i));
  }

  /** At a forecast date the attached statements hold the forecast figures, and
      the balance sheet balances wherever its non-cash assets are defined. */
  lemma BuildKeepsForecasts(company: string, aDates: seq<Date>, fDates: seq<Date>, inc: IncomeStatement, bs: BalanceSheet,
                            k: nat, j: nat)
    requires Actuals(inc, bs) && Buildable(inc, bs, fDates)
    requires k < |inc.dates| + |fDates| && j < |fDates|
    requires Build(company, aDates, fDates, inc, bs).value.income.dates[k] == fDates[j]
    ensures var s := Build(company, aDates, fDates, inc, bs).value;
            var (fInc, fBs) := ForecastPair(inc, bs, fDates);
            s.income.RawAt(k) == fInc.RawAt(j) && s.balance.RawAt(k) == fBs.RawAt(j) &&
            s.balance.TotalsAt(k) == fBs.TotalsAt(j) &&
            (NonCashAssets(s.balance.RawAt(k)).Real? ==> s.balance.totalAsset[k] == s.balance.totalLiabilityAndEquity[k])
  {
    BuildParts(company, aDates, fDates, inc, bs);
    var (fInc, fBs) := ForecastPair(inc, bs, fDates);
    Income.AttachAt(inc, fInc, k);
    Balance.AttachAt(bs, fBs, k);
    ForecastBalances(bs, inc, fInc, fDates, j);
  }

  /** Net income is re-derived when the forecast is attached, and comes out as
      the forecast's own: the tax override leaves EBT alone and sets net income
      to EBT plus the overridden tax. */
  lemma ForecastNetIncomeRederived(inc: IncomeStatement, fDates: seq<Date>, j: nat)
    requires inc.Aligned() && |inc.dates| > 0 && j < |fDates|
    ensures Income.Derive(ForecastIncome(inc, fDates).value.RawAt(j)).netIncome == ForecastIncome(inc, fDates).value.netIncome[j]
  {
    var c := ConstructedIncome(inc, fDates);
    assert c.TotalsAt(j) == Income.Derive(c.RawAt(j));
  }

  /** When the forecast dates follow the actual ones, every balance-sheet
      movement of the first forecast period is taken against the last actual
      balance sheet. */
  lemma FirstForecastMovement(company: string, aDates: seq<Date>, fDates: seq<Date>, inc: IncomeStatement, bs: BalanceSheet)
    requires Actuals(inc, bs) && Buildable(inc, bs, fDates) && Precedes(inc.dates, fDates) && |fDates| > 0
    ensures var s := Build(company, aDates, fDates, inc, bs).value;
            var fBs := ForecastPair(inc, bs, fDates).1;
            var a := |inc.dates|;
            s.income.dates == inc.dates + fDates &&
            s.cash.inventoryMovement[a] == Sub(bs.inventory[a - 1], fBs.inventory[0]) &&
            s.cash.tradeReceivableMovement[a] == Sub(bs.tradeReceivable[a - 1], fBs.tradeReceivable[0]) &&
            s.cash.tradePayableMovement[a] == Sub(fBs.tradePayable[0], bs.tradePayable[a - 1]) &&
            s.cash.ppeMovement[a] == Sub(bs.ppe[a - 1], fBs.ppe[0])
    ensures var s := Build(company, aDates, fDates, inc, bs).value;
            var fBs := ForecastPair(inc, bs, fDates).1;
            var a := |inc.dates|;
            s.cash.investmentInOtherAssetAndLiability[a] ==
              Add(Sub(bs.otherAsset[a - 1], fBs.otherAsset[0]),
                  Sub(fBs.otherLiability.total[0], bs.otherLiability.total[a - 1])) &&
            s.cash.otherInvestment[a] ==
              Add(Sub(bs.intangibleAsset[a - 1], fBs.intangibleAsset[0]),
                  Sub(bs.financialAsset[a - 1], fBs.financialAsset[0])) &&
            s.cash.deltaFinLiability[a] ==
              Sub(fBs.financialLiability.total[0], bs.financialLiability.total[a - 1])
  {
    BuildParts(company, aDates, fDates, inc, bs);
    var (fInc, fBs) := ForecastPair(inc, bs, fDates);
    Income.AttachPrecedes(inc, fInc);
    Balance.AttachPrecedes(bs, fBs);
    var s := Build(company, aDates, fDates, inc, bs).value;
    var a := |inc.dates|;
    Movements(s.income, s.balance, a);
    assert s.balance.RawAt(a - 1) == bs.RawAt(a - 1);
    assert s.balance.RawAt(a + 0) == fBs.RawAt(0);
  }

  /** With the forecast after the actuals, the attached income statement shows
      the forecast's net income at each forecast position. */
  lemma AttachedForecastNetIncome(inc: IncomeStatement, fDates: seq<Date>, j: nat)
    requires inc.Aligned() && |inc.dates| > 0 && Chronological(inc.dates) && Chronological(fDates)
    requires Precedes(inc.dates, fDates) && j < |fDates|
    ensures Income.Attach(inc, ForecastIncome(inc, fDates).value).value.netIncome[|inc.dates| + j] ==
              ForecastIncome(inc, fDates).value.netIncome[j]
  {
    Income.AttachPrecedesTotals(inc, ForecastIncome(inc, fDates).value, |inc.dates| + j);
    ForecastNetIncomeRederived(inc, fDates, j);
  }

  /** With the forecast after the actuals, the attached balance sheet shows the
      actual total equity before the first forecast position and the forecast's
      total equity from there on. */
  lemma AttachedEquity(bs: BalanceSheet, fBs: BalanceSheet, k: nat)
    requires bs.Aligned() && bs.Derived() && fBs.Aligned() && fBs.Derived()
    requires Chronological(bs.dates) && Chronological(fBs.dates)
    requires Precedes(bs.dates, fBs.dates) && k < |bs.dates| + |fBs.dates|
    ensures k < |bs.dates| ==>
              Balance.Attach(bs, fBs).value.shareholderEquity.totalEquity[k] == bs.shareholderEquity.totalEquity[k]
    ensures k >= |bs.dates| ==>
              Balance.Attach(bs, fBs).value.shareholderEquity.totalEquity[k] == fBs.shareholderEquity.totalEquity[k - |bs.dates|]
  {
    Balance.AttachPrecedesTotals(bs, fBs, k);
    if k < |bs.dates| {
      assert bs.TotalsAt(k) == Balance.Derive(bs.RawAt(k));
    } else {
      assert fBs.TotalsAt(k - |bs.dates|) == Balance.Derive(fBs.RawAt(k - |bs.dates|));
    }
  }

  /** Attaching a forecast whose equity rolls the actual equity forward by its
      own net income: the attached total equity grows in each forecast period by
      exactly the attached net income. */
  lemma AttachedEquityStep(inc: IncomeStatement, bs: BalanceSheet, fInc: IncomeStatement, fBs: BalanceSheet, j: nat)
    requires Actuals(inc, bs) && inc.dates == bs.dates && |bs.dates| > 0
    requires fInc.Aligned() && fBs.Aligned() && fBs.Derived() && fInc.dates == fBs.dates
    requires Chronological(inc.dates) && Chronological(fInc.dates)
    requires Precedes(inc.dates, fInc.dates) && j < |fInc.dates|
    requires j == 0 ==> fBs.shareholderEquity.totalEquity[0] ==
                          Add(bs.shareholderEquity.totalEquity[|bs.dates| - 1], fInc.netIncome[0])
    requires j > 0 ==> fBs.shareholderEquity.totalEquity[j] ==
                         Add(fBs.shareholderEquity.totalEquity[j - 1], fInc.netIncome[j])
    requires Income.Derive(fInc.RawAt(j)).netIncome == fInc.netIncome[j]
    ensures Income.Attach(inc, fInc).Ok? && Income.Attach(inc, fInc).value.dates == inc.dates + fInc.dates
    ensures Balance.Attach(bs, fBs).Ok? && Balance.Attach(bs, fBs).value.dates == bs.dates + fBs.dates
    ensures var te := Balance.Attach(bs, fBs).value.shareholderEquity.totalEquity;
            var a := |inc.dates|;
            te[a + j] == Add(te[a + j - 1], Income.Attach(inc, fInc).value.netIncome[a + j])
  {
    AttachedNetIncomeAt(inc, fInc, j);
    AttachedEquityAround(bs, fBs, j);
  }

  /** The attached net income at a forecast position is the forecast's own. */
  lemma AttachedNetIncomeAt(inc: IncomeStatement, fInc: IncomeStatement, j: nat)
    requires inc.Aligned() && fInc.Aligned() && Chronological(inc.dates) && Chronological(fInc.dates)
    requires Precedes(inc.dates, fInc.dates) && j < |fInc.dates|
    requires Income.Derive(fInc.RawAt(j)).netIncome == fInc.netIncome[j]
    ensures Income.Attach(inc, fInc).Ok? && Income.Attach(inc, fInc).value.dates == inc.dates + fInc.dates
    ensures Income.Attach(inc, fInc).value.netIncome[|inc.dates| + j] == fInc.netIncome[j]
  {
    var a := |inc.dates|;
    Income.AttachPrecedes(inc, fInc);
    Income.AttachPrecedesTotals(inc, fInc, a + j);
    assert a + j - a == j;
  }

  /** The attached total equity at a forecast position and just before it. */
  lemma AttachedEquityAround(bs: BalanceSheet, fBs: BalanceSheet, j: nat)
    requires bs.Aligned() && bs.Derived() && fBs.Aligned() && fBs.Derived()
    requires Chronological(bs.dates) && Chronological(fBs.dates)
    requires Precedes(bs.dates, fBs.dates) && |bs.dates| > 0 && j < |fBs.dates|
    ensures Balance.Attach(bs, fBs).Ok? && Balance.Attach(bs, fBs).value.dates == bs.dates + fBs.dates
    ensures var te := Balance.Attach(bs, fBs).value.shareholderEquity.totalEquity;
            var fe := fBs.shareholderEquity.totalEquity;
            var a := |bs.dates|;
            te[a + j] == fe[j] &&
            (j == 0 ==> te[a - 1] == bs.shareholderEquity.totalEquity[a - 1]) &&
            (j > 0 ==> te[a + j - 1] == fe[j - 1])
  {
    var a := |bs.dates|;
    Balance.AttachPrecedesDates(bs, fBs);
    AttachedEquity(bs, fBs, a + j);
    assert a + j - a == j;
    if j > 0 {
      AttachedEquity(bs, fBs, a + j - 1);
      assert a + j - 1 - a == j - 1;
    } else {
      AttachedEquity(bs, fBs, a - 1);
    }
  }

  /** With the forecast after the actuals, the attached total equity grows in
      each forecast period by exactly the attached net income. */
  lemma AttachedEquityRollsForward(inc: IncomeStatement, bs: BalanceSheet, fDates: seq<Date>, j: nat)
    requires Actuals(inc, bs) && Buildable(inc, bs, fDates) && Precedes(inc.dates, fDates) && j < |fDates|
    ensures var (fInc, fBs) := ForecastPair(inc, bs, fDates);
            var te := Balance.Attach(bs, fBs).value.shareholderEquity.totalEquity;
            var a := |inc.dates|;
            te[a + j] == Add(te[a + j - 1], Income.Attach(inc, fInc).value.netIncome[a + j])
  {
    var (fInc, fBs) := ForecastPair(inc, bs, fDates);
    ForecastBalances(bs, inc, fInc, fDates, j);
    ForecastBalanceEquity(bs, inc, fInc, fDates);
    ForecastNetIncomeRederived(inc, fDates, j);
    ForecastEquity(bs, fInc, j);
    LatestIsLast(bs.dates);
    AttachedEquityStep(inc, bs, fInc, fBs, j);
  }

  /** In every forecast period after the actual ones, total equity grows by
      exactly that period's net income, so the dividend line is zero (where the
      previous equity and the net income are defined). */
  lemma NoDividendInForecast(company: string, aDates: seq<Date>, fDates: seq<Date>, inc: IncomeStatement, bs: BalanceSheet,
                             j: nat)
    requires Actuals(inc, bs) && Buildable(inc, bs, fDates) && Precedes(inc.dates, fDates) && j < |fDates|
    requires Build(company, aDates, fDates, inc, bs).value.balance.shareholderEquity.totalEquity[|inc.dates| + j - 1].Real?
    requires Build(company, aDates, fDates, inc, bs).value.income.netIncome[|inc.dates| + j].Real?
    ensures Build(company, aDates, fDates, inc, bs).value.cash.deltaEquityIncDividend[|inc.dates| + j] == Real(0.0)
  {
    var s := Build(company, aDates, fDates, inc, bs).value;
    BuildParts(company, aDates, fDates, inc, bs);
    AttachedEquityRollsForward(inc, bs, fDates, j);
    NoDividendWhenEquityRollsForward(s.income, s.balance, |inc.dates| + j);
  }

  // Report tables: each period is labelled by its year, suffixed "F" for a
  // forecast date and "A" for an actual one.

  function DigitChar(d: nat): char
    requires d < 10
  {
    "0123456789"[d]
  }

  function DigitValue(c: char): nat
  {
    if '0' <= c <= '9' then (c as int - '0' as int) as nat else 0
  }

  /** The decimal digits of a natural number, without leading zeros. */
  function NatToString(n: nat): (s: string)
    ensures |s| > 0 && forall i :: 0 <= i < |s| ==> '0' <= s[i] <= '9'
  {
    if n < 10 then [DigitChar(n)] else NatToString(n / 10) + [DigitChar(n % 10)]
  }

  function ParseNat(s: string): nat
  {
    if s == [] then 0 else ParseNat(s[..|s| - 1]) * 10 + DigitValue(s[|s| - 1])
  }

  /** Printing a number and reading it back gives the number. */
  lemma {:induction false} ParseNatToString(n: nat)
    ensures ParseNat(NatToString(n)) == n
  {
    var s := NatToString(n);
    if n >= 10 {
      ParseNatToString(n / 10);
      assert s[..|s| - 1] == NatToString(n / 10);
    }
  }

  /** The label of one period. */
  function PeriodLabel(d: Date, fDates: seq<Date>): (s: string)
    ensures |s| > 1
  {
    NatToString(Year(d)) + (if d in fDates then "F" else "A")
  }

  /** A label ends in "F" exactly for forecast dates, and what precedes the
      suffix is the date's year. */
  lemma PeriodLabelMeaning(d: Date, fDates: seq<Date>)
    ensures var s := PeriodLabel(d, fDates);
            (s[|s| - 1] == 'F' <==> d in fDates) && (s[|s| - 1] == 'A' <==> d !in fDates) &&
            ParseNat(s[..|s| - 1]) == Year(d)
  {
    var s := PeriodLabel(d, fDates);
    assert s[..|s| - 1] == NatToString(Year(d));
    ParseNatToString(Year(d));
  }

  lemma PeriodLabelExample()
    ensures PeriodLabel(20211231, [20211231, 20221231]) == "2021F"
    ensures PeriodLabel(20201231, [20211231, 20221231]) == "2020A"
  {
    assert Year(20211231) == 2021 && Year(20201231) == 2020;
    YearDigits(202, 1);
    YearDigits(202, 0);
    assert 20211231 in [20211231, 20221231];
    assert 20201231 !in [20211231, 20221231];
  }

  lemma YearDigits(prefix: nat, last: nat)
    requires prefix == 202 && last < 10
    ensures NatToString(prefix * 10 + last) == "202" + [DigitChar(last)]
  {
    assert NatToString(2) == "2";
    assert NatToString(20) == "20";
    assert NatToString(202) == "202";
    assert (prefix * 10 + last) / 10 == 202 && (prefix * 10 + last) % 10 == last;
  }

  /** The layout of a report: components in table order, periods by label. */
  datatype Report = Report(components: seq<string>, periods: seq<string>)

  function ReportLayout(table: seq<Column>, dates: seq<Date>, fDates: seq<Date>): (r: Report)
    ensures |r.components| == |table| && |r.periods| == |dates|
  {
    Report(seq(|table|, c requires 0 <= c < |table| => table[c].name),
           seq(|dates|, t requires 0 <= t < |dates| => PeriodLabel(dates[t], fDates)))
  }

  /** The income report of a built statement lists the fifteen income
      components in table order, and labels exactly the forecast periods "F". */
  lemma IncomeReport(company: string, aDates: seq<Date>, fDates: seq<Date>, inc: IncomeStatement, bs: BalanceSheet, t: nat)
    requires Actuals(inc, bs) && Buildable(inc, bs, fDates) && t < |inc.dates| + |fDates|
    ensures var s := Build(company, aDates, fDates, inc, bs).value;
            var r := ReportLayout(IncomeTable(s.income), s.income.dates, fDates);
            |r.components| == 15 && r.components[0] == "Revenues" && r.components[14] == "Net income" &&
            (r.periods[t][|r.periods[t]| - 1] == 'F' <==> s.income.dates[t] in fDates)
  {
    var s := Build(company, aDates, fDates, inc, bs).value;
    PeriodLabelMeaning(s.income.dates[t], fDates);
  }
}
