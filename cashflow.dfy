/** The cash-flow statement, derived entirely from an income statement and a
    balance sheet over the same dates: operating profit after operating taxes,
    the signed period-over-period movements of balance-sheet items, unlevered
    free cash flow and net cash flow. */
module Cashflow {
  import opened Numeric
  import opened Series
  import opened Income
  import opened Balance

  /** The movements of the other assets and liabilities and of the intangible
      and financial assets; an increase in an asset is a cash outflow. */
  datatype OtherInvestmentMovement = OtherInvestmentMovement(
    otherAsset: seq<Num>, otherLiability: seq<Num>, intangibleAsset: seq<Num>, financialAsset: seq<Num>)

  function MakeOtherInvestmentMovement(bs: BalanceSheet): (m: OtherInvestmentMovement)
    requires bs.Aligned()
    ensures |m.otherAsset| == |m.otherLiability| == |m.intangibleAsset| == |m.financialAsset| == |bs.dates|
  {
    OtherInvestmentMovement(Negated(Diff(bs.otherAsset)), Diff(bs.otherLiability.total),
                            Negated(Diff(bs.intangibleAsset)), Negated(Diff(bs.financialAsset)))
  }

  datatype CashFlowStatement = CashFlowStatement(
    dates: seq<Date>,
    ebit: seq<Num>, opTaxRate: seq<Num>, dAndA: seq<Num>,
    inventoryMovement: seq<Num>, tradeReceivableMovement: seq<Num>, tradePayableMovement: seq<Num>,
    extraordinaryItem: seq<Num>, interestExpense: seq<Num>, deltaFinLiability: seq<Num>, ppeMovement: seq<Num>,
    nopat: seq<Num>, operatingTax: seq<Num>, grossCf: seq<Num>, investmentInWorkingCapital: seq<Num>,
    otherInvestment: seq<Num>, investmentInOtherAssetAndLiability: seq<Num>, capexMovement: seq<Num>,
    ufcf: seq<Num>, deltaTaxesVsOptax: seq<Num>, deltaEquityIncDividend: seq<Num>, netCashflow: seq<Num>)
  {
    predicate Aligned()
    {
      var n := |dates|;
      |ebit| == n && |opTaxRate| == n && |dAndA| == n &&
      |inventoryMovement| == n && |tradeReceivableMovement| == n && |tradePayableMovement| == n &&
      |extraordinaryItem| == n && |interestExpense| == n && |deltaFinLiability| == n && |ppeMovement| == n &&
      |nopat| == n && |operatingTax| == n && |grossCf| == n && |investmentInWorkingCapital| == n &&
      |otherInvestment| == n && |investmentInOtherAssetAndLiability| == n && |capexMovement| == n &&
      |ufcf| == n && |deltaTaxesVsOptax| == n && |deltaEquityIncDividend| == n && |netCashflow| == n
    }
  }

  /** `CashFlowStatement(inc, bs)`, line by line. */
  function MakeCashFlow(inc: IncomeStatement, bs: BalanceSheet): (c: CashFlowStatement)
    requires inc.Aligned() && bs.Aligned() && inc.dates == bs.dates
    ensures c.Aligned() && c.dates == inc.dates
  {
    var other := MakeOtherInvestmentMovement(bs);
    var operatingTax := Times(inc.taxRate, inc.ebit);
    var nopat := Plus(inc.ebit, operatingTax);
    var dAndA := Negated(inc.dAndA);
    var grossCf := Plus(nopat, dAndA);
    var inventoryMovement := Negated(Diff(bs.inventory));
    var tradeReceivableMovement := Negated(Diff(bs.tradeReceivable));
    var tradePayableMovement := Diff(bs.tradePayable);
    var workingCapital := Plus(Plus(inventoryMovement, tradePayableMovement), tradeReceivableMovement);
    var otherAssetAndLiability := Plus(other.otherAsset, other.otherLiability);
    var otherInvestment := Plus(other.intangibleAsset, other.financialAsset);
    var ppeMovement := Negated(Diff(bs.ppe));
    var capex := Minus(ppeMovement, dAndA);
    var ufcf := Plus(Plus(Plus(Plus(Plus(grossCf, workingCapital), otherAssetAndLiability), capex), otherInvestment),
                     inc.extraordinaryIncome);
    var deltaTaxes := Minus(inc.tax, operatingTax);
    var deltaFin := Diff(bs.financialLiability.total);
    var deltaEquity := Minus(Diff(bs.shareholderEquity.totalEquity), inc.netIncome);
    var net := Plus(Plus(Plus(Plus(ufcf, inc.intExpense), deltaTaxes), deltaFin), deltaEquity);
    CashFlowStatement(inc.dates, inc.ebit, inc.taxRate, dAndA, inventoryMovement, tradeReceivableMovement,
                      tradePayableMovement, inc.extraordinaryIncome, inc.intExpense, deltaFin, ppeMovement,
                      nopat, operatingTax, grossCf, workingCapital, otherInvestment, otherAssetAndLiability,
                      capex, ufcf, deltaTaxes, deltaEquity, net)
  }

  /** Every movement line is undefined in the first period, which has no
      predecessor, and so are free cash flow and net cash flow. */
  lemma FirstPeriodUndefined(inc: IncomeStatement, bs: BalanceSheet)
    requires inc.Aligned() && bs.Aligned() && inc.dates == bs.dates && |inc.dates| > 0
    ensures var c := MakeCashFlow(inc, bs);
            c.inventoryMovement[0] == NaN && c.tradeReceivableMovement[0] == NaN &&
            c.tradePayableMovement[0] == NaN && c.investmentInWorkingCapital[0] == NaN &&
            c.ppeMovement[0] == NaN && c.capexMovement[0] == NaN &&
            c.investmentInOtherAssetAndLiability[0] == NaN && c.otherInvestment[0] == NaN &&
            c.deltaFinLiability[0] == NaN && c.deltaEquityIncDividend[0] == NaN &&
            c.ufcf[0] == NaN && c.netCashflow[0] == NaN
  {
  }

  /** After the first period each movement is the change since the previous
      period, signed as a cash flow: a rise in an asset is an outflow, a rise
      in a liability an inflow. */
  lemma Movements(inc: IncomeStatement, bs: BalanceSheet, t: nat)
    requires inc.Aligned() && bs.Aligned() && inc.dates == bs.dates && 0 < t < |inc.dates|
    ensures var c := MakeCashFlow(inc, bs);
            c.inventoryMovement[t] == Sub(bs.inventory[t - 1], bs.inventory[t]) &&
            c.tradeReceivableMovement[t] == Sub(bs.tradeReceivable[t - 1], bs.tradeReceivable[t]) &&
            c.tradePayableMovement[t] == Sub(bs.tradePayable[t], bs.tradePayable[t - 1]) &&
            c.ppeMovement[t] == Sub(bs.ppe[t - 1], bs.ppe[t]) &&
            c.investmentInOtherAssetAndLiability[t] ==
              Add(Sub(bs.otherAsset[t - 1], bs.otherAsset[t]), Sub(bs.otherLiability.total[t], bs.otherLiability.total[t - 1])) &&
            c.otherInvestment[t] ==
              Add(Sub(bs.intangibleAsset[t - 1], bs.intangibleAsset[t]), Sub(bs.financialAsset[t - 1], bs.financialAsset[t])) &&
            c.deltaFinLiability[t] == Sub(bs.financialLiability.total[t], bs.financialLiability.total[t - 1])
  {
  }

  /** A rise in inventory is a negative movement; a rise in trade payables a positive one. */
  lemma MovementSigns(inc: IncomeStatement, bs: BalanceSheet, t: nat)
    requires inc.Aligned() && bs.Aligned() && inc.dates == bs.dates && 0 < t < |inc.dates|
    ensures bs.inventory[t - 1].Real? && bs.inventory[t].Real? && bs.inventory[t].r > bs.inventory[t - 1].r ==>
              MakeCashFlow(inc, bs).inventoryMovement[t].r < 0.0
    ensures bs.tradePayable[t - 1].Real? && bs.tradePayable[t].Real? && bs.tradePayable[t].r > bs.tradePayable[t - 1].r ==>
              MakeCashFlow(inc, bs).tradePayableMovement[t].r > 0.0
  {
    Movements(inc, bs, t);
  }

  /** NOPAT is EBIT after operating tax at the statement's tax rate, the D&A
      add-back is the negated (stored negative) D&A, and capex adds D&A back to the
      PP&E outflow. */
  lemma OperatingLines(inc: IncomeStatement, bs: BalanceSheet, t: nat)
    requires inc.Aligned() && bs.Aligned() && inc.dates == bs.dates && t < |inc.dates|
    ensures var c := MakeCashFlow(inc, bs);
            c.operatingTax[t] == Mul(inc.taxRate[t], inc.ebit[t]) &&
            c.nopat[t] == Add(inc.ebit[t], c.operatingTax[t]) &&
            c.dAndA[t] == Neg(inc.dAndA[t]) &&
            c.grossCf[t] == Add(c.nopat[t], c.dAndA[t]) &&
            c.capexMovement[t] == Add(c.ppeMovement[t], inc.dAndA[t])
  {
  }

  /** The D&A add-back and the D&A inside capex cancel: where every line is
      defined, free cash flow is NOPAT plus the working-capital, other
      asset/liability, PP&E and other investment movements and the extraordinary item. */
  lemma UfcfWithoutDandA(inc: IncomeStatement, bs: BalanceSheet, t: nat)
    requires inc.Aligned() && bs.Aligned() && inc.dates == bs.dates && t < |inc.dates|
    requires MakeCashFlow(inc, bs).ufcf[t].Real?
    ensures var c := MakeCashFlow(inc, bs);
            c.ufcf[t].r == c.nopat[t].r + c.investmentInWorkingCapital[t].r + c.investmentInOtherAssetAndLiability[t].r +
                           c.ppeMovement[t].r + c.otherInvestment[t].r + c.extraordinaryItem[t].r
  {
  }

  /** Where the income statement derives its tax rate from a non-zero EBT, the
      gap between the tax charged and the operating tax is the tax on the
      interest expense and the extraordinary income. */
  lemma TaxGap(inc: IncomeStatement, bs: BalanceSheet, t: nat)
    requires inc.Aligned() && bs.Aligned() && inc.dates == bs.dates && t < |inc.dates|
    requires inc.TotalsAt(t) == Income.Derive(inc.RawAt(t))
    requires inc.ebt[t].Real? && inc.ebt[t].r != 0.0 && inc.tax[t].Real?
    ensures MakeCashFlow(inc, bs).deltaTaxesVsOptax[t] ==
              Mul(inc.taxRate[t], Add(inc.intExpense[t], inc.extraordinaryIncome[t]))
  {
    TaxLine(inc, bs, t);
    TaxGapOfPeriod(inc, t);
  }

  lemma TaxLine(inc: IncomeStatement, bs: BalanceSheet, t: nat)
    requires inc.Aligned() && bs.Aligned() && inc.dates == bs.dates && t < |inc.dates|
    ensures MakeCashFlow(inc, bs).deltaTaxesVsOptax[t] == Sub(inc.tax[t], Mul(inc.taxRate[t], inc.ebit[t]))
  {
  }

  lemma TaxGapOfPeriod(inc: IncomeStatement, t: nat)
    requires inc.Aligned() && t < |inc.dates|
    requires inc.TotalsAt(t) == Income.Derive(inc.RawAt(t))
    requires inc.ebt[t].Real? && inc.ebt[t].r != 0.0 && inc.tax[t].Real?
    ensures Sub(inc.tax[t], Mul(inc.taxRate[t], inc.ebit[t])) ==
              Mul(inc.taxRate[t], Add(inc.intExpense[t], inc.extraordinaryIncome[t]))
  {
    assert inc.ebit[t].Real? && inc.intExpense[t].Real? && inc.extraordinaryIncome[t].Real?;
    var e, x, b := inc.ebt[t].r, inc.tax[t].r, inc.ebit[t].r;
    var i, y := inc.intExpense[t].r, inc.extraordinaryIncome[t].r;
    assert e == b + i + y;
    assert inc.taxRate[t] == Real(x / e);
    TaxOnFinancing(x, e, b, i + y);
  }

  /** What the tax rate leaves of the tax once the taxed operating result is
      taken out: the tax rate applied to the rest of the taxable result. */
  lemma TaxOnFinancing(x: real, e: real, b: real, rest: real)
    requires e != 0.0 && e == b + rest
    ensures x - (x / e) * b == (x / e) * rest
  {
    calc {
      x - (x / e) * b;
      (x / e) * e - (x / e) * b;
      (x / e) * (e - b);
    }
  }

  /** Net cash flow is free cash flow plus the financing lines. */
  lemma NetCashflowLines(inc: IncomeStatement, bs: BalanceSheet, t: nat)
    requires inc.Aligned() && bs.Aligned() && inc.dates == bs.dates && 0 < t < |inc.dates|
    ensures var c := MakeCashFlow(inc, bs);
            var te := bs.shareholderEquity.totalEquity;
            c.deltaEquityIncDividend[t] == Sub(Sub(te[t], te[t - 1]), inc.netIncome[t]) &&
            c.netCashflow[t] == Add(Add(Add(Add(c.ufcf[t], inc.intExpense[t]), c.deltaTaxesVsOptax[t]),
                                        c.deltaFinLiability[t]), c.deltaEquityIncDividend[t])
  {
  }

  /** Where equity grows by exactly the period's net income, the equity line
      (dividends and other equity movements) is zero. */
  lemma NoDividendWhenEquityRollsForward(inc: IncomeStatement, bs: BalanceSheet, t: nat)
    requires inc.Aligned() && bs.Aligned() && inc.dates == bs.dates && 0 < t < |inc.dates|
    requires bs.shareholderEquity.totalEquity[t - 1].Real? && inc.netIncome[t].Real?
    requires bs.shareholderEquity.totalEquity[t] == Add(bs.shareholderEquity.totalEquity[t - 1], inc.netIncome[t])
    ensures MakeCashFlow(inc, bs).deltaEquityIncDividend[t] == Real(0.0)
  {
  }

  /** `to_pandas_df`: the twenty columns in their fixed order. */
  function CashFlowTable(c: CashFlowStatement): (t: seq<Column>)
    ensures |t| == 20
  {
    [Column("EBIT", c.ebit),
     Column("Operating taxes", c.operatingTax),
     Column("Operating tax rate", c.opTaxRate),
     Column("NOPAT", c.nopat),
     Column("Add-back D&A", c.dAndA),
     Column("Gross Cash Flow", c.grossCf),
     Column("Inventory (movement)", c.inventoryMovement),
     Column("Trade receivables (movement)", c.tradeReceivableMovement),
     Column("Trade payable (movement)", c.tradePayableMovement),
     Column("Net change in working capital", c.investmentInWorkingCapital),
     Column("Net change in other asset/liabilities", c.investmentInOtherAssetAndLiability),
     Column("Capex (movement)", c.capexMovement),
     Column("Other investment (movement)", c.otherInvestment),
     Column("Extra-ordinary items", c.extraordinaryItem),
     Column("Unlevered Free Cashflows", c.ufcf),
     Column("Interest expenses", c.interestExpense),
     Column("Delta Taxes vs. Operating taxes", c.deltaTaxesVsOptax),
     Column("Delta Financial liabilities", c.deltaFinLiability),
     Column("Delta Equity (inc. dividends)", c.deltaEquityIncDividend),
     Column("Net Cashflow", c.netCashflow)]
  }

  /** The cash-flow table has twenty distinctly named columns, each with one value
      per period, from EBIT to net cash flow. */
  lemma CashFlowTableShape(c: CashFlowStatement)
    requires c.Aligned()
    ensures DistinctNames(CashFlowTable(c))
    ensures forall k :: 0 <= k < 20 ==> |CashFlowTable(c)[k].values| == |c.dates|
    ensures CashFlowTable(c)[0] == Column("EBIT", c.ebit)
    ensures CashFlowTable(c)[14] == Column("Unlevered Free Cashflows", c.ufcf)
    ensures CashFlowTable(c)[19] == Column("Net Cashflow", c.netCashflow)
  {
  }
}
