/** The income statement: revenue, cost of goods sold and operating expenses,
    each with its derived total, and the statement's derived margins. Expenses
    are stored negative, so every total is a sum. */
module Income {
  import opened Numeric
  import opened Series
  import opened Wrappers

  /** Sales (named `revenue` in the dataclass, `sales` where the forecast builds
      it: one field) and other revenue, with their total. */
  datatype Revenue = Revenue(sales: seq<Num>, otherRevenue: seq<Num>, totRevenue: seq<Num>)
  {
    predicate Aligned(n: nat)
    {
      |sales| == n && |otherRevenue| == n && |totRevenue| == n
    }
  }

  datatype Cogs = Cogs(rawMaterial: seq<Num>, directCost: seq<Num>, cogs: seq<Num>)
  {
    predicate Aligned(n: nat)
    {
      |rawMaterial| == n && |directCost| == n && |cogs| == n
    }
  }

  datatype OperatingExpense = OperatingExpense(costForServices: seq<Num>, leaseCost: seq<Num>, other: seq<Num>, opex: seq<Num>)
  {
    predicate Aligned(n: nat)
    {
      |costForServices| == n && |leaseCost| == n && |other| == n && |opex| == n
    }
  }

  function MakeRevenue(sales: seq<Num>, otherRevenue: seq<Num>): (r: Revenue)
    requires |sales| == |otherRevenue|
    ensures r.Aligned(|sales|)
  {
    Revenue(sales, otherRevenue, Plus(sales, otherRevenue))
  }

  function MakeCogs(rawMaterial: seq<Num>, directCost: seq<Num>): (c: Cogs)
    requires |rawMaterial| == |directCost|
    ensures c.Aligned(|rawMaterial|)
  {
    Cogs(rawMaterial, directCost, Plus(rawMaterial, directCost))
  }

  function MakeOperatingExpense(costForServices: seq<Num>, leaseCost: seq<Num>, other: seq<Num>): (o: OperatingExpense)
    requires |costForServices| == |leaseCost| == |other|
    ensures o.Aligned(|costForServices|)
  {
    OperatingExpense(costForServices, leaseCost, other, Plus(Plus(costForServices, leaseCost), other))
  }

  /** The raw line items of one period. */
  datatype IncomePeriod = IncomePeriod(
    sales: Num, otherRevenue: Num, rawMaterial: Num, directCost: Num,
    costForServices: Num, leaseCost: Num, other: Num,
    dAndA: Num, intExpense: Num, extraordinaryIncome: Num, tax: Num)

  /** The derived figures of one period. */
  datatype IncomeTotals = IncomeTotals(
    totRevenue: Num, cogs: Num, opex: Num, grossMargin: Num, ebitda: Num,
    ebit: Num, ebt: Num, taxRate: Num, netIncome: Num)

  /** The derivation of one period, step by step in dependency order. */
  function Derive(p: IncomePeriod): IncomeTotals
  {
    var totRevenue := Add(p.sales, p.otherRevenue);
    var cogs := Add(p.rawMaterial, p.directCost);
    var opex := Add(Add(p.costForServices, p.leaseCost), p.other);
    var grossMargin := Add(totRevenue, cogs);
    var ebitda := Add(grossMargin, opex);
    var ebit := Add(ebitda, p.dAndA);
    var ebt := Add(Add(ebit, p.intExpense), p.extraordinaryIncome);
    IncomeTotals(totRevenue, cogs, opex, grossMargin, ebitda, ebit, ebt, Div(p.tax, ebt), Add(ebt, p.tax))
  }

  datatype IncomeStatement = IncomeStatement(
    dates: seq<Date>,
    revenue: Revenue, cogs: Cogs, opex: OperatingExpense,
    dAndA: seq<Num>, intExpense: seq<Num>, extraordinaryIncome: seq<Num>, tax: seq<Num>,
    grossMargin: seq<Num>, ebitda: seq<Num>, ebit: seq<Num>, ebt: seq<Num>,
    taxRate: seq<Num>, netIncome: seq<Num>)
  {
    /** Every series has one entry per date. */
    predicate Aligned()
    {
      var n := |dates|;
      revenue.Aligned(n) && cogs.Aligned(n) && opex.Aligned(n) &&
      |dAndA| == n && |intExpense| == n && |extraordinaryIncome| == n && |tax| == n &&
      |grossMargin| == n && |ebitda| == n && |ebit| == n && |ebt| == n &&
      |taxRate| == n && |netIncome| == n
    }

    function RawAt(t: nat): IncomePeriod
      requires Aligned() && t < |dates|
    {
      IncomePeriod(revenue.sales[t], revenue.otherRevenue[t], cogs.rawMaterial[t], cogs.directCost[t],
                   opex.costForServices[t], opex.leaseCost[t], opex.other[t],
                   dAndA[t], intExpense[t], extraordinaryIncome[t], tax[t])
    }

    function TotalsAt(t: nat): IncomeTotals
      requires Aligned() && t < |dates|
    {
      IncomeTotals(revenue.totRevenue[t], cogs.cogs[t], opex.opex[t], grossMargin[t], ebitda[t],
                   ebit[t], ebt[t], taxRate[t], netIncome[t])
    }

    /** Every derived figure is what the derivation gives for its period's raw items. */
    predicate Derived()
      requires Aligned()
    {
      forall t :: 0 <= t < |dates| ==> TotalsAt(t) == Derive(RawAt(t))
    }
  }

  /** `IncomeStatement(...)`: computes the derived series column by column. */
  function MakeIncome(dates: seq<Date>, revenue: Revenue, cogs: Cogs, opex: OperatingExpense,
                      dAndA: seq<Num>, intExpense: seq<Num>, extraordinaryIncome: seq<Num>, tax: seq<Num>): (s: IncomeStatement)
    requires revenue.Aligned(|dates|) && cogs.Aligned(|dates|) && opex.Aligned(|dates|)
    requires |dAndA| == |intExpense| == |extraordinaryIncome| == |tax| == |dates|
    ensures s.Aligned() && s.dates == dates
  {
    var grossMargin := Plus(revenue.totRevenue, cogs.cogs);
    var ebitda := Plus(grossMargin, opex.opex);
    var ebit := Plus(ebitda, dAndA);
    var ebt := Plus(Plus(ebit, intExpense), extraordinaryIncome);
    IncomeStatement(dates, revenue, cogs, opex, dAndA, intExpense, extraordinaryIncome, tax,
                    grossMargin, ebitda, ebit, ebt, Over(tax, ebt), Plus(ebt, tax))
  }

  /** Building a statement from line-item aggregates built by their own
      constructors gives, in every period, the per-period derivation. */
  lemma MakeIncomeDerived(dates: seq<Date>, sales: seq<Num>, otherRevenue: seq<Num>,
                          rawMaterial: seq<Num>, directCost: seq<Num>,
                          costForServices: seq<Num>, leaseCost: seq<Num>, other: seq<Num>,
                          dAndA: seq<Num>, intExpense: seq<Num>, extraordinaryIncome: seq<Num>, tax: seq<Num>)
    requires |sales| == |otherRevenue| == |rawMaterial| == |directCost| == |dates|
    requires |costForServices| == |leaseCost| == |other| == |dates|
    requires |dAndA| == |intExpense| == |extraordinaryIncome| == |tax| == |dates|
    ensures MakeIncome(dates, MakeRevenue(sales, otherRevenue), MakeCogs(rawMaterial, directCost),
                       MakeOperatingExpense(costForServices, leaseCost, other),
                       dAndA, intExpense, extraordinaryIncome, tax).Derived()
  {
  }

  /** The derivation chain in one period, and net income through the tax rate:
      where EBT is a non-zero number, net income is EBT times (1 + tax rate). */
  lemma NetIncomeChain(p: IncomePeriod)
    ensures Derive(p).netIncome == Add(Add(Add(Add(Add(Add(p.sales, p.otherRevenue), Add(p.rawMaterial, p.directCost)),
                                        Add(Add(p.costForServices, p.leaseCost), p.other)), p.dAndA),
                                        Add(p.intExpense, p.extraordinaryIncome)), p.tax)
    ensures Derive(p).ebt.Real? && Derive(p).ebt.r != 0.0 ==>
              Derive(p).netIncome == Mul(Derive(p).ebt, Add(Real(1.0), Derive(p).taxRate))
  {
    var d := Derive(p);
    if d.ebt.Real? && d.ebt.r != 0.0 && p.tax.Real? {
      var e, x := d.ebt.r, p.tax.r;
      assert e * (1.0 + x / e) == e + x;
    }
  }

  // attach: concatenate by date, sort, and re-derive.

  function AttachRevenue(d1: seq<Date>, a: Revenue, d2: seq<Date>, b: Revenue): (r: Revenue)
    requires a.Aligned(|d1|) && b.Aligned(|d2|)
    ensures r.Aligned(|d1| + |d2|)
  {
    MakeRevenue(Merged(d1, d2, a.sales, b.sales), Merged(d1, d2, a.otherRevenue, b.otherRevenue))
  }

  function AttachCogs(d1: seq<Date>, a: Cogs, d2: seq<Date>, b: Cogs): (c: Cogs)
    requires a.Aligned(|d1|) && b.Aligned(|d2|)
    ensures c.Aligned(|d1| + |d2|)
  {
    MakeCogs(Merged(d1, d2, a.rawMaterial, b.rawMaterial), Merged(d1, d2, a.directCost, b.directCost))
  }

  function AttachOperatingExpense(d1: seq<Date>, a: OperatingExpense, d2: seq<Date>, b: OperatingExpense): (o: OperatingExpense)
    requires a.Aligned(|d1|) && b.Aligned(|d2|)
    ensures o.Aligned(|d1| + |d2|)
  {
    MakeOperatingExpense(Merged(d1, d2, a.costForServices, b.costForServices),
                         Merged(d1, d2, a.leaseCost, b.leaseCost), Merged(d1, d2, a.other, b.other))
  }

  /** `IncomeStatement.attach`: one statement over the dates of both operands,
      which are each in chronological order, interleaved into chronological
      order; a date held by both is a configuration error. */
  function Attach(a: IncomeStatement, b: IncomeStatement): (r: Result<IncomeStatement>)
    requires a.Aligned() && b.Aligned()
    requires Chronological(a.dates) && Chronological(b.dates)
    ensures r.Ok? <==> Disjoint(a.dates, b.dates)
    ensures r.Ok? ==> r.value.Aligned() && r.value.Derived() && r.value.dates == MergedDates(a.dates, b.dates)
  {
    if !Disjoint(a.dates, b.dates) then Err(OverlappingDates)
    else
      var d1, d2 := a.dates, b.dates;
      var r := MakeIncome(MergedDates(d1, d2),
                          AttachRevenue(d1, a.revenue, d2, b.revenue),
                          AttachCogs(d1, a.cogs, d2, b.cogs),
                          AttachOperatingExpense(d1, a.opex, d2, b.opex),
                          Merged(d1, d2, a.dAndA, b.dAndA),
                          Merged(d1, d2, a.intExpense, b.intExpense),
                          Merged(d1, d2, a.extraordinaryIncome, b.extraordinaryIncome),
                          Merged(d1, d2, a.tax, b.tax));
      assert r.Derived();
      Ok(r)
  }

  /** The attached statement covers both operands' dates, once each and in
      chronological order, so its length is the sum of theirs; at each date it
      holds the raw items of the operand that owns the date, and the derived
      figures of those items. */
  lemma AttachAt(a: IncomeStatement, b: IncomeStatement, k: nat)
    requires a.Aligned() && b.Aligned() && Chronological(a.dates) && Chronological(b.dates)
    requires Disjoint(a.dates, b.dates) && k < |a.dates| + |b.dates|
    ensures Attach(a, b).Ok?
    ensures Chronological(Attach(a, b).value.dates)
    ensures multiset(Attach(a, b).value.dates) == multiset(a.dates) + multiset(b.dates)
    ensures forall i :: 0 <= i < |a.dates| && Attach(a, b).value.dates[k] == a.dates[i] ==>
              Attach(a, b).value.RawAt(k) == a.RawAt(i) && Attach(a, b).value.TotalsAt(k) == Derive(a.RawAt(i))
    ensures forall j :: 0 <= j < |b.dates| && Attach(a, b).value.dates[k] == b.dates[j] ==>
              Attach(a, b).value.RawAt(k) == b.RawAt(j) && Attach(a, b).value.TotalsAt(k) == Derive(b.RawAt(j))
  {
    MergedChronological(a.dates, b.dates);
    MergedMultiset(a.dates, b.dates);
    var r := Attach(a, b).value;
    assert r.TotalsAt(k) == Derive(r.RawAt(k));
  }

  /** When every date of the first statement precedes the second's, the
      attached statement is the first followed by the second. */
  lemma AttachPrecedes(a: IncomeStatement, b: IncomeStatement)
    requires a.Aligned() && b.Aligned() && Chronological(a.dates) && Chronological(b.dates)
    requires Precedes(a.dates, b.dates)
    ensures Disjoint(a.dates, b.dates) && Attach(a, b).Ok?
    ensures Attach(a, b).value.dates == a.dates + b.dates
    ensures forall i :: 0 <= i < |a.dates| ==> Attach(a, b).value.RawAt(i) == a.RawAt(i)
    ensures forall j :: 0 <= j < |b.dates| ==> Attach(a, b).value.RawAt(|a.dates| + j) == b.RawAt(j)
  {
    var d1, d2 := a.dates, b.dates;
    MergedPrecedes(d1, d2, a.revenue.sales, b.revenue.sales);
    MergedPrecedes(d1, d2, a.revenue.otherRevenue, b.revenue.otherRevenue);
    MergedPrecedes(d1, d2, a.cogs.rawMaterial, b.cogs.rawMaterial);
    MergedPrecedes(d1, d2, a.cogs.directCost, b.cogs.directCost);
    MergedPrecedes(d1, d2, a.opex.costForServices, b.opex.costForServices);
    MergedPrecedes(d1, d2, a.opex.leaseCost, b.opex.leaseCost);
    MergedPrecedes(d1, d2, a.opex.other, b.opex.other);
    MergedPrecedes(d1, d2, a.dAndA, b.dAndA);
    MergedPrecedes(d1, d2, a.intExpense, b.intExpense);
    MergedPrecedes(d1, d2, a.extraordinaryIncome, b.extraordinaryIncome);
    MergedPrecedes(d1, d2, a.tax, b.tax);
  }

  /** When the first operand's dates all precede the second's, each position of
      the attached statement carries the derived figures of its operand. */
  lemma AttachPrecedesTotals(a: IncomeStatement, b: IncomeStatement, k: nat)
    requires a.Aligned() && b.Aligned() && Chronological(a.dates) && Chronological(b.dates)
    requires Precedes(a.dates, b.dates) && k < |a.dates| + |b.dates|
    ensures Attach(a, b).Ok?
    ensures k < |a.dates| ==> Attach(a, b).value.TotalsAt(k) == Derive(a.RawAt(k))
    ensures k >= |a.dates| ==> Attach(a, b).value.TotalsAt(k) == Derive(b.RawAt(k - |a.dates|))
  {
    AttachPrecedes(a, b);
    var r := Attach(a, b).value;
    assert r.TotalsAt(k) == Derive(r.RawAt(k));
    if k >= |a.dates| {
      assert r.RawAt(|a.dates| + (k - |a.dates|)) == b.RawAt(k - |a.dates|);
    }
  }

  /** `to_pandas_df`: the fifteen columns in their fixed order. */
  function IncomeTable(s: IncomeStatement): (t: seq<Column>)
    ensures |t| == 15
  {
    [Column("Revenues", s.revenue.sales),
     Column("Other revenues", s.revenue.otherRevenue),
     Column("Total revenues", s.revenue.totRevenue),
     Column("Cost of goods sold", s.cogs.cogs),
     Column("Gross margin", s.grossMargin),
     Column("Operating expenses", s.opex.opex),
     Column("EBITDA", s.ebitda),
     Column("D&A", s.dAndA),
     Column("EBIT", s.ebit),
     Column("Interest expense", s.intExpense),
     Column("Extraordinary income", s.extraordinaryIncome),
     Column("EBT", s.ebt),
     Column("Tax rate", s.taxRate),
     Column("Taxes", s.tax),
     Column("Net income", s.netIncome)]
  }

  /** The income table has fifteen distinctly named columns, each with one value
      per period, running from sales to net income. */
  lemma IncomeTableShape(s: IncomeStatement)
    requires s.Aligned()
    ensures |IncomeTable(s)| == 15 && DistinctNames(IncomeTable(s))
    ensures forall c :: 0 <= c < 15 ==> |IncomeTable(s)[c].values| == |s.dates|
    ensures IncomeTable(s)[0] == Column("Revenues", s.revenue.sales)
    ensures IncomeTable(s)[14] == Column("Net income", s.netIncome)
  {
  }
}
