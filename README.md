# finModel statement forecasting and DCF valuation, modelled in Dafny

This project models the core of `finModel`, a small engine that takes a
company's actual income statement and balance sheet and does five things:

1. It forecasts both statements over a list of future period dates. Each line
   follows one of a few rules: average historical growth, carry-forward, a mean
   share of sales, days outstanding, and an equity roll-forward.
2. It attaches each forecast to its actuals.
3. It derives a cash-flow statement from the attached pair.
4. It values the company by discounted cash flow (DCF). That means:
   - the CAPM cost of equity and the cost of debt;
   - the weighted average cost of capital (WACC);
   - the present value of the forecast unlevered free cash flows (UFCF);
   - a Gordon-growth continuing value;
   - the bridge from enterprise value to equity value.
5. It computes a grid of enterprise values over candidate WACC and long-term
   growth rates.

Modules, one per source file (plus three shared ones):

| module | file | models |
|---|---|---|
| `Wrappers` | wrappers.dfy | `Option`, `Result` and the error cases of construction and lookup |
| `Numeric` | numeric.dfy | Amounts as `Num = Real(r) \| NaN`. NaN absorbs every operation, and division by zero gives NaN. Element-wise series arithmetic, `numpy.nanmean` (which is also what `np.mean` of a pandas series computes), and the NaN-skipping sum of pandas |
| `Series` | series.dfy | Dates (`nat` in YYYYMMDD form, year = date / 10000) and `diff`. Lookup by date, and the date-ordered merge that `pd.concat(...).sort_index()` performs |
| `Transform` | transform.dfy | `mean_g`, `const_pandas_series`, `const_growth`, `const_share`, and the `days_outstanding` and `add_movement` helpers |
| `Income` | income.dfy | `Revenue`, `COGS`, `OperatingExpense` and `IncomeStatement`: derived fields, `attach`, and the columns of `to_pandas_df` |
| `Balance` | balance.dfy | `OtherLiab`, `FinLiab`, `Equity` and `BalanceSheet`: totals, cash as a plug, and the columns of `to_pandas_df`; plus the `attach` that main.py calls but balance.py does not define, mirroring `IncomeStatement.attach` |
| `Forecast` | forecast.dfy | `is_forecast_avg_growth` and `bs_forecast_avg_growth` |
| `Cashflow` | cashflow.dfy | `OtherInvestmentMovement` and `CashFlowStatement`: every line, and the columns of `to_pandas_df` |
| `Statement` | statement.dfy | The `FinancialStatement` constructor, and the period labels and component order of `report_table` |
| `Valuation` | valuation.dfy | `calc_cost_of_equity`, `calc_cost_of_debt`, `calc_wacc`, the `DCFValuation` constructor and `simulate_enterprise_val` |

Representation: a statement is a list of dates plus one sequence per line
item, aligned with the dates. Each dataclass field becomes a datatype field.
Each derived field (`field(init=False)`) is stored, and it is computed by a
`Make…` function, just as `__post_init__` computes it. The `Derived()`
predicate says that every derived figure equals the per-period derivation
applied to that period's raw items. `attach` re-runs that derivation, and so
does every constructor.

The source builds everything from expressions, except for two imperative
parts:
- **The tax override.** The income forecast overwrites three fields after
  construction. The model builds the record with those three values replaced.
- **The valuation grid.** `simulate_enterprise_val` appends to a list in
  nested loops. It is a method with two `while` loops and their invariants,
  proved equal to the sequence function `Grid`.

Amounts are exact reals. A division by zero, or any arithmetic on a missing
value, gives NaN.

## Model

| member | source | states |
|---|---|---|
| Numeric.NanMean | finModel/utils/transform.py:14 | `nanmean` is defined iff some entry is defined, and then times the number of defined entries it is their sum |
| Numeric.NanMeanOfConstant | finModel/utils/transform.py:14 | the nanmean of a series whose defined entries all equal c is c |
| Numeric.DefinedScaled | finModel/statements/forecast.py:87-88 | scaling a series by a defined amount keeps the same number of defined entries and scales their sum by it |
| Numeric.NanMeanScaled | finModel/statements/forecast.py:87-88 | the NaN-skipping mean of a series scaled by c is c times its mean, and stays undefined when no entry is defined |
| Series.LatestIndex | finModel/utils/transform.py:38 | `np.max(ser.index)`: the position returned holds a date no earlier than any other |
| Series.LatestIsLast | finModel/utils/transform.py:38 | for chronological dates the latest date is the last position |
| Series.Diff | finModel/statements/cashflow.py:59 | `diff` keeps the length |
| Series.Select | finModel/analysis/dcf_valuation.py:67 | `ufcf[forecast_dates]` succeeds iff every key is a date of the series; it then has one entry per key, each the value at that key's date |
| Series.IndexOf | finModel/analysis/dcf_valuation.py:73-74 | lookup by date: a found position holds the date, and a miss means no position does |
| Series.MergedChronological | finModel/statements/income.py:18 | concatenating two chronological, disjoint date lists and sorting gives a chronological list |
| Series.MergedMultiset | finModel/statements/income.py:18 | the merged dates are exactly the two operands' dates, each once |
| Series.MergedOwner | finModel/statements/income.py:18-19 | at each merged position, a concatenated and sorted series holds the value its owning operand has at that date |
| Series.MergedPrecedes | finModel/statements/main.py:25-26 | when every date of the first operand is before the second's, the merge is plain concatenation |
| Transform.MeanG | finModel/utils/transform.py:13-15 | `mean_g` needs at least two periods to be defined |
| Transform.MeanGTwoPeriods | finModel/utils/transform.py:14 | `mean_g([100, 110])` is 0.1 |
| Transform.GrowthRatioOfGrowing | finModel/utils/transform.py:14 | in a series growing by exactly r from a non-zero start, each ratio x[t]/x[t−1] − 1 is r |
| Transform.MeanGOfConstantGrowth | finModel/utils/transform.py:14 | `mean_g` of a series growing by exactly r each period is r |
| Transform.ConstSeries | finModel/utils/transform.py:18-26 | `const_pandas_series` has one entry per forecast date, each the constant |
| Transform.ConstGrowth | finModel/utils/transform.py:29-42 | `const_growth` has one entry per forecast date |
| Transform.ConstGrowthStep | finModel/utils/transform.py:37-39 | the first forecast is the latest value times (1+g), and each later one is the previous times (1+g) |
| Transform.ConstGrowthClosedForm | finModel/utils/transform.py:37-39 | forecast step k (1-based) is the value at the latest date times (1+g)^k |
| Transform.ConstGrowthCarryForward | finModel/utils/transform.py:38 | with g = 0 every forecast equals the value at the latest date |
| Transform.ConstGrowthUsesLatestDate | finModel/utils/transform.py:38 | with dates out of order, the value carried is the one at the maximum date, not the last position |
| Transform.ConstShare | finModel/utils/transform.py:45-56 | `const_share` keeps the length of the series it scales |
| Transform.ConstShareRecovers | finModel/utils/transform.py:53 | each entry over its non-zero driver gives back the share; a zero share gives zeros where the driver is defined |
| Transform.DaysOutstanding | finModel/statements/forecast.py:88 | days outstanding has one entry per period |
| Transform.DaysOutstandingRatio | finModel/statements/forecast.py:87-88 | days outstanding over the period length is the plain ratio num/den |
| Transform.RollForwardStep | finModel/statements/forecast.py:72 | each roll-forward balance is the previous balance (the start, at first) plus that period's flow |
| Transform.AddMovement | finModel/statements/forecast.py:106 | `add_movement` has one entry per forecast net income |
| Income.MakeRevenue | finModel/statements/income.py:14-15 | the revenue record built from aligned inputs is aligned |
| Income.MakeCogs | finModel/statements/income.py:31-32 | the COGS record built from aligned inputs is aligned |
| Income.MakeOperatingExpense | finModel/statements/income.py:49-50 | the opex record built from aligned inputs is aligned |
| Income.MakeIncome | finModel/statements/income.py:77-83 | the statement built from aligned inputs is aligned over the given dates |
| Income.MakeIncomeDerived | finModel/statements/income.py:77-83 | building the three sub-records and the statement leaves every period derived: totals, margins, EBITDA, EBIT, EBT, tax rate and net income |
| Income.NetIncomeChain | finModel/statements/income.py:78-83 | net income is the sum of every raw line; where EBT is defined and non-zero it is EBT·(1 + tax rate) |
| Income.AttachRevenue | finModel/statements/income.py:17-19 | attaching revenue is aligned over both operands' periods |
| Income.AttachCogs | finModel/statements/income.py:34-36 | attaching COGS is aligned over both operands' periods |
| Income.AttachOperatingExpense | finModel/statements/income.py:52-55 | attaching opex is aligned over both operands' periods |
| Income.Attach | finModel/statements/income.py:103-112 | for chronological operands, attach succeeds iff the dates are disjoint; the result is aligned, derived and dated by the merged dates |
| Income.AttachAt | finModel/statements/income.py:103-112 | the attached dates are chronological and are the operands' dates once each; at each date the raw items are the owner's, and the totals are the derivation of them |
| Income.AttachPrecedes | finModel/statements/main.py:25 | with the second statement after the first, the attached statement is the first followed by the second |
| Income.AttachPrecedesTotals | finModel/statements/income.py:104 | in that case the totals at each position are the derivation of the owner's raw items |
| Income.IncomeTable | finModel/statements/income.py:85-101 | `to_pandas_df` has 15 columns |
| Income.IncomeTableShape | finModel/statements/income.py:86-100 | the 15 names are distinct, each column has one entry per date, and the columns run from "Revenues" to "Net income" |
| Balance.MakeOtherLiab | finModel/statements/balance.py:16-17 | the other-liabilities record built from aligned inputs is aligned |
| Balance.MakeFinLiab | finModel/statements/balance.py:29-30 | the financial-liabilities record built from aligned inputs is aligned |
| Balance.MakeEquity | finModel/statements/balance.py:44-45 | the equity record built from aligned inputs is aligned |
| Balance.EquityOfZeros | finModel/statements/balance.py:45 | with share capital, reserve and retained earnings zero, total equity is the net annual profit |
| Balance.Derive | finModel/statements/balance.py:67-71 | total assets are the non-cash assets plus cash; total liabilities and equity are the liability and equity sum |
| Balance.BalanceIdentity | finModel/statements/balance.py:67-71 | with cash as the plug, total assets equal total liabilities and equity whenever the non-cash assets are defined |
| Balance.CashPlugIgnoresCash | finModel/statements/balance.py:67-71 | the plug does not depend on the cash it replaces |
| Balance.MakeBalance | finModel/statements/balance.py:67-71 | the sheet built from aligned inputs is aligned over the given dates |
| Balance.MakeBalanceDerived | finModel/statements/balance.py:67-71 | building the three sub-records and the sheet leaves every period derived |
| Balance.AttachOtherLiab | finModel/statements/main.py:26 | attaching other liabilities is aligned over both operands' periods |
| Balance.AttachFinLiab | finModel/statements/main.py:26 | attaching financial liabilities is aligned over both operands' periods |
| Balance.AttachEquity | finModel/statements/main.py:26 | attaching equity is aligned over both operands' periods |
| Balance.Attach | finModel/statements/main.py:26 | for chronological operands, attach succeeds iff the dates are disjoint; the result is aligned, derived and dated by the merged dates |
| Balance.AttachAt | finModel/statements/main.py:26 | the attached dates are chronological and are the operands' dates once each; at each date the raw items are the owner's, and the totals are the derivation of them |
| Balance.AttachPrecedes | finModel/statements/main.py:26 | with the second sheet after the first, the attached sheet is the first followed by the second |
| Balance.AttachPrecedesDates | finModel/statements/main.py:26 | in that case the attached dates are the two date lists concatenated |
| Balance.AttachPrecedesTotals | finModel/statements/main.py:26 | in that case the totals at each position are the derivation of the owner's raw items |
| Balance.BalanceTable | finModel/statements/balance.py:73-88 | `to_pandas_df` has 14 columns |
| Balance.BalanceTableShape | finModel/statements/balance.py:74-87 | each column has one entry per date; the only repeated name is "Trade payable", at positions 8 and 9 (0-based), both holding trade payables |
| Forecast.ShareRule | finModel/statements/forecast.py:82 | the mean-share rule has one entry per forecast period |
| Forecast.DaysRule | finModel/statements/forecast.py:87-88 | the days-outstanding rule has one entry per forecast period |
| Forecast.DaysRuleIsShare | finModel/statements/forecast.py:87-90 | the rule gives driver[k] times the mean of the defined historical ratios (`np.mean` of a pandas series skips NaN), and is defined iff the driver is and some ratio is |
| Forecast.DaysRuleSkipsUndefined | finModel/statements/forecast.py:87-88 | inventory 10, missing, 12 against COGS -40, -44, -48 with forecast COGS -50 gives inventory 12.5: the missing ratio is skipped |
| Forecast.ForecastIncome | finModel/statements/forecast.py:14-56 | the income forecast succeeds iff there is an actual period, and then has one entry per forecast date in every series |
| Forecast.ConstructedIncome | finModel/statements/forecast.py:36-48 | the statement built before the tax override is aligned over the forecast dates and derived |
| Forecast.OverrideTax | finModel/statements/forecast.py:52-54 | the override keeps alignment and dates |
| Forecast.OverrideTaxDerived | finModel/statements/forecast.py:52-54 | where EBT is defined and non-zero, the overridden period is still consistent with the derivation |
| Forecast.ForecastSales | finModel/statements/forecast.py:34 | forecast sales at step k are the latest actual sales times (1 + mean_g(sales))^k |
| Forecast.ForecastSalesExample | finModel/statements/forecast.py:34 | actual sales [100, 110, 121] forecast [133.1, 146.41] |
| Forecast.ForecastIncomeCarried | finModel/statements/forecast.py:37-46 | other revenue and interest expense carry their latest actual value |
| Forecast.ForecastIncomeShares | finModel/statements/forecast.py:38-45 | raw material, lease cost and other opex are zero; COGS, opex and D&A are forecast sales times the nanmean of their historical share of sales |
| Forecast.ForecastIncomeTax | finModel/statements/forecast.py:47-54 | extraordinary income is zero, the tax rate is the nanmean of actual tax/EBT, tax is rate × EBT, and net income is EBT + tax |
| Forecast.ForecastIncomeDerived | finModel/statements/forecast.py:52-54 | where every forecast EBT is non-zero, the overridden forecast is derived |
| Forecast.PlugCash | finModel/statements/forecast.py:80-107 | the plugged cash has one entry per period |
| Forecast.ForecastBalance | finModel/statements/forecast.py:59-110 | the balance forecast succeeds iff there is an actual period, and then has one entry per forecast date in every series |
| Forecast.ForecastBalanceCarried | finModel/statements/forecast.py:81-86 | intangible and financial assets, bank borrowing and other financial liabilities carry their latest actual value |
| Forecast.ForecastBalanceShares | finModel/statements/forecast.py:82-99 | PP&E, other assets and each other-liability part are forecast sales times the nanmean of their historical share of actual sales |
| Forecast.ForecastWorkingCapital | finModel/statements/forecast.py:87-101 | inventory and trade payables are forecast COGS, and trade receivables forecast sales, times the mean of the defined historical ratios; the inventory forecast is undefined when no inventory ratio is defined |
| Forecast.ForecastEquityOf | finModel/statements/forecast.py:102-106 | forecast equity has one entry per forecast period |
| Forecast.ForecastEquityIsProfit | finModel/statements/forecast.py:103-106 | share capital, reserve and retained earnings are zero, so total equity is the net annual profit |
| Forecast.ForecastEquity | finModel/statements/forecast.py:102-106 | forecast total equity starts at the latest actual total equity plus the first net income, and then grows by each period's net income |
| Forecast.ForecastBalanceEquity | finModel/statements/forecast.py:102-106 | the forecast sheet's equity is that roll-forward |
| Forecast.ForecastBalances | finModel/statements/forecast.py:80-107 | the forecast sheet is derived, its cash is the plug, and it balances wherever the non-cash assets are defined |
| Cashflow.MakeOtherInvestmentMovement | finModel/statements/cashflow.py:15-19 | the four movements have one entry per balance-sheet date |
| Cashflow.MakeCashFlow | finModel/statements/cashflow.py:52-78 | the cash-flow statement is aligned over the pair's dates |
| Cashflow.FirstPeriodUndefined | finModel/statements/cashflow.py:59-76 | at the first date every `diff`-based line is undefined, and so are UFCF and net cash flow |
| Cashflow.Movements | finModel/statements/cashflow.py:59-75 | inventory, receivable and PP&E movements are previous − current; payables, other liabilities and financial liabilities are current − previous; other investments are the negated asset changes |
| Cashflow.MovementSigns | finModel/statements/cashflow.py:59-61 | rising inventory is an outflow and rising payables an inflow |
| Cashflow.OperatingLines | finModel/statements/cashflow.py:53-69 | operating tax = tax rate × EBIT, NOPAT = EBIT + operating tax, add-back D&A = −D&A, gross cash flow = NOPAT + add-back, capex movement = PP&E movement + D&A |
| Cashflow.UfcfWithoutDandA | finModel/statements/cashflow.py:71-72 | where defined, UFCF is NOPAT plus the working-capital, other-asset, PP&E and other-investment movements and the extraordinary item: the D&A add-back cancels |
| Cashflow.TaxLine | finModel/statements/cashflow.py:74 | the tax delta is tax − tax rate × EBIT |
| Cashflow.TaxGap | finModel/statements/cashflow.py:74 | where EBT is non-zero, tax − operating tax = tax rate × (interest + extraordinary income) |
| Cashflow.TaxGapOfPeriod | finModel/statements/income.py:81-82 | the same identity for one derived income period |
| Cashflow.NetCashflowLines | finModel/statements/cashflow.py:76-78 | delta equity incl. dividends = Δ total equity − net income; net cash flow = UFCF + interest + tax delta + Δ financial liabilities + delta equity |
| Cashflow.NoDividendWhenEquityRollsForward | finModel/statements/cashflow.py:76 | when total equity grows by exactly net income, delta equity incl. dividends is zero |
| Cashflow.CashFlowTable | finModel/statements/cashflow.py:80-102 | `to_pandas_df` has 20 columns |
| Cashflow.CashFlowTableShape | finModel/statements/cashflow.py:81-101 | the 20 names are distinct, each column has one entry per date, "EBIT" is first, UFCF is 15th and "Net Cashflow" is last |
| Statement.Build | finModel/statements/main.py:19-27 | construction succeeds iff the actuals share one non-empty chronological date list and the forecast dates are chronological and new; all three statements then span the merged dates, and the company and date lists are kept |
| Statement.ForecastPair | finModel/statements/main.py:23-24 | both forecasts are aligned over the forecast dates |
| Statement.BuildParts | finModel/statements/main.py:23-27 | the built statement is the income attach, the balance attach, and the cash flow derived from the attached pair, in that order |
| Statement.BuildDates | finModel/statements/main.py:25-26 | the attached dates are chronological, number \|actual\| + \|forecast\|, and are the actual and forecast dates once each |
| Statement.BuildKeepsActuals | finModel/statements/main.py:25-26 | at an actual date both attached statements hold the actual raw items and totals unchanged |
| Statement.BuildKeepsForecasts | finModel/statements/main.py:24-26 | at a forecast date they hold the forecast's items, and the balance sheet balances where the non-cash assets are defined |
| Statement.ForecastNetIncomeRederived | finModel/statements/forecast.py:52-54 | re-deriving a forecast period gives back the overridden net income |
| Statement.FirstForecastMovement | finModel/statements/main.py:27 | every balance-sheet movement of the first forecast period (inventory, trade receivables, trade payables, PP&E, other assets and liabilities, intangible and financial assets, financial liabilities) is taken against the last actual sheet |
| Statement.AttachedForecastNetIncome | finModel/statements/main.py:25 | the attached net income at a forecast position is the forecast's net income |
| Statement.AttachedEquity | finModel/statements/main.py:26 | the attached total equity is the actual one before the forecast and the forecast's from there on |
| Statement.AttachedEquityStep | finModel/statements/main.py:25-26 | attaching a forecast whose equity rolls forward by its net income gives attached equity that grows by the attached net income |
| Statement.AttachedNetIncomeAt | finModel/statements/main.py:25 | attached net income at a forecast position, for any derived forecast |
| Statement.AttachedEquityAround | finModel/statements/main.py:26 | the attached equity at a forecast position and at the one before it |
| Statement.AttachedEquityRollsForward | finModel/statements/forecast.py:102-106 | in every forecast period the attached total equity grows by exactly the attached net income |
| Statement.NoDividendInForecast | finModel/statements/cashflow.py:76 | in every forecast period of a built statement, delta equity incl. dividends is zero |
| Statement.NatToString | finModel/statements/main.py:36 | the year is printed as a non-empty string of digits |
| Statement.ParseNatToString | finModel/statements/main.py:36 | reading the printed year back gives the year |
| Statement.PeriodLabel | finModel/statements/main.py:34-36 | a period label is a year followed by one letter |
| Statement.PeriodLabelMeaning | finModel/statements/main.py:34-36 | the label ends in 'F' iff the date is a forecast date, in 'A' iff it is not, and its prefix reads back as the date's year |
| Statement.PeriodLabelExample | finModel/statements/main.py:35-36 | 2021-12-31 among the forecast dates is "2021F"; 2020-12-31 is "2020A" |
| Statement.ReportLayout | finModel/statements/main.py:32-39 | the report keeps one component per column, in order, and one label per period |
| Statement.IncomeReport | finModel/statements/main.py:32-39 | the income report of a built statement runs from "Revenues" to "Net income", and labels each forecast period 'F' and no other |
| Valuation.CostOfEquity | finModel/analysis/dcf_valuation.py:19 | β = 0 gives the risk-free rate and β = 1 the market return |
| Valuation.CostOfEquityBetween | finModel/analysis/dcf_valuation.py:19 | for 0 ≤ β ≤ 1 the cost lies between rf and the market return, and it rises with β when the market pays a premium |
| Valuation.CostOfDebt | finModel/analysis/dcf_valuation.py:30-32 | per period: defined iff interest and a non-zero liability total are defined, and then kd × total = interest |
| Valuation.Wacc | finModel/analysis/dcf_valuation.py:45 | defined iff D + E ≠ 0, and then WACC·(D+E) = D(1−t)kd + E·ke |
| Valuation.WaccWeights | finModel/analysis/dcf_valuation.py:45 | the weights sum to 1; no debt gives ke, no equity gives (1−t)kd |
| Valuation.WaccBetween | finModel/analysis/dcf_valuation.py:45 | for D, E ≥ 0 with D + E > 0, WACC lies between (1−t)kd and ke |
| Valuation.DiscountFactors | finModel/analysis/dcf_valuation.py:68 | one factor per forecast period |
| Valuation.DiscountFactorsDecrease | finModel/analysis/dcf_valuation.py:68 | for WACC > 0 each factor is in (0, 1), the first times (1+WACC) is 1, and each next one is strictly smaller: the previous over (1+WACC) |
| Valuation.DiscountedSum | finModel/analysis/dcf_valuation.py:68-69 | the sum over the flows from step s, discounted from step s+1, times (1+WACC)^s is the Horner-form present value |
| Valuation.PresentValueOfStream | finModel/analysis/dcf_valuation.py:68-69 | the NaN-skipping sum of UFCF × discount equals the present value |
| Valuation.Figures | finModel/analysis/dcf_valuation.py:63-77 | the valuation carries the WACC and growth it was built with |
| Valuation.LastActualIndex | finModel/analysis/dcf_valuation.py:73-74 | the position of the last actual date in the balance sheet holds that date |
| Valuation.Valuate | finModel/analysis/dcf_valuation.py:63-77 | succeeds iff every forecast date has a UFCF, there is a forecast and an actual period, and the last actual date is on the balance sheet; each failure has its own error; on success it is the figures of the forecast UFCF and of the liabilities and cash at the last actual date |
| Valuation.FiguresPresentValue | finModel/analysis/dcf_valuation.py:68-69 | `pv_ufcf` is the present value of the forecast UFCF |
| Valuation.FiguresContinuingValue | finModel/analysis/dcf_valuation.py:70-72 | WACC = g leaves the continuing, enterprise and equity values undefined; otherwise cont × (WACC−g) = UFCF_N·(1+g) and PV(cont) × (1+WACC)^N = cont |
| Valuation.EquityBridge | finModel/analysis/dcf_valuation.py:72-75 | enterprise value = PV(UFCF) + PV(cont); equity = enterprise − financial liabilities + cash, undefined if any part is |
| Valuation.SharesSumToOne | finModel/analysis/dcf_valuation.py:76-77 | for a non-zero enterprise value the two shares sum to 1; otherwise both are undefined |
| Valuation.OnePeriodExample | finModel/analysis/dcf_valuation.py:67-72 | one UFCF of 110 at WACC 10%, g 0: PV 100, continuing value 1100, PV(cont) 1000, enterprise value 1100 |
| Valuation.ValuateBuilt | finModel/statements/main.py:19-27 | a built statement with a forecast, whose last actual date is an actual period, can be valued |
| Valuation.ValuableOnMergedDates | finModel/analysis/dcf_valuation.py:67-74 | the lookups succeed when the cash and balance dates are the actual and forecast dates together |
| Valuation.Candidates | finModel/analysis/dcf_valuation.py:104-107 | four candidates, base + −0.01, 0, 0.01, 0.02; the second is the base |
| Valuation.Simulated | finModel/analysis/dcf_valuation.py:111-113 | a row is a fresh valuation's WACC, growth and enterprise value |
| Valuation.Row | finModel/analysis/dcf_valuation.py:110-113 | one row per growth rate |
| Valuation.GridAt | finModel/analysis/dcf_valuation.py:109-119 | the grid has \|wacc\|·\|g\| rows, WACC-major: row i·\|g\|+j is the fresh valuation at (wacc[i], g[j]) |
| Valuation.GridSize | finModel/analysis/dcf_valuation.py:109-113 | the grid has \|wacc\|·\|g\| rows |
| Valuation.SimulateEnterpriseVal | finModel/analysis/dcf_valuation.py:100-121 | the nested loops return the grid over the given rates, or over the default candidates where a list is omitted |
| Valuation.DefaultGridHoldsBase | finModel/analysis/dcf_valuation.py:104-119 | with the defaults, the grid has 16 rows and row 5, offsets (0, 0), is the base valuation's enterprise value |

## Left out

- `linear_trend` (finModel/utils/transform.py:59-77) is left out. It is a wrapper over a statsmodels least-squares fit.
- `Balance.Attach`, `Balance.AttachOtherLiab`, `Balance.AttachFinLiab`, `Balance.AttachEquity`: balance.py defines no `attach` on `BalanceSheet`, `OtherLiab`, `FinLiab` or `Equity`, so `bs.attach(f_bs)` at finModel/statements/main.py:26 fails as written. The model supplies one that mirrors `IncomeStatement.attach` (finModel/statements/income.py:103-112). It merges every raw series by date, cash included, and re-derives the totals.
- `OtherInvestmentMovement.attach` (finModel/statements/cashflow.py:21-25) is left out. It calls the constructor with keyword arguments it does not take, so it cannot run. It also drops `financial_asset`, and nothing calls it.
- `DCFValuation.to_pandas_df` (finModel/analysis/dcf_valuation.py:79-98) is left out. It copies the same eleven fields into a two-column table, and `Valuation.Dcf` already holds them.
- The melt/pivot/merge reshaping of `report_table` (finModel/statements/main.py:37-39) is left out. The model keeps only the component order and the period labels.
- Statement.ReportLayout: on a balance sheet, the source's `melt` and `pivot` (finModel/statements/main.py:37-38) meet the "Trade payable" column that `to_pandas_df` lists twice (finModel/statements/balance.py:82-83, stated by `Balance.BalanceTableShape`). Reading the code, `pivot` would then raise on duplicate index entries. The model, applied to `BalanceTable`, gives a layout where the source would raise.
- Files, plotting and the Excel ingestion are I/O and presentation, so they are outside the model. `finModel/dcf/valuation.py` duplicates the analysis variant and is not part of this model.
- pandas index alignment is not modelled. Element-wise operations in pandas align on dates; the model requires the two operands to share one date list. The actual income statement and balance sheet must share their dates, and otherwise construction fails with `IncomeBalanceDates`.
- `Statement.Build` does not sort unsorted inputs. Where pandas `sort_index` would reorder unsorted actual or forecast dates, the model requires chronological dates and otherwise returns `UnsortedDates`. Where forecast dates overlap actual ones, it returns `OverlappingDates`; pandas would keep the duplicates.
- Income.Attach, Balance.Attach: both require each operand's dates to be chronological, where `sort_index` would also sort unsorted operands, and both return `OverlappingDates` on a shared date, where `pd.concat` keeps both rows. `Statement.Build`, their only caller, checks both conditions first.
- IEEE floating point is not modelled, and amounts are exact reals. In the source a non-zero amount over zero is ±inf. The model makes it NaN, so `nanmean` and the sum skip a value the source would keep as an infinity. The main cases are a zero sales denominator in a mean share, WACC = g in the continuing value, and 1 + WACC = 0 in a discount factor.
- `Valuation.Wacc`: where Python raises `ZeroDivisionError` on D + E = 0 (floats), the model returns `None`.
- `Valuation.CostOfDebt` models what the documentation describes: interest expense over the financial-liability total of the statement it is given. The code as written reads both series from the `FinancialStatement` class rather than from its argument. Those names are not class attributes, so the call cannot run.
- Forecast cash is not modelled as in the code. `bs_forecast_avg_growth` never passes `cash` to `BalanceSheet`, so the constructor cannot run. The model takes cash as the plug, total liabilities and equity less the six non-cash assets, which makes every forecast sheet balance.
- `days_outstanding` and `add_movement` are imported by forecast.py from finModel/utils/transform.py, which does not define them. Their definitions are modelled from their call sites and the docstring:
  - `days_outstanding(num, den, period)` is period · num / den, as a pandas series over the actual dates, so the `np.mean` around it skips undefined ratios as `Series.mean` does;
  - `add_movement(te, ni)` rolls the total equity at the latest actual date forward by each forecast net income.
- One field carries both source names for sales. The income dataclass calls this revenue field `revenue`, while the forecast builds it as `sales`; the model uses `sales`.
- `Valuation.SimulateEnterpriseVal` takes the base valuation and the statement as two arguments, instead of reading them from `self`. It requires the statement to be valuable (every lookup succeeds). It does not require the base valuation itself to be one of the grid rows: `Valuation.DefaultGridHoldsBase` states that separately.
- The wall-clock, randomness and network play no part in the core.
