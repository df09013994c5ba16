# Invest vs offset: a verified model of the simulation core

The invest-vs-offset calculator answers one question for an Australian home owner with a
mortgage and spare cash: is it better to park the money in the mortgage offset account,
which saves interest at the mortgage rate, or to invest it in shares, which earn a return
and dividends but pay tax? This project models the core of that calculator in Dafny and
proves properties of the model:

- **Allocation strategies** (`all_offset.dfy`, `split.dfy`, `all_investment.dfy`,
  `strategies.dfy`). Each strategy splits the initial lump sum and each year's
  contribution between the offset account and the investment. Two clean-up hooks handle
  the offset when the loan is paid off and when the offset exceeds the loan. A strategy
  tag selects the strategy; a split ratio and a switch year parameterise it.
- **Shared mortgage and investment arithmetic** (`shared.dfy`): the amortised repayment,
  one year's mortgage payment against a balance reduced by the offset, investment growth
  with dividend tax, and the capital-gains tax with its discount.
- **The simulation engine** (`calculations.dfy`). It runs year by year, or month by month
  on annualised figures divided by twelve. It also:
  - finds the payoff year;
  - compares two strategies over a common horizon;
  - scans a grid of split ratios for the best final net worth.

  `engine_properties.dfy` proves what the engine keeps invariant over a whole run.
- **The mortgage-rate × return heatmap** (`strategy_heatmap.dfy`): for every pair of a
  mortgage rate from 2 % to 10 % and a return from 2 % to 12 %, in 0.5-point steps, it
  records which of two strategies ends richer.
- **Historical rates** (`historical_rates.dfy`, `historical_section.dfy`):
  - the CSV line splitter and the loader of the historical rate file;
  - the per-year winner between the mortgage rate and the share return;
  - the year range of the data;
  - the per-year rate list that the historical view builds from a range of years;
  - the clamping of the range slider.
- **The input form validator** (`input_form.dfy`): which edits reach the inputs record,
  and how typed text becomes a number. Percentages are divided by 100 and years are read
  as whole numbers.
- **The F7 cross-check script** (`crosscheck_f7.dfy`):
  - the tokenised number parser, which glues thousands groups back together;
  - the financial-year rule for months;
  - the year-on-year return table computed from June index values.

Money and rates are exact reals. The engine's loops are methods proved equal to
recursive specification functions (`Run`, `Simulate`, `SimulateMonthly`, `CsvFields`,
`ParseRows`, `ParseNumbers`, `YearlyRates`, `GridNetWorths`). The lemmas are stated about
those functions and about the pieces they are built from: a period's `Settle`, `Invest` and
`PeriodStep`; the heatmap's `FinalNetWorth`, `CellWinner` and `Round2`; the loader's
`LoadRates`; and the cross-check's `FyReturns`.

## Model

| member | source | states |
|---|---|---|
| Shared.AmortizedPayment | src/utils/strategies/shared.ts:4-30 | no payment is due when the term or the principal is not positive, or when the rate lies outside 0..1 |
| Shared.ZeroRateRepaysPrincipal | src/utils/strategies/shared.ts:16-18 | at a zero rate the payment is principal / years, so the payments over the term repay exactly the principal |
| Shared.OutstandingForInterest | src/utils/strategies/shared.ts:38-41 | interest is charged on a non-negative amount; nothing when the offset covers the loan; the whole balance when the offset is empty |
| Shared.ProcessMortgagePayment | src/utils/strategies/shared.ts:32-76 | the payment splits exactly into the part paid to the bank and the part freed. Interest is on the balance net of the offset. Interest saved is the offset (capped at the balance) at the effective rate. A zero balance pays nothing and frees the whole payment. Otherwise the principal is the payment less interest, clamped to 0 and the balance, and the freed part is whatever exceeds interest plus balance; a payment that does not cover the interest on a positive balance retires nothing and frees nothing |
| Shared.ApplyMortgagePayment | src/utils/strategies/shared.ts:78-95 | only the mortgage balance changes; it falls by the principal paid and never goes below zero |
| Shared.InvestmentGrowth | src/utils/strategies/shared.ts:97-126 | nothing grows on a non-positive value; gain and dividends are the value times the return and the yield; after-tax dividends plus dividend tax equal the dividends; a zero return gives no gain |
| Shared.CalculateTaxes | src/utils/strategies/shared.ts:128-152 | capital-gains tax is the unrealised gain (never negative) at the personal rate less the discount; total tax is that plus the cumulative dividend tax; no gain means no capital-gains tax |
| AllOffsetStrategy.AllocateInitialAmount | src/utils/strategies/allOffset.ts:3-10 | the lump sum fills the offset up to the balance and the rest is invested; the two parts add up to the lump sum |
| AllOffsetStrategy.AllocateContributions | src/utils/strategies/allOffset.ts:12-36 | the contribution splits exactly into offset and investment. Nothing goes to the offset once the loan is paid off or from a zero contribution. Otherwise, on a positive balance, the offset receives the smaller of the contribution and the room left under the balance, and the investment gets nothing while the offset has room |
| AllOffsetStrategy.HandleMortgagePayoff | src/utils/strategies/allOffset.ts:38-53 | when the balance reaches zero the offset moves into the investment at cost; the sum of offset and investment and the unrealised gain are kept |
| AllOffsetStrategy.HandleExcessOffset | src/utils/strategies/allOffset.ts:55-71 | the offset is cut back to the balance and the excess invested at cost; nothing changes when the offset is within the balance |
| AllOffsetStrategy.HandleExcessOffsetIdempotent | src/utils/strategies/allOffset.ts:55-71 | the excess clean-up applied twice equals once |
| AllOffsetStrategy.HousekeepingBoundsOffset | src/utils/strategies/allOffset.ts:38-71 | after both clean-up hooks the offset never exceeds the balance |
| SplitStrategy.AllocateInitialAmount | src/utils/strategies/split.ts:3-13 | the ratio's share of the lump sum goes to the offset, capped at the balance: it is exactly the balance when the share exceeds it; the rest is invested; both parts are non-negative for a ratio in 0..1 |
| SplitStrategy.AllocateContributions | src/utils/strategies/split.ts:15-41 | the contribution splits exactly. Nothing goes to the offset after payoff or from a zero contribution, whatever the ratio. Otherwise, on a positive balance, the offset receives the smaller of the ratio's share and the room left under the balance |
| SplitStrategy.HandleMortgagePayoff | src/utils/strategies/split.ts:43-47 | the split strategy leaves the state alone at payoff |
| SplitStrategy.HandleExcessOffset | src/utils/strategies/split.ts:49-65 | the offset is cut back to the balance and the excess invested at cost, keeping the total and the unrealised gain |
| AllInvestmentStrategy.AllocateInitialAmount | src/utils/strategies/allInvestment.ts:3-11 | the offset is never funded: the whole lump sum is invested |
| AllInvestmentStrategy.AllocateContributions | src/utils/strategies/allInvestment.ts:13-22 | the whole contribution is invested |
| AllInvestmentStrategy.HandleMortgagePayoff | src/utils/strategies/allInvestment.ts:24-28 | payoff changes nothing |
| AllInvestmentStrategy.HandleExcessOffset | src/utils/strategies/allInvestment.ts:30-34 | there is never an excess to move |
| Strategies.GetStrategy | src/utils/strategies/index.ts:22-63 | each tag selects exactly its own strategy; a missing ratio defaults to 0.5 and a missing switch year to 5 |
| Strategies.HandleYearStart | src/utils/strategies/index.ts:50 | only the offset-then-invest "move" strategy has a year-start hook; every other strategy leaves the state unchanged |
| Strategies.AllocateInitialAmount | src/utils/strategies/index.ts:22-63 | through the dispatch, the modelled strategies split the lump sum exactly. The offset never exceeds the balance, and all-investment never funds it |
| Strategies.AllocateContributions | src/utils/strategies/index.ts:22-63 | through the dispatch, contributions split exactly. Nothing goes to the offset after payoff or under all-investment. The offset is filled at most to the balance |
| Strategies.HandleMortgagePayoff | src/utils/strategies/index.ts:22-63 | through the dispatch, payoff keeps the balance, the offset-plus-investment total, the unrealised gain and the offset contributions, and never raises the offset |
| Strategies.HandleExcessOffset | src/utils/strategies/index.ts:22-63 | through the dispatch, the excess clean-up keeps the same totals and leaves the offset within the balance |
| Calculations.PeriodYear | src/utils/calculations.ts:311 | a yearly period is its own year; month m lies in year ⌈m/12⌉ |
| Calculations.YearsToRun | src/utils/calculations.ts:22 | a given, non-zero horizon is used as is; otherwise the inputs' years |
| Calculations.EffectiveInterestRate | src/utils/calculations.ts:40-42 | an investment property's rate is reduced by the personal tax rate; a home loan keeps the nominal rate |
| Calculations.InitialState | src/utils/calculations.ts:44-57 | the run starts with the full loan; investment and offset start at cost |
| Calculations.TaxRefundFromInterest | src/utils/calculations.ts:86-88 | interest on an investment property is refunded at the personal rate; a home loan gets no refund |
| Calculations.AfterTaxInterest | src/utils/calculations.ts:79-88 | after-tax interest plus the refund equals the interest accrued |
| Calculations.RefundShares | src/utils/calculations.ts:153-160 | the refund is attributed to offset and investment in exact proportion to the allocation (each share times the contribution equals the refund times that part), and the shares add up to the refund; no refund means no shares |
| Calculations.MonthlyPaymentNeverClears | src/utils/calculations.ts:335-351 | in a monthly run, the payment stage leaves a positive balance at least eleven twelfths of itself, so it never reaches zero by payments alone |
| Calculations.MonthlyPayment | src/utils/calculations.ts:335-351 | the corrected month: its payment is a twelfth of the yearly one, split exactly into the part paid to the bank and the part freed, with the principal between 0 and the month's opening balance |
| Calculations.MonthlyPaymentExample | src/utils/calculations.ts:335-351 | on a loan of 1000 with no offset, no interest and 12000 a year, the corrected month pays the whole 1000 and frees nothing, while the driver pays 1000/12 and frees 11000/12 |
| Calculations.MonthlyPaymentClears | src/utils/calculations.ts:335-351 | a month's payment worked out on monthly figures retires the loan whenever it covers the month's interest and the balance |
| Calculations.MonthlyPaymentAgrees | src/utils/calculations.ts:335-351 | while the yearly cap on the principal does not bind, the payment on monthly figures is exactly the twelfth of the yearly one that the monthly driver applies |
| Calculations.Run | src/utils/calculations.ts:59-200 | a run of n periods yields exactly n records |
| Calculations.AdvanceRun | src/utils/calculations.ts:59-200 | one more loop iteration extends the run by exactly the next period's state, totals and record |
| Calculations.AdvancePeriod | src/utils/calculations.ts:60-199 | the loop body computes exactly the specified period step |
| Calculations.PayMortgage | src/utils/calculations.ts:72-98 | the year-start hook, payment, balance update and clean-up give the specified settlement, and the payment totals advance by that payment |
| Calculations.GrowAndContribute | src/utils/calculations.ts:103-150 | growth is taken before the contribution is allocated. The state and totals are the specified flows |
| Calculations.CalculateStrategy | src/utils/calculations.ts:14-203 | the annual driver returns exactly the simulated records, one per year of the horizon |
| Calculations.Numbered | src/utils/calculations.ts:308-485 | monthly records are numbered 1, 2, … in order |
| Calculations.CalculateStrategyMonthly | src/utils/calculations.ts:255-488 | the monthly driver returns exactly the simulated monthly records, twelve per year of the horizon |
| Calculations.MonthlyLoop | src/utils/calculations.ts:308-485 | the month loop yields the numbered records of a run of that many months |
| Calculations.FirstWhere | src/utils/calculations.ts:209 | the first index whose record satisfies the test, or none when no record does |
| Calculations.FirstPaidOffYear | src/utils/calculations.ts:209-213 | the 1-based year of the first record with no balance left, or the last year when there is none |
| Calculations.FindPayoffYear | src/utils/calculations.ts:205-214 | a year within the search horizon max(years, 50); every earlier year still owes money, and that year owes nothing or is the horizon |
| Calculations.ComparisonYears | src/utils/calculations.ts:230-237 | an override is the horizon; otherwise the later of the two strategies' payoff years |
| Calculations.CalculateComparison | src/utils/calculations.ts:216-248 | both sides are simulated over the same horizon, which is the override or the later payoff year, and the tags are echoed |
| Calculations.CalculateComparisonMonthly | src/utils/calculations.ts:490-515 | both sides are simulated month by month over the same horizon, twelve records per year |
| Calculations.NetWorthAtYear | src/utils/calculations.ts:250-253 | the net worth of the first record of that year; the last record's when none matches; zero for no records |
| Calculations.ClampedStep | src/utils/calculations.ts:527 | the step is clamped into 0.01..1 and kept when already inside |
| Calculations.StepCount | src/utils/calculations.ts:528 | between 1 and 100 grid steps |
| Calculations.StepCountRounds | src/utils/calculations.ts:528 | the step count is 1 / step rounded to the nearest integer |
| Calculations.GridRatio | src/utils/calculations.ts:534 | every grid ratio lies in 0..1 |
| Calculations.SplitRun | src/utils/calculations.ts:535-536 | the net worth of a split run with that ratio at that year |
| Calculations.StrategyRun | src/utils/calculations.ts:543-550 | the net worth of a named strategy at that year |
| Calculations.GridPoint | src/utils/calculations.ts:534-536 | the i-th grid ratio and its net worth |
| Calculations.ScanSplitGrid | src/utils/calculations.ts:530-541 | the best ratio is the grid ratio of the first maximum of the grid's net worths |
| Calculations.FindOptimalSplit | src/utils/calculations.ts:517-558 | the best ratio is the first grid point of maximal net worth, reported with that net worth, alongside the all-offset and all-investment references |
| Calculations.ExtendFirstMaximum | src/utils/calculations.ts:537-540 | a strictly larger value takes over the first maximum; an equal or smaller one leaves it |
| EngineProperties.SettleKeepsBalances | src/utils/calculations.ts:72-98 | the mortgage half of a period keeps balance ≥ 0 and offset ≤ balance. The balance falls by exactly the principal, and the unrealised gain is unchanged |
| EngineProperties.InvestKeepsBalances | src/utils/calculations.ts:103-150 | the investing half keeps the invariant and the balance, and raises the unrealised gain by exactly the capital gain |
| EngineProperties.StepKeepsBalances | src/utils/calculations.ts:60-199 | one whole period keeps the balance invariant |
| EngineProperties.RecordAt | src/utils/calculations.ts:162-199 | the k-th record is the record of period k + 1, whatever the run's length |
| EngineProperties.RunPrefix | src/utils/calculations.ts:59-200 | a longer run starts with the records of a shorter one |
| EngineProperties.StepRecordBalances | src/utils/calculations.ts:162-199 | each record reports the period's closing balances, its opening mortgage balance and its capital gain |
| EngineProperties.RunKeepsBalances | src/utils/calculations.ts:59-200 | over a whole run the balance stays ≥ 0, the offset within it, and all-investment never uses the offset. The cumulative capital gain equals the unrealised gain and the sum of the records' gains |
| EngineProperties.StepMortgage | src/utils/calculations.ts:76-98 | each period's closing balance is its opening balance less a non-negative principal |
| EngineProperties.MortgageRecords | src/utils/calculations.ts:162-199 | in every record, balance = previous balance − principal. Principal ≥ 0, balance ≥ 0, offset ≤ balance, and the previous balance is the loan or the prior record's balance |
| EngineProperties.MortgageNeverIncreases | src/utils/calculations.ts:59-200 | the mortgage balance never rises from one record to the next |
| EngineProperties.YearlyBalances | src/utils/calculations.ts:14-203 | every annual record has a non-negative balance no smaller than the offset, and balances never rise |
| EngineProperties.RecordYear | src/utils/calculations.ts:311 | each record carries the year of its period |
| EngineProperties.YearlyLabels | src/utils/calculations.ts:162-199 | annual records are labelled 1, 2, … |
| EngineProperties.MonthlyLabels | src/utils/calculations.ts:308-485 | monthly records are numbered 1, 2, …, twelve per year, each within its year |
| EngineProperties.PaymentBudget | src/utils/calculations.ts:90-95 | over a run, payments made plus payments freed equal all scheduled payments |
| EngineProperties.FlowsRefund | src/utils/calculations.ts:86-125 | the refund is the one on the period's interest; a positive refund makes the contribution positive; the allocation splits the contribution with refund exactly |
| EngineProperties.RefundRecords | src/utils/calculations.ts:153-160 | in every record the refund columns add up to the refund and vanish for a home loan |
| EngineProperties.RecordRefund | src/utils/calculations.ts:153-160 | a period's record carries refund columns that add up to the refund |
| EngineProperties.ZeroReturnNoGain | src/utils/calculations.ts:103-109 | with a zero return the cumulative capital gain stays zero |
| EngineProperties.ZeroReturnNoCapitalGainsTax | src/utils/calculations.ts:136-141 | with a zero return no record ever shows capital-gains tax |
| EngineProperties.EmptyStart | src/utils/calculations.ts:44-57 | no lump sum and no loan start every strategy at zero |
| EngineProperties.EmptyPeriod | src/utils/calculations.ts:76-125 | from nothing, with no payment, a period earns nothing and ends holding exactly its contribution |
| EngineProperties.FirstPeriodRecord | src/utils/calculations.ts:162-199 | the first record from nothing shows no previous value, no gain and exactly the contribution |
| EngineProperties.FirstYearHoldsContributions | src/utils/calculations.test.ts:119-140 | starting from nothing, year 1 ends holding exactly 52 weekly contributions and no gain |
| StrategyHeatmap.Round2OfHundredths | src/utils/strategyHeatmap.ts:11-13 | rounding to two decimals keeps a value already in hundredths |
| StrategyHeatmap.Axis | src/utils/strategyHeatmap.ts:33-38 | the axis holds rounded lo + 0.5·k for k = 0, 1, … and stops at the last point not above hi |
| StrategyHeatmap.AxisPoints | src/utils/strategyHeatmap.ts:33-38 | on a range whole in half points the axis has exactly its points, unrounded |
| StrategyHeatmap.HeatmapAxes | src/utils/strategyHeatmap.ts:5-9 | the mortgage axis is 2, 2.5, …, 10 (17 points) and the return axis 2, 2.5, …, 12 (21 points) |
| StrategyHeatmap.Fractions | src/utils/strategyHeatmap.ts:40-41 | each percentage becomes a fraction |
| StrategyHeatmap.CellInputs | src/utils/strategyHeatmap.ts:48-54 | a cell overrides the two rates, the ratio and the switch year and keeps every other input |
| StrategyHeatmap.FinalNetWorthOfRun | src/utils/strategyHeatmap.ts:63-64 | the final net worth is the last year's record, or zero for no years |
| StrategyHeatmap.CellWinnerIsComparison | src/utils/strategyHeatmap.ts:55-65 | the left strategy wins a cell exactly when its final net worth is at least the right one's; ties go left |
| StrategyHeatmap.SelfComparisonIsLeft | src/utils/strategyHeatmap.ts:65 | a strategy compared with itself always wins on the left |
| StrategyHeatmap.CompareCell | src/utils/strategyHeatmap.ts:55-65 | one cell runs both strategies through the driver method over the cell's inputs; the left strategy wins exactly when its final-year net worth is at least the right one's, and with no years the left strategy wins |
| StrategyHeatmap.HeatmapRow | src/utils/strategyHeatmap.ts:46-67 | a row holds one winner per mortgage rate, in order |
| StrategyHeatmap.HeatmapGrid | src/utils/strategyHeatmap.ts:43-68 | the grid holds one row per return rate and one cell per mortgage rate, each that cell's winner |
| StrategyHeatmap.ComputeMortgageReturnHeatmap | src/utils/strategyHeatmap.ts:17-70 | 17 × 21 axes in half points, and a 21 × 17 grid whose cell (r, m) is the winner at those rates |
| HistoricalRates.TrimStart | src/utils/historicalRates.ts:29 | leading whitespace is dropped: a suffix of the text starting with a non-space |
| HistoricalRates.TrimEnd | src/utils/historicalRates.ts:29 | trailing whitespace is dropped: a prefix of the text ending with a non-space |
| HistoricalRates.Trim | src/utils/historicalRates.ts:29 | the trimmed text is no longer, uses only the text's characters, and has no whitespace at either end |
| HistoricalRates.TrimStrips | src/utils/historicalRates.ts:29 | the trimmed text is the text with whitespace removed from both ends: a contiguous slice with only whitespace before and after it, empty exactly when the text is all whitespace |
| HistoricalRates.TrimAll | src/utils/historicalRates.ts:29 | each field trimmed, one for one |
| HistoricalRates.Pieces | src/utils/historicalRates.ts:20-37 | a line splits into one more piece than it has commas outside quotes |
| HistoricalRates.ParseCsvLine | src/utils/historicalRates.ts:20-37 | the scan returns exactly the specified trimmed fields |
| HistoricalRates.ReadChar | src/utils/historicalRates.ts:24-33 | a quote toggles quoting, a comma outside quotes closes a field, any other character extends it |
| HistoricalRates.FieldCount | src/utils/historicalRates.ts:20-37 | there is always at least one field, one more than the unquoted commas |
| HistoricalRates.FieldsHaveNoQuotes | src/utils/historicalRates.ts:25-33 | quotes never reach a field, and no field starts with whitespace |
| HistoricalRates.PlainSplit | src/utils/historicalRates.ts:20-37 | a line without quotes is split at every comma and each piece trimmed |
| HistoricalRates.ContentLines | src/utils/historicalRates.ts:43 | empty lines and comment lines are dropped, every other line is kept in order; the first kept line is the first content line, and nothing is kept exactly when there is no content line |
| HistoricalRates.ContentLinesAppend | src/utils/historicalRates.ts:43 | filtering distributes over concatenation: the content lines of two blocks are those of the first followed by those of the second |
| HistoricalRates.IndexOf | src/utils/historicalRates.ts:45-47 | the first position of a column name, or −1 exactly when it is absent |
| HistoricalRates.FindColumns | src/utils/historicalRates.ts:44-50 | the load fails exactly when one of the three columns is missing; otherwise each index names the first column with that name |
| HistoricalRates.ParseRow | src/utils/historicalRates.ts:52-56 | a row yields rates exactly when all three fields parse, and the rates are those three parsed fields |
| HistoricalRates.ParseRows | src/utils/historicalRates.ts:51-62 | at most one rate per data line |
| HistoricalRates.ParseRowsSound | src/utils/historicalRates.ts:51-62 | every loaded rate comes from some data line |
| HistoricalRates.ParseRowsComplete | src/utils/historicalRates.ts:51-62 | every data line that parses is loaded |
| HistoricalRates.LoadErrors | src/utils/historicalRates.ts:43-50 | loading fails exactly when there is no header line or the header lacks a column |
| HistoricalRates.ParseDataLines | src/utils/historicalRates.ts:51-62 | the row loop loads exactly the specified rates |
| HistoricalRates.ParseHistoricalRates | src/utils/historicalRates.ts:39-63 | the loader returns exactly the specified result |
| HistoricalRates.GetWinnerForYear | src/utils/historicalRates.ts:68-72 | a tie within 0.01 points; otherwise investing wins exactly when the return is higher, and the offset exactly when it is lower |
| HistoricalRates.HistoricalRatesWithWinners | src/utils/historicalRates.ts:74-79 | each year is kept, in order, tagged with its winner |
| HistoricalRates.MinYear | src/utils/historicalRates.ts:83 | the smallest year present |
| HistoricalRates.MaxYear | src/utils/historicalRates.ts:84 | the largest year present |
| HistoricalRates.YearRangeFromRates | src/utils/historicalRates.ts:81-85 | the range is 1981..2023 with no data; otherwise it runs from the smallest to the largest year present |
| HistoricalSection.FindYear | src/components/HistoricalSection.tsx:53 | the first row of that year, or none exactly when no row has it |
| HistoricalSection.PresentYears | src/components/HistoricalSection.tsx:52-60 | the years of the range that have a row, ascending, each once |
| HistoricalSection.YearlyRates | src/components/HistoricalSection.tsx:46-63 | one entry per year present, holding that year's first row's rates |
| HistoricalSection.BuildYearlyRatesFromHistorical | src/components/HistoricalSection.tsx:46-63 | the year loop returns exactly the specified list |
| HistoricalSection.YearlyRatesLength | src/components/HistoricalSection.tsx:46-63 | at most one entry per year of the range; none when the range is reversed |
| HistoricalSection.YearlyRatesEntry | src/components/HistoricalSection.tsx:55-59 | each entry is a year's rates divided by 100, with no dividend yield |
| HistoricalSection.YearlyRatesCoverRange | src/components/HistoricalSection.tsx:52-60 | every year of the range that has a row contributes its entry, in year order |
| HistoricalSection.ClampYear | src/components/HistoricalSection.tsx:90-91 | a year is clamped into the data's range: kept when inside, raised to the first year when below, lowered to the last year when above |
| HistoricalSection.EffectiveRange | src/components/HistoricalSection.tsx:90-93 | both ends clamped, then ordered; an ordered range inside the data is kept |
| HistoricalSection.EffectiveRangeIdempotent | src/components/HistoricalSection.tsx:90-93 | clamping an effective range changes nothing |
| HistoricalSection.EffectiveRangeWithinRates | src/components/HistoricalSection.tsx:88-93 | the effective range lies within the years of the data |
| HistoricalSection.HandleRangeChange | src/components/HistoricalSection.tsx:150-155 | the two handles, in either order, become an ordered range inside the data's |
| HistoricalSection.HandleRangeChangeSymmetric | src/components/HistoricalSection.tsx:150-155 | the handles' order does not matter |
| InputForm.HandleChange | src/components/InputForm.tsx:47-72 | a number is accepted exactly when it is finite and within its key's bounds (integers for years); flags and choices always pass. On acceptance the key holds the value and nothing else changes |
| InputForm.EnteredNumber | src/components/InputForm.tsx:257-272 | blank or unparsable text is ignored; percentages are divided by 100; years are read as an integer |
| InputForm.EnterText | src/components/InputForm.tsx:257-272 | typing into a generic number field: text the field cannot read changes nothing; an accepted entry stores the number read from the text under that field and leaves every other field as it was |
| InputForm.PercentageEntry | src/components/InputForm.tsx:264-268 | a percentage typed as p is stored as p / 100 and accepted exactly when 0 ≤ p ≤ 100, except the capital-gains discount, which is always accepted |
| InputForm.EnterSplitRatio | src/components/InputForm.tsx:137-150 | the split ratio is updated exactly when the text is not blank and parses to a number from 0 to 100, and is then stored as that number divided by 100; nothing else changes |
| InputForm.EnterSwitchYears | src/components/InputForm.tsx:185-201 | the switch year is updated exactly when the text is not blank and parses to a whole number from 1 to 100, which is then stored; nothing else changes |
| CrosscheckF7.RemoveDots | scripts/crosscheck_f7.py:22 | the dots are removed: no dot is left, every other character keeps its count, and text without dots is unchanged |
| CrosscheckF7.GroupEnd | scripts/crosscheck_f7.py:25-27 | the thousands groups after a number run up to the first token that is not three digits |
| CrosscheckF7.DecimalFloat | scripts/crosscheck_f7.py:28 | float of a digit string is its decimal value, and never negative |
| CrosscheckF7.ParseFrom | scripts/crosscheck_f7.py:20-31 | no more numbers than tokens |
| CrosscheckF7.ParseNumbers | scripts/crosscheck_f7.py:16-31 | no more numbers than tokens |
| CrosscheckF7.AbsorbGroups | scripts/crosscheck_f7.py:23-27 | the inner loop glues the number to every following three-digit group |
| CrosscheckF7.ParseNumbersLoop | scripts/crosscheck_f7.py:16-31 | the loop returns exactly the specified numbers, or the ValueError |
| CrosscheckF7.NumberStep | scripts/crosscheck_f7.py:22-28 | a number token with its groups adds one number and resumes after the groups |
| CrosscheckF7.NoNumberTokens | scripts/crosscheck_f7.py:29-30 | tokens that are not numbers are skipped |
| CrosscheckF7.MillionsValue | scripts/crosscheck_f7.py:28 | "1234567" reads as 1234567 |
| CrosscheckF7.ThousandsGroups | scripts/crosscheck_f7.py:22-28 | the tokens "1", "234", "567" read as the single number 1234567 |
| CrosscheckF7.TwoDotsToken | scripts/crosscheck_f7.py:22 | "1.2.3" passes the number test |
| CrosscheckF7.TwoDotsFloat | scripts/crosscheck_f7.py:28 | float("1.2.3") raises ValueError |
| CrosscheckF7.TwoDotsRaise | scripts/crosscheck_f7.py:16-31 | so the parse of "1.2.3" raises |
| CrosscheckF7.CalendarYear | scripts/crosscheck_f7.py:59 | January to June belong to the financial year's closing calendar year; July to December to the year before |
| CrosscheckF7.Round2HalfEven | scripts/crosscheck_f7.py:73 | the result is in hundredths and within half a hundredth of the value |
| CrosscheckF7.Sorted | scripts/crosscheck_f7.py:71 | the years in strictly ascending order, each once |
| CrosscheckF7.ReturnsOfKeys | scripts/crosscheck_f7.py:72-76 | a year has a return exactly when it and the year before are listed; the return is the rounded percentage change between their June values |
| CrosscheckF7.FyReturnsKeys | scripts/crosscheck_f7.py:70-76 | a return for year y exactly when June values exist for y and y − 1; it is round(100·(v[y]/v[y−1] − 1), 2) |

## Left out

- `Math.pow` is a parameter of the engine (`Externals.pow`). The amortised payment and the monthly compound rates are therefore stated relative to it.
- Shared.AmortizedPayment: the guards on non-finite inputs are not modelled, because the model's numbers are exact reals; the closed-form payment for a positive rate is not stated beyond its guards, since it depends on `pow`.
- Floating point in general: all money is exact real arithmetic, so rounding differences and the tests' `toBeCloseTo` tolerances are not modelled.
- The two offset-then-invest strategy modules (`offsetThenInvestment.ts`, `offsetThenInvestmentMove.ts`) are not part of this model. Their four functions and the "move" variant's year-start hook are parameters (`Externals`), and the engine's invariants are proved only for the three modelled strategies.
- The strategy tag is a closed datatype, so the dispatch's fall-through for an unknown tag is not represented.
- The dispatch forwards neither the split ratio nor the switch year passed by the engine; each strategy uses the values captured when it was built, as in the source.
- The `mortgagePayment` input is not read by the engine: the scheduled payment is always the amortised one, as in the source.
- The monthly driver caps the principal on annualised figures and then divides by twelve (src/utils/calculations.ts:337-343); this is modelled as written.
- Calculations.StepCount: `Math.round(1 / step)` is modelled exactly, as ⌊1/step + ½⌋ on reals.
- Default parameter values (`step = 0.05`, the default strategies of a comparison) are not modelled: callers pass every argument.
- The historical view passes a fifth argument, the per-year rate list, to the comparison; the comparison in src/utils/calculations.ts takes four and ignores it, so the list is modelled but not fed to the engine.
- The default-range effect of the historical view (src/components/HistoricalSection.tsx:76-86) and the early return on no data (line 97) are React state handling and are not modelled.
- The fetch and the cache of the historical rate file are I/O; the loader takes the file's text.
- `parseInt` and `parseFloat` are parameters (`Parsers`, `NumberParsers`): the JavaScript number grammar is not modelled.
- HistoricalRates.LoadErrors: reading `lines[0]` when the file has no content line throws a TypeError in the source; the model returns the `NoHeader` error instead.
- InputForm.HandleChange: the value's kind must fit the key (a flag for the checkbox, a strategy for the select, a number otherwise), because the inputs record is typed.
- InputForm.EnterText: typing into one of the nine fields drawn by the generic number input composes `EnteredNumber` and `HandleChange`; it has no contract of its own beyond `PercentageEntry`. The split ratio and the switch year have their own handlers (`EnterSplitRatio`, `EnterSwitchYears`).
- The rest of the input form (formatting on blur, the local text state, rendering) is UI and not modelled.
- CrosscheckF7.ParseNumbers: the text is taken already split into whitespace-separated tokens; `str.isdigit` is modelled on ASCII digits only, and `float` only on digits and dots.
- CrosscheckF7.FyReturnsKeys: requires every June value to be non-zero; the script would raise ZeroDivisionError on a zero value.
- CrosscheckF7.Round2HalfEven: Python's `round` on binary floats is modelled as round-half-to-even on exact reals.
- The PDF extraction, the CSV comparison and the printing of the cross-check script are I/O and not modelled.
- Calculations.MonthlyPayment: the monthly driver keeps the behaviour of src/utils/calculations.ts:335-351; the corrected payment of the finding below stands beside it and is not fed to the loop, so the simulated runs stay those of the source.

## Findings

| source | as written | input that shows it | evidently intended | confidence | as-written member | corrected member |
|---|---|---|---|---|---|---|
| src/utils/calculations.ts:335-351 | the monthly loop caps the principal at the balance on yearly figures and only then divides by twelve, so a month retires at most a twelfth of the balance and the payments alone never bring it to zero | balance 1000, no offset, zero interest, yearly payment 12000: the month pays 1000/12 of principal, frees 11000/12, and leaves 11000/12 owing | the month pays the whole 1000 of principal and frees nothing | not executed | Calculations.MonthlyPaymentNeverClears | Calculations.MonthlyPaymentClears |
