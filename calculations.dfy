/** The simulation engine: src/utils/calculations.ts.

    The yearly and the monthly loop run the same seven stages per period. The monthly loop
    feeds the strategy functions annual-equivalent figures and divides their answers by
    twelve, so both are described by one step function `PeriodStep`, parameterised by a
    `Resolution`. `Run` folds it over the periods; the two drivers are methods whose loops
    are proved to compute `Run`. */
module Calculations {
  import opened Wrappers
  import opened Types
  import opened Shared
  import opened Strategies

  datatype Resolution = Annual | Monthly

  /** A yearly quantity as one period's share of it. */
  function PerPeriod(resolution: Resolution, x: real): real {
    if resolution.Annual? then x else x / 12.0
  }

  /** One period's quantity as its yearly equivalent. */
  function PerYear(resolution: Resolution, x: real): real {
    if resolution.Annual? then x else x * 12.0
  }

  /** The year a 1-based period falls in: the period itself, or ceil(month / 12). */
  function PeriodYear(resolution: Resolution, period: int): (year: int)
    ensures resolution.Annual? ==> year == period
    ensures resolution.Monthly? ==> 12 * (year - 1) < period <= 12 * year
  {
    if resolution.Annual? then period else (period + 11) / 12
  }

  /** `maxYears || inputs.years`: a missing or zero override falls back to the input horizon. */
  function YearsToRun(maxYears: Option<int>, years: int): (n: int)
    ensures maxYears.Some? && maxYears.value != 0 ==> n == maxYears.value
    ensures maxYears.None? || maxYears == Some(0) ==> n == years
  {
    if maxYears.Some? && maxYears.value != 0 then maxYears.value else years
  }

  /** The figures fixed before the loop starts. `periodInputs` are the inputs the strategies
      and the growth step see (the monthly loop swaps in annualised monthly rates); the three
      amounts are annual equivalents, as the strategy context carries them. */
  datatype Setup = Setup(
    inputs: CalculationInputs,
    periodInputs: CalculationInputs,
    strategy: Strategy,
    resolution: Resolution,
    mortgagePayment: real,
    annualContribution: real,
    effectiveInterestRate: real)

  /** The rate at which the offset saves interest: net of tax for an investment property,
      whose interest is deductible. */
  function EffectiveInterestRate(inputs: CalculationInputs): (rate: real)
    ensures !inputs.isInvestmentProperty ==> rate == inputs.mortgageInterestRate
    ensures inputs.isInvestmentProperty ==>
              rate + inputs.mortgageInterestRate * inputs.personalTaxRate == inputs.mortgageInterestRate
  {
    if inputs.isInvestmentProperty then inputs.mortgageInterestRate * (1.0 - inputs.personalTaxRate)
    else inputs.mortgageInterestRate
  }

  /** The scheduled payment for the full term; the optional `mortgagePayment` input is not
      consulted by the engine. */
  function ScheduledPayment(ext: Externals, inputs: CalculationInputs): real {
    AmortizedPayment(inputs.mortgageBalance, inputs.mortgageInterestRate, inputs.years as real, ext.pow)
  }

  function AnnualSetup(ext: Externals, inputs: CalculationInputs): Setup {
    Setup(
      inputs := inputs,
      periodInputs := inputs,
      strategy := GetStrategy(inputs),
      resolution := Annual,
      mortgagePayment := ScheduledPayment(ext, inputs),
      annualContribution := inputs.weeklyContribution * 52.0,
      effectiveInterestRate := EffectiveInterestRate(inputs))
  }

  /** The annual rate r as twelve times the compound monthly rate (1 + r)^(1/12) - 1. */
  function AnnualisedMonthlyRate(ext: Externals, rate: real): real {
    (ext.pow(1.0 + rate, 1.0 / 12.0) - 1.0) * 12.0
  }

  function MonthlySetup(ext: Externals, inputs: CalculationInputs): Setup {
    Setup(
      inputs := inputs,
      periodInputs := inputs.(
        mortgageInterestRate := AnnualisedMonthlyRate(ext, inputs.mortgageInterestRate),
        investmentReturnRate := AnnualisedMonthlyRate(ext, inputs.investmentReturnRate),
        dividendYield := AnnualisedMonthlyRate(ext, inputs.dividendYield)),
      strategy := GetStrategy(inputs),
      resolution := Monthly,
      mortgagePayment := ScheduledPayment(ext, inputs) / 12.0 * 12.0,
      annualContribution := inputs.weeklyContribution * (52.0 / 12.0) * 12.0,
      effectiveInterestRate := EffectiveInterestRate(inputs) / 12.0 * 12.0)
  }

  /** The ten running totals of the loop. */
  datatype Accumulators = Accumulators(
    cumulativeCapitalGain: real,
    totalAfterTaxDividends: real,
    totalInterestPaid: real,
    totalInterestSaved: real,
    cumulativeDividendTax: real,
    cumulativeMortgagePayments: real,
    actualMortgagePaymentsTotal: real,
    mortgagePaymentsAfterPayoff: real,
    actualInvestmentContributions: real,
    freedUpMortgagePaymentsTotal: real)

  const NoTotals := Accumulators(0.0, 0.0, 0.0, 0.0, 0.0, 0.0, 0.0, 0.0, 0.0, 0.0)

  /** The starting balances: the lump sum is split by the strategy and invested at cost. */
  function InitialState(ext: Externals, setup: Setup): (s: StrategyState)
    ensures s.mortgageBalance == setup.inputs.mortgageBalance
    ensures s.investmentValue == s.investmentCostBasis && s.offsetBalance == s.offsetTotalInvested
  {
    var a := AllocateInitialAmount(ext, setup.strategy, setup.inputs.initialAmount, setup.inputs.mortgageBalance);
    StrategyState(
      mortgageBalance := setup.inputs.mortgageBalance,
      offsetBalance := a.offsetAllocation,
      investmentValue := a.investmentAllocation,
      investmentCostBasis := a.investmentAllocation,
      offsetTotalInvested := a.offsetAllocation)
  }

  /** What the strategies see in a period; the mortgage counts as paid off when the period
      starts with no positive balance. */
  function PeriodContext(setup: Setup, period: int, start: StrategyState): StrategyContext {
    StrategyContext(
      inputs := setup.periodInputs,
      mortgagePayment := setup.mortgagePayment,
      annualContribution := setup.annualContribution,
      effectiveInterestRate := setup.effectiveInterestRate,
      year := PeriodYear(setup.resolution, period),
      mortgagePaidOff := start.mortgageBalance <= 0.0)
  }

  function PerPeriodPayment(resolution: Resolution, r: MortgagePaymentResult): MortgagePaymentResult {
    MortgagePaymentResult(
      principalPaid := PerPeriod(resolution, r.principalPaid),
      freedUpFromMortgagePayment := PerPeriod(resolution, r.freedUpFromMortgagePayment),
      actualMortgagePayment := PerPeriod(resolution, r.actualMortgagePayment),
      interestAccrued := PerPeriod(resolution, r.interestAccrued),
      interestSavedThisYear := PerPeriod(resolution, r.interestSavedThisYear))
  }

  function PerPeriodGrowth(resolution: Resolution, g: Growth): Growth {
    Growth(
      yearCapitalGain := PerPeriod(resolution, g.yearCapitalGain),
      yearDividends := PerPeriod(resolution, g.yearDividends),
      yearDividendTax := PerPeriod(resolution, g.yearDividendTax),
      afterTaxDividends := PerPeriod(resolution, g.afterTaxDividends))
  }

  function PerPeriodAllocation(resolution: Resolution, c: ContributionAllocation): ContributionAllocation {
    ContributionAllocation(
      contributionToOffset := PerPeriod(resolution, c.contributionToOffset),
      contributionToInvestment := PerPeriod(resolution, c.contributionToInvestment))
  }

  /** The deductible share of the period's interest, refunded for an investment property. */
  function TaxRefundFromInterest(inputs: CalculationInputs, interestAccrued: real): (refund: real)
    ensures !inputs.isInvestmentProperty ==> refund == 0.0
    ensures inputs.isInvestmentProperty ==> refund == interestAccrued * inputs.personalTaxRate
  {
    if inputs.isInvestmentProperty then interestAccrued * inputs.personalTaxRate else 0.0
  }

  /** The interest the household bears: net of the refund for an investment property. */
  function AfterTaxInterest(inputs: CalculationInputs, interestAccrued: real): (cost: real)
    ensures cost + TaxRefundFromInterest(inputs, interestAccrued) == interestAccrued
  {
    if inputs.isInvestmentProperty then interestAccrued * (1.0 - inputs.personalTaxRate) else interestAccrued
  }

  /** The intermediate values of one period, stage by stage. */
  datatype PeriodFlows = PeriodFlows(
    start: StrategyState,
    payment: MortgagePaymentResult,
    cleaned: StrategyState,
    growth: Growth,
    taxRefundFromInterest: real,
    contributionWithTaxRefund: real,
    allocation: ContributionAllocation,
    final: StrategyState)

  /** The mortgage half of a period: the payment made and the balances once the payoff and
      excess-offset clean-up have run. */
  datatype Settlement = Settlement(payment: MortgagePaymentResult, cleaned: StrategyState)

  /** Stages one to three of a period: year-start hook; mortgage payment; payoff and
      excess-offset clean-up. */
  function Settle(ext: Externals, setup: Setup, period: int, start: StrategyState): Settlement {
    var strategy := setup.strategy;
    var context := PeriodContext(setup, period, start);
    var s1 := HandleYearStart(ext, strategy, start, context);
    var payment := PerPeriodPayment(setup.resolution, ProcessMortgagePayment(s1, context));
    var s2 := ApplyMortgagePayment(s1, payment);
    Settlement(payment, HandleExcessOffset(ext, strategy, HandleMortgagePayoff(ext, strategy, s2)))
  }

  /** In a monthly run the principal is capped at the balance on annual figures and only then
      divided by twelve, so a month's payment retires at most a twelfth of a positive balance:
      the payment stage alone never brings it to zero. */
  lemma MonthlyPaymentNeverClears(state: StrategyState, context: StrategyContext)
    requires state.mortgageBalance > 0.0
    ensures ApplyMortgagePayment(state, PerPeriodPayment(Monthly, ProcessMortgagePayment(state, context))).mortgageBalance
            >= state.mortgageBalance * (11.0 / 12.0) > 0.0
  {
    var annual := ProcessMortgagePayment(state, context);
    assert 0.0 <= annual.principalPaid <= state.mortgageBalance;
    assert annual.principalPaid / 12.0 <= state.mortgageBalance / 12.0;
  }

  /** The context of one month on monthly figures: a twelfth of the yearly payment and of the
      yearly interest rates. */
  function MonthlyFigures(context: StrategyContext): StrategyContext {
    context.(inputs := context.inputs.(mortgageInterestRate := context.inputs.mortgageInterestRate / 12.0),
             mortgagePayment := context.mortgagePayment / 12.0,
             effectiveInterestRate := context.effectiveInterestRate / 12.0)
  }

  /** A month's payment worked out on monthly figures, capping the principal at the balance the
      month starts with. */
  function MonthlyPayment(state: StrategyState, context: StrategyContext): (r: MortgagePaymentResult)
    ensures r.actualMortgagePayment + r.freedUpFromMortgagePayment == context.mortgagePayment / 12.0
    ensures state.mortgageBalance > 0.0 ==> 0.0 <= r.principalPaid <= state.mortgageBalance
  {
    ProcessMortgagePayment(state, MonthlyFigures(context))
  }

  /** A month whose payment covers its interest and the balance retires the loan. */
  lemma MonthlyPaymentClears(state: StrategyState, context: StrategyContext)
    requires state.mortgageBalance > 0.0
    requires context.mortgagePayment / 12.0 >= MonthlyPayment(state, context).interestAccrued + state.mortgageBalance
    ensures ApplyMortgagePayment(state, MonthlyPayment(state, context)).mortgageBalance == 0.0
  {
    var r := MonthlyPayment(state, context);
    assert r.principalPaid == state.mortgageBalance;
  }

  /** A loan of 1000 with no offset and no interest, paid 12000 a year: the month on monthly
      figures pays the whole 1000 and frees nothing, while the monthly driver pays a twelfth of
      it and frees the rest of the month's payment. */
  lemma MonthlyPaymentExample(state: StrategyState, context: StrategyContext)
    requires state.mortgageBalance == 1000.0 && state.offsetBalance == 0.0
    requires context.inputs.mortgageInterestRate == 0.0 && context.mortgagePayment == 12000.0
    ensures MonthlyPayment(state, context).principalPaid == 1000.0
    ensures MonthlyPayment(state, context).freedUpFromMortgagePayment == 0.0
    ensures PerPeriodPayment(Monthly, ProcessMortgagePayment(state, context)).principalPaid == 1000.0 / 12.0
    ensures PerPeriodPayment(Monthly, ProcessMortgagePayment(state, context)).freedUpFromMortgagePayment == 11000.0 / 12.0
  {
  }

  /** While the yearly cap does not bind, the payment on monthly figures is the monthly
      driver's twelfth of the yearly one. */
  lemma MonthlyPaymentAgrees(state: StrategyState, context: StrategyContext)
    requires state.mortgageBalance > 0.0
    requires context.mortgagePayment - ProcessMortgagePayment(state, context).interestAccrued <= state.mortgageBalance
    ensures MonthlyPayment(state, context) == PerPeriodPayment(Monthly, ProcessMortgagePayment(state, context))
  {
    var r := MonthlyPayment(state, context);
    var annual := ProcessMortgagePayment(state, context);
    var outstanding := OutstandingForInterest(state);
    var rate := context.inputs.mortgageInterestRate;
    assert r.interestAccrued == outstanding * (rate / 12.0) == (outstanding * rate) / 12.0;
    assert r.interestAccrued == annual.interestAccrued / 12.0;
    assert r.interestSavedThisYear == annual.interestSavedThisYear / 12.0;
    assert r.principalPaid == annual.principalPaid / 12.0;
    assert r.freedUpFromMortgagePayment == 0.0 == annual.freedUpFromMortgagePayment;
  }

  /** Stages four to six: growth on the balance held before contributions; allocation of the
      contribution plus the interest tax refund; the freed-up payment invested. */
  function Invest(ext: Externals, setup: Setup, period: int, start: StrategyState, settled: Settlement): PeriodFlows {
    var strategy := setup.strategy;
    var resolution := setup.resolution;
    var context := PeriodContext(setup, period, start);
    var payment := settled.payment;
    var s3 := settled.cleaned;
    var growth := PerPeriodGrowth(resolution, InvestmentGrowth(s3.investmentValue, setup.periodInputs));
    var s4 := s3.(investmentValue := s3.investmentValue + (growth.yearCapitalGain + growth.afterTaxDividends),
                  investmentCostBasis := s3.investmentCostBasis + growth.afterTaxDividends);
    var refund := TaxRefundFromInterest(setup.inputs, payment.interestAccrued);
    var contribution := PerPeriod(resolution, setup.annualContribution) + refund;
    var allocation := PerPeriodAllocation(resolution,
      AllocateContributions(ext, strategy, s4, context.(annualContribution := PerYear(resolution, contribution))));
    var s5 := if contribution > 0.0 then
                s4.(offsetBalance := s4.offsetBalance + allocation.contributionToOffset,
                    offsetTotalInvested := s4.offsetTotalInvested + allocation.contributionToOffset,
                    investmentValue := s4.investmentValue + allocation.contributionToInvestment,
                    investmentCostBasis := s4.investmentCostBasis + allocation.contributionToInvestment)
              else s4;
    var freed := payment.freedUpFromMortgagePayment;
    var s6 := if freed > 0.0 then
                s5.(investmentValue := s5.investmentValue + freed,
                    investmentCostBasis := s5.investmentCostBasis + freed)
              else s5;
    PeriodFlows(start, payment, s3, growth, refund, contribution, allocation, s6)
  }

  /** The stages of a period, in order. */
  function Flows(ext: Externals, setup: Setup, period: int, start: StrategyState): PeriodFlows {
    Invest(ext, setup, period, start, Settle(ext, setup, period, start))
  }

  /** The totals the mortgage half of a period updates. */
  function PaymentTotals(setup: Setup, acc: Accumulators, start: StrategyState, payment: MortgagePaymentResult): Accumulators {
    var scheduled := PerPeriod(setup.resolution, setup.mortgagePayment);
    acc.(
      totalInterestPaid := acc.totalInterestPaid + AfterTaxInterest(setup.inputs, payment.interestAccrued),
      totalInterestSaved := acc.totalInterestSaved + payment.interestSavedThisYear,
      cumulativeMortgagePayments := acc.cumulativeMortgagePayments + scheduled,
      actualMortgagePaymentsTotal := acc.actualMortgagePaymentsTotal
        + (if start.mortgageBalance > 0.0 then payment.actualMortgagePayment else 0.0),
      mortgagePaymentsAfterPayoff := acc.mortgagePaymentsAfterPayoff
        + (if start.mortgageBalance > 0.0 then 0.0 else scheduled))
  }

  /** The totals the investing half of a period updates. */
  function InvestTotals(acc: Accumulators, f: PeriodFlows): Accumulators {
    var freed := f.payment.freedUpFromMortgagePayment;
    var freedInvested := if freed > 0.0 then freed else 0.0;
    acc.(
      cumulativeCapitalGain := acc.cumulativeCapitalGain + f.growth.yearCapitalGain,
      totalAfterTaxDividends := acc.totalAfterTaxDividends + f.growth.afterTaxDividends,
      cumulativeDividendTax := acc.cumulativeDividendTax + f.growth.yearDividendTax,
      actualInvestmentContributions := acc.actualInvestmentContributions
        + f.allocation.contributionToInvestment + freedInvested,
      freedUpMortgagePaymentsTotal := acc.freedUpMortgagePaymentsTotal + freedInvested)
  }

  /** The running totals after a period. */
  function NextTotals(setup: Setup, acc: Accumulators, f: PeriodFlows): Accumulators {
    InvestTotals(PaymentTotals(setup, acc, f.start, f.payment), f)
  }

  /** The tax refund divided between offset and investment in the proportions the
      contribution it rode on was allocated. */
  function RefundShares(refund: real, contribution: real, allocation: ContributionAllocation): (shares: (real, real))
    ensures refund > 0.0 && contribution > 0.0
            && allocation.contributionToOffset + allocation.contributionToInvestment == contribution ==>
              shares.0 + shares.1 == refund
    ensures !(refund > 0.0 && contribution > 0.0) ==> shares == (0.0, 0.0)
    ensures refund > 0.0 && contribution > 0.0 ==>
              shares.0 * contribution == refund * allocation.contributionToOffset
              && shares.1 * contribution == refund * allocation.contributionToInvestment
  {
    if refund > 0.0 && contribution > 0.0 then
      var toOffset := refund * (allocation.contributionToOffset / contribution);
      var toInvestment := refund * (allocation.contributionToInvestment / contribution);
      assert toOffset + toInvestment == refund * ((allocation.contributionToOffset + allocation.contributionToInvestment) / contribution);
      (toOffset, toInvestment)
    else (0.0, 0.0)
  }

  /** The period's output record. */
  function PeriodRecord(setup: Setup, period: int, f: PeriodFlows, acc: Accumulators): YearResult {
    var inputs := setup.inputs;
    var s := f.final;
    var taxes := CalculateTaxes(s.investmentValue, s.investmentCostBasis, acc.cumulativeDividendTax, inputs);
    var offsetMoved := Max(0.0, f.start.offsetBalance + f.allocation.contributionToOffset - s.offsetBalance);
    var shares := RefundShares(f.taxRefundFromInterest, f.contributionWithTaxRefund, f.allocation);
    YearResult(
      year := PeriodYear(setup.resolution, period),
      mortgageBalance := s.mortgageBalance,
      previousMortgageBalance := f.start.mortgageBalance,
      mortgageInterest := f.payment.interestAccrued,
      mortgagePayment := f.payment.actualMortgagePayment,
      principalPaid := f.payment.principalPaid,
      offsetBalance := s.offsetBalance,
      previousOffsetBalance := f.start.offsetBalance,
      offsetContribution := f.allocation.contributionToOffset - offsetMoved,
      investmentValue := s.investmentValue,
      previousInvestmentValue := f.cleaned.investmentValue,
      capitalGains := f.growth.yearCapitalGain,
      dividends := f.growth.yearDividends,
      capitalGainsTax := taxes.capitalGainsTax,
      capitalGainsTaxBeforeDiscount := taxes.capitalGainsTaxBeforeDiscount,
      capitalGainsDiscount := taxes.capitalGainsDiscount,
      dividendTax := f.growth.yearDividendTax,
      investmentContribution := f.allocation.contributionToInvestment + f.payment.freedUpFromMortgagePayment + offsetMoved,
      netWorth := s.investmentValue - taxes.capitalGainsTax + s.offsetBalance - s.mortgageBalance,
      totalReturn := acc.cumulativeCapitalGain + acc.totalAfterTaxDividends,
      interestPaid := acc.totalInterestPaid,
      interestSaved := acc.totalInterestSaved,
      totalTax := taxes.totalTax,
      offsetTotalInvested := s.offsetTotalInvested,
      investmentTotalInvested := s.investmentCostBasis,
      actualInvestmentContributions := acc.actualInvestmentContributions,
      freedUpMortgagePaymentsTotal := acc.freedUpMortgagePaymentsTotal,
      offsetNetGains := acc.totalInterestSaved,
      investmentNetGains := acc.cumulativeCapitalGain + acc.totalAfterTaxDividends,
      outstandingBalanceForInterest := OutstandingForInterest(f.start),
      cumulativeMortgagePayments := acc.cumulativeMortgagePayments,
      actualMortgagePaymentsTotal := acc.actualMortgagePaymentsTotal,
      mortgagePaymentsAfterPayoff := acc.mortgagePaymentsAfterPayoff,
      taxRefundFromInterest := f.taxRefundFromInterest,
      taxRefundToOffset := shares.0,
      taxRefundToInvestment := shares.1)
  }

  datatype Step = Step(state: StrategyState, totals: Accumulators, record: YearResult)

  /** One period of the loop: new balances, new totals and the record pushed. */
  function PeriodStep(ext: Externals, setup: Setup, period: int, state: StrategyState, totals: Accumulators): Step {
    var f := Flows(ext, setup, period, state);
    var next := NextTotals(setup, totals, f);
    Step(f.final, next, PeriodRecord(setup, period, f, next))
  }

  datatype Progress = Progress(state: StrategyState, totals: Accumulators, results: seq<YearResult>)

  /** The loop after `n` periods. */
  function Run(ext: Externals, setup: Setup, n: nat): (p: Progress)
    ensures |p.results| == n
    decreases n, 2
  {
    if n == 0 then Progress(InitialState(ext, setup), NoTotals, []) else Extend(ext, setup, n)
  }

  /** The loop after period `n`: the first n - 1 periods with period `n` appended. */
  function Extend(ext: Externals, setup: Setup, n: nat): (p: Progress)
    requires n >= 1
    ensures |p.results| == n
    decreases n, 1
  {
    var step := StepAt(ext, setup, n);
    Progress(step.state, step.totals, Run(ext, setup, n - 1).results + [step.record])
  }

  /** Period `n`, taken from where the first n - 1 periods left off. */
  function StepAt(ext: Externals, setup: Setup, n: nat): Step
    requires n >= 1
    decreases n, 0
  {
    var prev := Run(ext, setup, n - 1);
    PeriodStep(ext, setup, n, prev.state, prev.totals)
  }

  /** One more pass of the loop body, as the drivers make it: after period `n - 1` comes
      period `n`. */
  method AdvanceRun(ext: Externals, setup: Setup, n: nat, state0: StrategyState, totals0: Accumulators,
                    ghost results0: seq<YearResult>)
    returns (state: StrategyState, totals: Accumulators, record: YearResult)
    requires n >= 1 && Run(ext, setup, n - 1) == Progress(state0, totals0, results0)
    ensures Run(ext, setup, n) == Progress(state, totals, results0 + [record])
  {
    state, totals, record := AdvancePeriod(ext, setup, n, state0, totals0);
    assert StepAt(ext, setup, n) == Step(state, totals, record);
    assert Extend(ext, setup, n) == Progress(state, totals, results0 + [record]);
  }

  /** The number of yearly records `calculateStrategy` produces. */
  function YearCount(inputs: CalculationInputs, maxYears: Option<int>): nat {
    MaxInt(0, YearsToRun(maxYears, inputs.years))
  }

  /** The records of `calculateStrategy`. */
  function Simulate(ext: Externals, inputs: CalculationInputs, maxYears: Option<int>): seq<YearResult> {
    Run(ext, AnnualSetup(ext, inputs), YearCount(inputs, maxYears)).results
  }

  /** One pass of the loop body, updating the balances and totals in place as the source does. */
  method AdvancePeriod(ext: Externals, setup: Setup, period: int, state0: StrategyState, totals0: Accumulators)
    returns (state: StrategyState, totals: Accumulators, record: YearResult)
    ensures Step(state, totals, record) == PeriodStep(ext, setup, period, state0, totals0)
  {
    var payment, flows;
    state, totals, payment := PayMortgage(ext, setup, period, state0, totals0);
    state, totals, flows := GrowAndContribute(ext, setup, period, state0, payment, state, totals);
    record := PeriodRecord(setup, period, flows, totals);
  }

  /** The mortgage half of the loop body. */
  method PayMortgage(ext: Externals, setup: Setup, period: int, startState: StrategyState, totals0: Accumulators)
    returns (state: StrategyState, totals: Accumulators, mortgageResult: MortgagePaymentResult)
    ensures Settlement(mortgageResult, state) == Settle(ext, setup, period, startState)
    ensures totals == PaymentTotals(setup, totals0, startState, mortgageResult)
  {
    var inputs := setup.inputs;
    var strategy := setup.strategy;
    state := startState;
    totals := totals0;
    var context := PeriodContext(setup, period, startState);

    if HasYearStart(strategy) {
      state := HandleYearStart(ext, strategy, state, context);
    }

    mortgageResult := PerPeriodPayment(setup.resolution, ProcessMortgagePayment(state, context));
    state := ApplyMortgagePayment(state, mortgageResult);

    var afterTaxInterest := AfterTaxInterest(inputs, mortgageResult.interestAccrued);
    totals := totals.(totalInterestPaid := totals.totalInterestPaid + afterTaxInterest);
    totals := totals.(totalInterestSaved := totals.totalInterestSaved + mortgageResult.interestSavedThisYear);

    var scheduledPayment := PerPeriod(setup.resolution, setup.mortgagePayment);
    totals := totals.(cumulativeMortgagePayments := totals.cumulativeMortgagePayments + scheduledPayment);
    if startState.mortgageBalance > 0.0 {
      totals := totals.(actualMortgagePaymentsTotal := totals.actualMortgagePaymentsTotal + mortgageResult.actualMortgagePayment);
    } else {
      totals := totals.(mortgagePaymentsAfterPayoff := totals.mortgagePaymentsAfterPayoff + scheduledPayment);
    }

    state := HandleMortgagePayoff(ext, strategy, state);
    state := HandleExcessOffset(ext, strategy, state);
  }

  /** The investing half of the loop body, from the cleaned-up balances `cleaned`. */
  method GrowAndContribute(ext: Externals, setup: Setup, period: int, startState: StrategyState,
                           mortgageResult: MortgagePaymentResult, cleaned: StrategyState, totals0: Accumulators)
    returns (state: StrategyState, totals: Accumulators, flows: PeriodFlows)
    ensures flows == Invest(ext, setup, period, startState, Settlement(mortgageResult, cleaned))
    ensures state == flows.final
    ensures totals == InvestTotals(totals0, flows)
  {
    var resolution := setup.resolution;
    var strategy := setup.strategy;
    var context := PeriodContext(setup, period, startState);
    state := cleaned;
    totals := totals0;

    var investmentValueBeforeContributions := state.investmentValue;
    var growth := PerPeriodGrowth(resolution, InvestmentGrowth(investmentValueBeforeContributions, setup.periodInputs));
    totals := totals.(cumulativeCapitalGain := totals.cumulativeCapitalGain + growth.yearCapitalGain);
    totals := totals.(cumulativeDividendTax := totals.cumulativeDividendTax + growth.yearDividendTax);
    totals := totals.(totalAfterTaxDividends := totals.totalAfterTaxDividends + growth.afterTaxDividends);
    state := state.(investmentValue := state.investmentValue + (growth.yearCapitalGain + growth.afterTaxDividends));
    state := state.(investmentCostBasis := state.investmentCostBasis + growth.afterTaxDividends);

    var taxRefundFromInterest := TaxRefundFromInterest(setup.inputs, mortgageResult.interestAccrued);
    var contributionWithTaxRefund := PerPeriod(resolution, setup.annualContribution) + taxRefundFromInterest;
    var contextWithTaxRefund := context.(annualContribution := PerYear(resolution, contributionWithTaxRefund));
    var allocation := PerPeriodAllocation(resolution, AllocateContributions(ext, strategy, state, contextWithTaxRefund));

    if contributionWithTaxRefund > 0.0 {
      state := state.(offsetBalance := state.offsetBalance + allocation.contributionToOffset);
      state := state.(offsetTotalInvested := state.offsetTotalInvested + allocation.contributionToOffset);
      state := state.(investmentValue := state.investmentValue + allocation.contributionToInvestment);
      state := state.(investmentCostBasis := state.investmentCostBasis + allocation.contributionToInvestment);
    }
    totals := totals.(actualInvestmentContributions := totals.actualInvestmentContributions + allocation.contributionToInvestment);

    var freed := mortgageResult.freedUpFromMortgagePayment;
    if freed > 0.0 {
      state := state.(investmentValue := state.investmentValue + freed);
      state := state.(investmentCostBasis := state.investmentCostBasis + freed);
      totals := totals.(freedUpMortgagePaymentsTotal := totals.freedUpMortgagePaymentsTotal + freed);
      totals := totals.(actualInvestmentContributions := totals.actualInvestmentContributions + freed);
    }

    flows := PeriodFlows(startState, mortgageResult, cleaned, growth, taxRefundFromInterest,
                         contributionWithTaxRefund, allocation, state);
  }

  /** `calculateStrategy`: one record per year for `maxYears || inputs.years` years. */
  method CalculateStrategy(ext: Externals, inputs: CalculationInputs, maxYears: Option<int>)
    returns (results: seq<YearResult>)
    ensures results == Simulate(ext, inputs, maxYears)
    ensures |results| == YearCount(inputs, maxYears)
  {
    var setup := AnnualSetup(ext, inputs);
    var yearsToRun := YearsToRun(maxYears, inputs.years);
    var state := InitialState(ext, setup);
    var totals := NoTotals;
    results := [];
    var year := 1;
    while year <= yearsToRun
      invariant 1 <= year <= MaxInt(0, yearsToRun) + 1
      invariant Run(ext, setup, year - 1) == Progress(state, totals, results)
    {
      var record;
      state, totals, record := AdvanceRun(ext, setup, year, state, totals, results);
      results := results + [record];
      year := year + 1;
    }
  }

  /** The months of a monthly run, each record numbered by its month. */
  function Numbered(records: seq<YearResult>): (months: seq<MonthResult>)
    ensures |months| == |records|
    ensures forall i :: 0 <= i < |months| ==> months[i] == MonthResult(i + 1, records[i])
  {
    seq(|records|, i requires 0 <= i < |records| => MonthResult(i + 1, records[i]))
  }

  /** Numbering a record appended to a run gives it the next month number. */
  lemma NumberedSnoc(records: seq<YearResult>, record: YearResult, months: seq<MonthResult>)
    requires months == Numbered(records)
    ensures months + [MonthResult(|records| + 1, record)] == Numbered(records + [record])
  {
  }

  /** The records of `calculateStrategyMonthly`. */
  function SimulateMonthly(ext: Externals, inputs: CalculationInputs, maxYears: Option<int>): seq<MonthResult> {
    Numbered(Run(ext, MonthlySetup(ext, inputs), 12 * YearCount(inputs, maxYears)).results)
  }

  /** `calculateStrategyMonthly`: one record per month for twelve times as many periods. */
  method CalculateStrategyMonthly(ext: Externals, inputs: CalculationInputs, maxYears: Option<int>)
    returns (results: seq<MonthResult>)
    ensures results == SimulateMonthly(ext, inputs, maxYears)
    ensures |results| == 12 * YearCount(inputs, maxYears)
  {
    var totalMonths := YearsToRun(maxYears, inputs.years) * 12;
    results := MonthlyLoop(ext, MonthlySetup(ext, inputs), totalMonths);
  }

  /** The month loop of `calculateStrategyMonthly`. */
  method MonthlyLoop(ext: Externals, setup: Setup, totalMonths: int) returns (results: seq<MonthResult>)
    ensures results == Numbered(Run(ext, setup, MaxInt(0, totalMonths)).results)
  {
    var state := InitialState(ext, setup);
    var totals := NoTotals;
    ghost var records: seq<YearResult> := [];
    results := [];
    var month := 1;
    while month <= totalMonths
      invariant 1 <= month <= MaxInt(0, totalMonths) + 1
      invariant Run(ext, setup, month - 1) == Progress(state, totals, records)
      invariant results == Numbered(records)
    {
      var record;
      state, totals, record := AdvanceRun(ext, setup, month, state, totals, records);
      NumberedSnoc(records, record, results);
      results := results + [MonthResult(month, record)];
      records := records + [record];
      month := month + 1;
    }
  }

  /** The first position whose element satisfies `p` (`Array.prototype.findIndex`). */
  function FirstWhere<T>(s: seq<T>, p: T -> bool): (i: Option<nat>)
    ensures i.Some? ==> i.value < |s| && p(s[i.value]) && forall j :: 0 <= j < i.value ==> !p(s[j])
    ensures i.None? ==> forall j :: 0 <= j < |s| ==> !p(s[j])
  {
    if |s| == 0 then None
    else if p(s[0]) then Some(0)
    else match FirstWhere(s[1..], p)
      case None => None
      case Some(k) => Some(k + 1)
  }

  /** The search horizon of the payoff-year search: at least fifty years. */
  function PayoffSearchYears(inputs: CalculationInputs): int {
    MaxInt(inputs.years, 50)
  }

  /** The first (1-based) record whose closing balance is not positive, or the last one. */
  function FirstPaidOffYear(results: seq<YearResult>): (year: int)
    requires |results| >= 1
    ensures 1 <= year <= |results|
    ensures forall j :: 0 <= j < year - 1 ==> results[j].mortgageBalance > 0.0
    ensures results[year - 1].mortgageBalance <= 0.0 || year == |results|
  {
    match FirstWhere(results, (r: YearResult) => r.mortgageBalance <= 0.0)
    case Some(i) => i + 1
    case None => |results|
  }

  /** The first (1-based) year whose closing balance is not positive, over a horizon of
      max(years, 50); the whole horizon when the loan is never retired within it. */
  function FindPayoffYear(ext: Externals, inputs: CalculationInputs): (year: int)
    ensures 1 <= year <= PayoffSearchYears(inputs)
    ensures var results := Simulate(ext, inputs, Some(PayoffSearchYears(inputs)));
      && |results| == PayoffSearchYears(inputs)
      && (forall j :: 0 <= j < year - 1 ==> results[j].mortgageBalance > 0.0)
      && (results[year - 1].mortgageBalance <= 0.0 || year == PayoffSearchYears(inputs))
  {
    var results := Simulate(ext, inputs, Some(PayoffSearchYears(inputs)));
    assert |results| == PayoffSearchYears(inputs);
    FirstPaidOffYear(results)
  }

  datatype Comparison<R> = Comparison(left: seq<R>, right: seq<R>, leftStrategy: StrategyTag, rightStrategy: StrategyTag)

  /** The horizon of a comparison: the override when given, otherwise the later payoff year. */
  function ComparisonYears(ext: Externals, inputs: CalculationInputs, leftStrategy: StrategyTag, rightStrategy: StrategyTag,
                           maxYearsOverride: Option<int>): (years: int)
    ensures maxYearsOverride.Some? ==> years == maxYearsOverride.value
    ensures maxYearsOverride.None? ==>
              years == MaxInt(FindPayoffYear(ext, inputs.(strategy := leftStrategy)),
                              FindPayoffYear(ext, inputs.(strategy := rightStrategy)))
              && years >= 1
  {
    match maxYearsOverride
    case Some(years) => years
    case None =>
      MaxInt(FindPayoffYear(ext, inputs.(strategy := leftStrategy)), FindPayoffYear(ext, inputs.(strategy := rightStrategy)))
  }

  /** Both strategies run over the same horizon, so their records line up year by year. */
  function CalculateComparison(ext: Externals, inputs: CalculationInputs, leftStrategy: StrategyTag, rightStrategy: StrategyTag,
                               maxYearsOverride: Option<int>): (c: Comparison<YearResult>)
    ensures |c.left| == |c.right|
    ensures maxYearsOverride.None? ==>
              |c.left| == MaxInt(FindPayoffYear(ext, inputs.(strategy := leftStrategy)),
                                 FindPayoffYear(ext, inputs.(strategy := rightStrategy)))
    ensures maxYearsOverride.Some? && maxYearsOverride.value != 0 ==> |c.left| == MaxInt(0, maxYearsOverride.value)
    ensures c.left == Simulate(ext, inputs.(strategy := leftStrategy), Some(ComparisonYears(ext, inputs, leftStrategy, rightStrategy, maxYearsOverride)))
    ensures c.right == Simulate(ext, inputs.(strategy := rightStrategy), Some(ComparisonYears(ext, inputs, leftStrategy, rightStrategy, maxYearsOverride)))
    ensures c.leftStrategy == leftStrategy && c.rightStrategy == rightStrategy
  {
    var maxYears := ComparisonYears(ext, inputs, leftStrategy, rightStrategy, maxYearsOverride);
    Comparison(
      Simulate(ext, inputs.(strategy := leftStrategy), Some(maxYears)),
      Simulate(ext, inputs.(strategy := rightStrategy), Some(maxYears)),
      leftStrategy,
      rightStrategy)
  }

  /** The monthly comparison: `maxYearsOverride || inputs.years` years of months for both. */
  function CalculateComparisonMonthly(ext: Externals, inputs: CalculationInputs, leftStrategy: StrategyTag, rightStrategy: StrategyTag,
                                      maxYearsOverride: Option<int>): (c: Comparison<MonthResult>)
    ensures |c.left| == |c.right| == 12 * MaxInt(0, YearsToRun(maxYearsOverride, inputs.years))
    ensures c.left == SimulateMonthly(ext, inputs.(strategy := leftStrategy), Some(YearsToRun(maxYearsOverride, inputs.years)))
    ensures c.right == SimulateMonthly(ext, inputs.(strategy := rightStrategy), Some(YearsToRun(maxYearsOverride, inputs.years)))
    ensures c.leftStrategy == leftStrategy && c.rightStrategy == rightStrategy
  {
    var maxYears := YearsToRun(maxYearsOverride, inputs.years);
    Comparison(
      SimulateMonthly(ext, inputs.(strategy := leftStrategy), Some(maxYears)),
      SimulateMonthly(ext, inputs.(strategy := rightStrategy), Some(maxYears)),
      leftStrategy,
      rightStrategy)
  }

  /** `getNetWorthAtYear`: the net worth of the first record labelled `year`; failing that,
      of the last record; failing that, zero. */
  function GetNetWorthAtYear(results: seq<YearResult>, year: int): real {
    match FirstWhere(results, (r: YearResult) => r.year == year)
    case Some(i) => results[i].netWorth
    case None => if |results| > 0 then results[|results| - 1].netWorth else 0.0
  }

  /** What `GetNetWorthAtYear` reads off: the first record labelled `year`, else the last
      record, else zero. */
  lemma NetWorthAtYear(results: seq<YearResult>, year: int)
    ensures (exists i :: 0 <= i < |results| && results[i].year == year) ==>
              exists i :: 0 <= i < |results| && results[i].year == year
                && GetNetWorthAtYear(results, year) == results[i].netWorth
                && forall j :: 0 <= j < i ==> results[j].year != year
    ensures (forall i :: 0 <= i < |results| ==> results[i].year != year) && |results| > 0 ==>
              GetNetWorthAtYear(results, year) == results[|results| - 1].netWorth
    ensures |results| == 0 ==> GetNetWorthAtYear(results, year) == 0.0
  {
  }

  /** The step of the split-ratio grid, kept within [0.01, 1]. */
  function ClampedStep(step: real): (c: real)
    ensures 0.01 <= c <= 1.0
    ensures 0.01 <= step <= 1.0 ==> c == step
  {
    Min(1.0, Max(0.01, step))
  }

  /** `Math.round(1 / clampedStep)`: the nearest integer, halves rounding up. */
  function StepCount(step: real): (n: int)
    ensures 1 <= n <= 100
  {
    var c := ClampedStep(step);
    assert 1.0 <= 1.0 / c <= 100.0 by {
      assert c * (1.0 / c) == 1.0;
      assert c * 100.0 >= 1.0;
    }
    (1.0 / c + 0.5).Floor
  }

  /** The grid has the number of intervals nearest to 1 / step. */
  lemma StepCountRounds(step: real)
    ensures StepCount(step) as real - 0.5 <= 1.0 / ClampedStep(step) < StepCount(step) as real + 0.5
  {
  }

  /** The i-th ratio of the grid, capped at one. */
  function GridRatio(step: real, i: int): (ratio: real)
    ensures i >= 0 ==> 0.0 <= ratio <= 1.0
  {
    var c := ClampedStep(step);
    assert i >= 0 ==> 0.0 <= i as real * c by {
      if i >= 0 { ProductNonNegative(i as real, c); }
    }
    Min(1.0, i as real * c)
  }

  /** The net worth in `year` of the split strategy at `ratio`, run for `year` years. */
  function SplitNetWorth(ext: Externals, inputs: CalculationInputs, year: int, ratio: real): real {
    GetNetWorthAtYear(Simulate(ext, inputs.(strategy := SplitTag, splitRatio := Some(ratio)), Some(year)), year)
  }

  /** The net worth of the i-th grid point. */
  function GridNetWorth(ext: Externals, inputs: CalculationInputs, year: int, step: real, i: int): real {
    SplitNetWorth(ext, inputs, year, GridRatio(step, i))
  }

  /** The net worth in `year` of a named strategy, run for `year` years. */
  function StrategyNetWorth(ext: Externals, inputs: CalculationInputs, year: int, strategy: StrategyTag): real {
    GetNetWorthAtYear(Simulate(ext, inputs.(strategy := strategy), Some(year)), year)
  }

  /** One grid point: run the split strategy at `ratio` for `year` years and read off that year. */
  method SplitRun(ext: Externals, inputs: CalculationInputs, year: int, ratio: real) returns (netWorth: real)
    ensures netWorth == SplitNetWorth(ext, inputs, year, ratio)
  {
    var results := CalculateStrategy(ext, inputs.(strategy := SplitTag, splitRatio := Some(ratio)), Some(year));
    netWorth := GetNetWorthAtYear(results, year);
  }

  /** A reference run of a named strategy for `year` years, read off at that year. */
  method StrategyRun(ext: Externals, inputs: CalculationInputs, year: int, strategy: StrategyTag) returns (netWorth: real)
    ensures netWorth == StrategyNetWorth(ext, inputs, year, strategy)
  {
    var results := CalculateStrategy(ext, inputs.(strategy := strategy), Some(year));
    netWorth := GetNetWorthAtYear(results, year);
  }

  datatype OptimalSplit = OptimalSplit(bestRatio: real, bestNetWorth: real, allOffsetNetWorth: real, allInvestmentNetWorth: real)

  /** Grid search over split ratios 0, step, 2 step, ... (capped at 1): the best net worth in
      `year`, the first ratio reaching it, and the two pure strategies for reference. */
  method FindOptimalSplit(ext: Externals, inputs: CalculationInputs, year: int, step: real) returns (r: OptimalSplit)
    ensures exists k :: FirstMaximum(GridNetWorths(ext, inputs, year, step, StepCount(step) + 1), k, r.bestNetWorth)
                        && r.bestRatio == GridRatio(step, k)
    ensures r.allOffsetNetWorth == StrategyNetWorth(ext, inputs, year, AllOffsetTag)
    ensures r.allInvestmentNetWorth == StrategyNetWorth(ext, inputs, year, AllInvestmentTag)
  {
    var bestRatio, bestNetWorth := ScanSplitGrid(ext, inputs, year, step);
    var allOffsetNetWorth := StrategyRun(ext, inputs, year, AllOffsetTag);
    var allInvestmentNetWorth := StrategyRun(ext, inputs, year, AllInvestmentTag);
    r := OptimalSplit(bestRatio, bestNetWorth, allOffsetNetWorth, allInvestmentNetWorth);
  }

  /** `best` is the maximum of `values` and `k` the first index holding it. */
  predicate FirstMaximum(values: seq<real>, k: int, best: real) {
    && 0 <= k < |values|
    && values[k] == best
    && (forall j :: 0 <= j < |values| ==> values[j] <= best)
    && (forall j :: 0 <= j < k ==> values[j] < best)
  }

  /** Appending a value to a scanned prefix: a strictly greater value takes over, anything
      else leaves the first maximum where it was. */
  lemma ExtendFirstMaximum(values: seq<real>, k: int, best: real, x: real)
    requires FirstMaximum(values, k, best)
    ensures x > best ==> FirstMaximum(values + [x], |values|, x)
    ensures x <= best ==> FirstMaximum(values + [x], k, best)
  {
  }

  /** The scan of `findOptimalSplit`: a strictly greater net worth replaces the best so far,
      so the first of equal maxima is kept. */
  method ScanSplitGrid(ext: Externals, inputs: CalculationInputs, year: int, step: real)
    returns (bestRatio: real, bestNetWorth: real)
    ensures exists k :: FirstMaximum(GridNetWorths(ext, inputs, year, step, StepCount(step) + 1), k, bestNetWorth)
                        && bestRatio == GridRatio(step, k)
  {
    var steps := StepCount(step);
    bestRatio := 0.0;
    var best: Option<real> := None;  // None stands for -Infinity
    ghost var bestIndex := 0;
    ghost var seen: seq<real> := [];
    var i := 0;
    while i <= steps
      invariant 0 <= i <= steps + 1
      invariant seen == GridNetWorths(ext, inputs, year, step, i)
      invariant i == 0 <==> best.None?
      invariant best.Some? ==> FirstMaximum(seen, bestIndex, best.value) && bestRatio == GridRatio(step, bestIndex)
    {
      var ratio, netWorth := GridPoint(ext, inputs, year, step, i);
      GridNetWorthsNext(ext, inputs, year, step, i, seen, netWorth);
      if best.Some? {
        ExtendFirstMaximum(seen, bestIndex, best.value, netWorth);
      }
      if best.None? || netWorth > best.value {
        best := Some(netWorth);
        bestRatio := ratio;
        bestIndex := i;
      }
      seen := seen + [netWorth];
      i := i + 1;
    }
    bestNetWorth := best.value;
    assert FirstMaximum(seen, bestIndex, bestNetWorth) && bestRatio == GridRatio(step, bestIndex);
  }

  /** Scanning one more grid point extends the scanned prefix by its net worth. */
  lemma GridNetWorthsNext(ext: Externals, inputs: CalculationInputs, year: int, step: real, i: nat,
                          seen: seq<real>, netWorth: real)
    requires seen == GridNetWorths(ext, inputs, year, step, i)
    requires netWorth == GridNetWorth(ext, inputs, year, step, i)
    ensures seen + [netWorth] == GridNetWorths(ext, inputs, year, step, i + 1)
  {
  }

  /** The i-th point of the grid: its ratio and the split strategy's net worth there. */
  method GridPoint(ext: Externals, inputs: CalculationInputs, year: int, step: real, i: int)
    returns (ratio: real, netWorth: real)
    ensures ratio == GridRatio(step, i)
    ensures netWorth == GridNetWorth(ext, inputs, year, step, i)
  {
    ratio := GridRatio(step, i);
    netWorth := SplitRun(ext, inputs, year, ratio);
  }

  /** The net worths of the first `n` grid points, in scan order. */
  ghost function GridNetWorths(ext: Externals, inputs: CalculationInputs, year: int, step: real, n: nat): (values: seq<real>)
    ensures |values| == n
  {
    if n == 0 then [] else GridNetWorths(ext, inputs, year, step, n - 1) + [GridNetWorth(ext, inputs, year, step, n - 1)]
  }

  lemma {:induction false} GridNetWorthsAt(ext: Externals, inputs: CalculationInputs, year: int, step: real, n: nat, j: nat)
    requires j < n
    ensures GridNetWorths(ext, inputs, year, step, n)[j] == GridNetWorth(ext, inputs, year, step, j)
  {
    var prefix := GridNetWorths(ext, inputs, year, step, n - 1);
    assert GridNetWorths(ext, inputs, year, step, n) == prefix + [GridNetWorth(ext, inputs, year, step, n - 1)];
    if j < n - 1 {
      GridNetWorthsAt(ext, inputs, year, step, n - 1, j);
      assert prefix[j] == GridNetWorth(ext, inputs, year, step, j);
    }
  }


}
