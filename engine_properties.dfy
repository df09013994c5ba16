/** What the simulation loop of src/utils/calculations.ts guarantees, proved about `Run`
    and hence about the records both drivers return. */
module EngineProperties {
  import opened Wrappers
  import opened Types
  import opened Shared
  import opened Strategies
  import opened Calculations

  /** The balance invariant of the three modelled strategies: the mortgage is not negative,
      the offset does not exceed it, and the all-investment strategy never uses the offset. */
  predicate BalancesSound(s: Strategy, state: StrategyState) {
    0.0 <= state.mortgageBalance
    && state.offsetBalance <= state.mortgageBalance
    && (s.AllInvestment? ==> state.offsetBalance == 0.0)
  }

  /** The unrealised gain of the investment. */
  function UnrealisedGain(state: StrategyState): real {
    state.investmentValue - state.investmentCostBasis
  }

  /** The sum of the capitalGains column. */
  function SumCapitalGains(results: seq<YearResult>): real {
    if |results| == 0 then 0.0
    else SumCapitalGains(results[..|results| - 1]) + results[|results| - 1].capitalGains
  }

  /** The mortgage half of a period keeps the balance invariant; the mortgage falls by exactly
      the principal paid, which is never negative; the clean-up moves money between offset and
      investment without touching the unrealised gain. */
  lemma SettleKeepsBalances(ext: Externals, setup: Setup, period: int, start: StrategyState)
    requires Modelled(setup.strategy) && BalancesSound(setup.strategy, start)
    ensures var settled := Settle(ext, setup, period, start);
      && BalancesSound(setup.strategy, settled.cleaned)
      && 0.0 <= settled.payment.principalPaid
      && settled.cleaned.mortgageBalance == start.mortgageBalance - settled.payment.principalPaid
      && UnrealisedGain(settled.cleaned) == UnrealisedGain(start)
  {
    var context := PeriodContext(setup, period, start);
    assert HandleYearStart(ext, setup.strategy, start, context) == start;
    var payment := PerPeriodPayment(setup.resolution, ProcessMortgagePayment(start, context));
    assert 0.0 <= payment.principalPaid <= start.mortgageBalance;
  }

  /** The investing half of a period keeps the balance invariant and the mortgage; the
      unrealised gain grows by exactly the period's capital gain, because contributions,
      dividends and freed-up payments raise value and cost basis alike. */
  lemma InvestKeepsBalances(ext: Externals, setup: Setup, period: int, start: StrategyState, settled: Settlement)
    requires Modelled(setup.strategy) && BalancesSound(setup.strategy, settled.cleaned)
    ensures var f := Invest(ext, setup, period, start, settled);
      && BalancesSound(setup.strategy, f.final)
      && f.final.mortgageBalance == settled.cleaned.mortgageBalance
      && UnrealisedGain(f.final) == UnrealisedGain(settled.cleaned) + f.growth.yearCapitalGain
  {
    var s3 := settled.cleaned;
    var resolution := setup.resolution;
    var context := PeriodContext(setup, period, start);
    var growth := PerPeriodGrowth(resolution, InvestmentGrowth(s3.investmentValue, setup.periodInputs));
    var s4 := s3.(investmentValue := s3.investmentValue + (growth.yearCapitalGain + growth.afterTaxDividends),
                  investmentCostBasis := s3.investmentCostBasis + growth.afterTaxDividends);
    var refund := TaxRefundFromInterest(setup.inputs, settled.payment.interestAccrued);
    var contribution := PerPeriod(resolution, setup.annualContribution) + refund;
    var raw := AllocateContributions(ext, setup.strategy, s4,
                                     context.(annualContribution := PerYear(resolution, contribution)));
    var allocation := PerPeriodAllocation(resolution, raw);
    assert s4.mortgageBalance > 0.0 ==> allocation.contributionToOffset <= s4.mortgageBalance - s4.offsetBalance;
    assert s4.mortgageBalance <= 0.0 ==> allocation.contributionToOffset == 0.0;
    assert setup.strategy.AllInvestment? ==> allocation.contributionToOffset == 0.0;
    assert Invest(ext, setup, period, start, settled).growth == growth;
  }

  /** One whole period of a modelled strategy. */
  lemma StepKeepsBalances(ext: Externals, setup: Setup, period: int, start: StrategyState)
    requires Modelled(setup.strategy) && BalancesSound(setup.strategy, start)
    ensures var f := Flows(ext, setup, period, start);
      && BalancesSound(setup.strategy, f.final)
      && 0.0 <= f.payment.principalPaid
      && f.final.mortgageBalance == start.mortgageBalance - f.payment.principalPaid
      && UnrealisedGain(f.final) == UnrealisedGain(start) + f.growth.yearCapitalGain
  {
    var settled := Settle(ext, setup, period, start);
    SettleKeepsBalances(ext, setup, period, start);
    InvestKeepsBalances(ext, setup, period, start, settled);
  }

  /** The state and totals after `n` periods are those of the n-th step. */
  lemma RunAfterStep(ext: Externals, setup: Setup, n: nat)
    requires n >= 1
    ensures Run(ext, setup, n).state == StepAt(ext, setup, n).state
    ensures Run(ext, setup, n).totals == StepAt(ext, setup, n).totals
    ensures Run(ext, setup, n).results == Run(ext, setup, n - 1).results + [StepAt(ext, setup, n).record]
  {
    assert Run(ext, setup, n) == Extend(ext, setup, n);
  }

  /** The k-th record of a run is the record of period k + 1, whatever the length of the run. */
  lemma {:induction false} RecordAt(ext: Externals, setup: Setup, n: nat, k: nat)
    requires k < n
    ensures Run(ext, setup, n).results[k] == StepAt(ext, setup, k + 1).record
  {
    RunAfterStep(ext, setup, n);
    var prior := Run(ext, setup, n - 1).results;
    var last := StepAt(ext, setup, n).record;
    assert Run(ext, setup, n).results[k] == if k < n - 1 then prior[k] else last by {
      assert |prior| == n - 1;
      assert Run(ext, setup, n).results == prior + [last];
    }
    if k < n - 1 {
      RecordAt(ext, setup, n - 1, k);
    }
  }

  /** A run is the prefix of every longer run. */
  lemma {:induction false} RunPrefix(ext: Externals, setup: Setup, n: nat, m: nat)
    requires m <= n
    ensures Run(ext, setup, n).results[..m] == Run(ext, setup, m).results
  {
    if m < n {
      RunAfterStep(ext, setup, n);
      RunPrefix(ext, setup, n - 1, m);
      assert Run(ext, setup, n).results[..m] == Run(ext, setup, n - 1).results[..m];
    }
  }

  /** The state after a period and its record agree on the closing balances. */
  lemma StepRecordBalances(ext: Externals, setup: Setup, n: nat)
    requires n >= 1
    ensures var step := StepAt(ext, setup, n);
      && step.record.mortgageBalance == step.state.mortgageBalance
      && step.record.offsetBalance == step.state.offsetBalance
      && step.record.investmentValue == step.state.investmentValue
      && step.record.investmentTotalInvested == step.state.investmentCostBasis
      && step.record.previousMortgageBalance == Run(ext, setup, n - 1).state.mortgageBalance
      && step.record.capitalGains == Flows(ext, setup, n, Run(ext, setup, n - 1).state).growth.yearCapitalGain
  {
  }

  /** The loop invariant of a modelled strategy: after every period the balances are sound,
      and the unrealised gain equals the cumulative capital gain, which is the sum of the
      capitalGains column. */
  lemma {:induction false} RunKeepsBalances(ext: Externals, setup: Setup, n: nat)
    requires Modelled(setup.strategy) && 0.0 <= setup.inputs.mortgageBalance
    ensures BalancesSound(setup.strategy, Run(ext, setup, n).state)
    ensures UnrealisedGain(Run(ext, setup, n).state) == Run(ext, setup, n).totals.cumulativeCapitalGain
    ensures Run(ext, setup, n).totals.cumulativeCapitalGain == SumCapitalGains(Run(ext, setup, n).results)
  {
    if n == 0 {
      var a := AllocateInitialAmount(ext, setup.strategy, setup.inputs.initialAmount, setup.inputs.mortgageBalance);
      assert Run(ext, setup, 0).state == InitialState(ext, setup);
    } else {
      RunKeepsBalances(ext, setup, n - 1);
      var prev := Run(ext, setup, n - 1);
      StepKeepsBalances(ext, setup, n, prev.state);
      RunAfterStep(ext, setup, n);
      StepRecordBalances(ext, setup, n);
      var results := Run(ext, setup, n).results;
      assert results[..|results| - 1] == prev.results;
    }
  }

  /** The record of period n: the closing balance is the opening balance less the principal
      paid, which is not negative; the closing balance is not negative and the offset does not
      exceed it. */
  lemma StepMortgage(ext: Externals, setup: Setup, n: nat)
    requires Modelled(setup.strategy) && 0.0 <= setup.inputs.mortgageBalance && n >= 1
    ensures var r := StepAt(ext, setup, n).record;
      && r.mortgageBalance == r.previousMortgageBalance - r.principalPaid
      && 0.0 <= r.principalPaid
      && 0.0 <= r.mortgageBalance
      && r.offsetBalance <= r.mortgageBalance
      && r.previousMortgageBalance == Run(ext, setup, n - 1).state.mortgageBalance
  {
    RunKeepsBalances(ext, setup, n - 1);
    StepKeepsBalances(ext, setup, n, Run(ext, setup, n - 1).state);
    StepRecordBalances(ext, setup, n);
  }

  /** Every record of a modelled strategy keeps the mortgage bookkeeping of `StepMortgage`,
      and each record opens where the previous one closed. */
  lemma MortgageRecords(ext: Externals, setup: Setup, n: nat, k: nat)
    requires Modelled(setup.strategy) && 0.0 <= setup.inputs.mortgageBalance && k < n
    ensures var r := Run(ext, setup, n).results[k];
      && r.mortgageBalance == r.previousMortgageBalance - r.principalPaid
      && 0.0 <= r.principalPaid
      && 0.0 <= r.mortgageBalance
      && r.offsetBalance <= r.mortgageBalance
      && r.previousMortgageBalance
           == if k == 0 then setup.inputs.mortgageBalance else Run(ext, setup, n).results[k - 1].mortgageBalance
  {
    RecordAt(ext, setup, n, k);
    StepMortgage(ext, setup, k + 1);
    if k == 0 {
      assert Run(ext, setup, 0).state == InitialState(ext, setup);
    } else {
      RecordAt(ext, setup, n, k - 1);
      RunAfterStep(ext, setup, k);
      StepRecordBalances(ext, setup, k);
    }
  }

  /** The mortgage balance never rises from one record to the next. */
  lemma MortgageNeverIncreases(ext: Externals, setup: Setup, n: nat, k: nat)
    requires Modelled(setup.strategy) && 0.0 <= setup.inputs.mortgageBalance && k + 1 < n
    ensures Run(ext, setup, n).results[k + 1].mortgageBalance <= Run(ext, setup, n).results[k].mortgageBalance
  {
    MortgageRecords(ext, setup, n, k + 1);
  }

  /** The records of `calculateStrategy`: the loan balance falls monotonically and the offset
      stays within it, for the three modelled strategies. */
  lemma YearlyBalances(ext: Externals, inputs: CalculationInputs, maxYears: Option<int>)
    requires Modelled(GetStrategy(inputs)) && 0.0 <= inputs.mortgageBalance
    ensures var results := Simulate(ext, inputs, maxYears);
      && (forall k :: 0 <= k < |results| ==>
            0.0 <= results[k].mortgageBalance && results[k].offsetBalance <= results[k].mortgageBalance)
      && (forall k :: 0 < k < |results| ==> results[k].mortgageBalance <= results[k - 1].mortgageBalance)
  {
    var setup := AnnualSetup(ext, inputs);
    var n := YearCount(inputs, maxYears);
    forall k | 0 <= k < n
      ensures 0.0 <= Run(ext, setup, n).results[k].mortgageBalance
      ensures Run(ext, setup, n).results[k].offsetBalance <= Run(ext, setup, n).results[k].mortgageBalance
      ensures k > 0 ==> Run(ext, setup, n).results[k].mortgageBalance <= Run(ext, setup, n).results[k - 1].mortgageBalance
    {
      MortgageRecords(ext, setup, n, k);
    }
  }

  /** Every record carries the year its period falls in: 1, 2, ... for the yearly loop and
      ceil(month / 12) for the monthly one. */
  lemma RecordYear(ext: Externals, setup: Setup, n: nat, k: nat)
    requires k < n
    ensures Run(ext, setup, n).results[k].year == PeriodYear(setup.resolution, k + 1)
  {
    RecordAt(ext, setup, n, k);
  }

  /** `calculateStrategy` labels its records 1, 2, ..., N in order. */
  lemma YearlyLabels(ext: Externals, inputs: CalculationInputs, maxYears: Option<int>)
    ensures var results := Simulate(ext, inputs, maxYears);
      forall k :: 0 <= k < |results| ==> results[k].year == k + 1
  {
    var setup := AnnualSetup(ext, inputs);
    var n := YearCount(inputs, maxYears);
    forall k | 0 <= k < n
      ensures Run(ext, setup, n).results[k].year == k + 1
    {
      RecordYear(ext, setup, n, k);
    }
  }

  /** `calculateStrategyMonthly` numbers its records 1, 2, ..., 12 N and gives month m the
      year ceil(m / 12). */
  lemma MonthlyLabels(ext: Externals, inputs: CalculationInputs, maxYears: Option<int>)
    ensures var months := SimulateMonthly(ext, inputs, maxYears);
      && |months| == 12 * YearCount(inputs, maxYears)
      && forall k :: 0 <= k < |months| ==>
           months[k].month == k + 1 && 12 * (months[k].fields.year - 1) < months[k].month <= 12 * months[k].fields.year
  {
    var setup := MonthlySetup(ext, inputs);
    var n := 12 * YearCount(inputs, maxYears);
    forall k | 0 <= k < n
      ensures Run(ext, setup, n).results[k].year == PeriodYear(Monthly, k + 1)
    {
      RecordYear(ext, setup, n, k);
    }
  }

  /** Every scheduled payment of a modelled strategy is accounted for: while the loan is open
      it is split between the mortgage and the investment, and once the loan is gone all of
      it is invested. */
  lemma {:induction false} PaymentBudget(ext: Externals, setup: Setup, n: nat)
    requires Modelled(setup.strategy) && 0.0 <= setup.inputs.mortgageBalance && 0.0 <= setup.mortgagePayment
    ensures var t := Run(ext, setup, n).totals;
      t.actualMortgagePaymentsTotal + t.freedUpMortgagePaymentsTotal == t.cumulativeMortgagePayments
  {
    if n == 0 {
      assert Run(ext, setup, 0).totals == NoTotals;
    } else {
      PaymentBudget(ext, setup, n - 1);
      RunKeepsBalances(ext, setup, n - 1);
      RunAfterStep(ext, setup, n);
      var start := Run(ext, setup, n - 1).state;
      var context := PeriodContext(setup, n, start);
      assert HandleYearStart(ext, setup.strategy, start, context) == start;
      var raw := ProcessMortgagePayment(start, context);
      assert raw.freedUpFromMortgagePayment >= 0.0;
      assert Settle(ext, setup, n, start).payment == PerPeriodPayment(setup.resolution, raw);
    }
  }

  /** The refund of a period: zero unless the property is an investment, otherwise the
      interest accrued times the personal tax rate; with a contribution that is not negative, a
      positive refund makes the period's contribution positive and the contribution is divided
      completely between offset and investment. */
  lemma FlowsRefund(ext: Externals, setup: Setup, period: int, start: StrategyState)
    requires Modelled(setup.strategy) && 0.0 <= setup.annualContribution
    ensures var f := Flows(ext, setup, period, start);
      && f.taxRefundFromInterest == TaxRefundFromInterest(setup.inputs, f.payment.interestAccrued)
      && (f.taxRefundFromInterest > 0.0 ==> f.contributionWithTaxRefund > 0.0)
      && f.allocation.contributionToOffset + f.allocation.contributionToInvestment == f.contributionWithTaxRefund
  {
    var settled := Settle(ext, setup, period, start);
    var s3 := settled.cleaned;
    var resolution := setup.resolution;
    var context := PeriodContext(setup, period, start);
    var growth := PerPeriodGrowth(resolution, InvestmentGrowth(s3.investmentValue, setup.periodInputs));
    var s4 := s3.(investmentValue := s3.investmentValue + (growth.yearCapitalGain + growth.afterTaxDividends),
                  investmentCostBasis := s3.investmentCostBasis + growth.afterTaxDividends);
    var refund := TaxRefundFromInterest(setup.inputs, settled.payment.interestAccrued);
    var contribution := PerPeriod(resolution, setup.annualContribution) + refund;
    var raw := AllocateContributions(ext, setup.strategy, s4,
                                     context.(annualContribution := PerYear(resolution, contribution)));
    assert Flows(ext, setup, period, start).allocation == PerPeriodAllocation(resolution, raw);
  }

  /** The refund columns of a record: zero unless the property is an investment, otherwise
      the interest times the personal tax rate; a positive refund is divided completely
      between offset and investment. */
  predicate RefundColumnsSound(inputs: CalculationInputs, r: YearResult) {
    && (!inputs.isInvestmentProperty ==>
          r.taxRefundFromInterest == 0.0 && r.taxRefundToOffset == 0.0 && r.taxRefundToInvestment == 0.0)
    && (inputs.isInvestmentProperty ==> r.taxRefundFromInterest == r.mortgageInterest * inputs.personalTaxRate)
    && (r.taxRefundFromInterest > 0.0 ==> r.taxRefundToOffset + r.taxRefundToInvestment == r.taxRefundFromInterest)
  }

  /** Every record of a modelled strategy has sound refund columns, provided the regular
      contribution is not negative. */
  lemma RefundRecords(ext: Externals, setup: Setup, n: nat, k: nat)
    requires Modelled(setup.strategy) && 0.0 <= setup.annualContribution && k < n
    ensures RefundColumnsSound(setup.inputs, Run(ext, setup, n).results[k])
  {
    RecordAt(ext, setup, n, k);
    var prev := Run(ext, setup, k);
    var f := Flows(ext, setup, k + 1, prev.state);
    FlowsRefund(ext, setup, k + 1, prev.state);
    assert StepAt(ext, setup, k + 1).record == PeriodRecord(setup, k + 1, f, NextTotals(setup, prev.totals, f));
    RecordRefund(setup, k + 1, f, NextTotals(setup, prev.totals, f));
  }

  /** The refund columns of a record follow from the period's flows. */
  lemma RecordRefund(setup: Setup, period: int, f: PeriodFlows, acc: Accumulators)
    requires f.taxRefundFromInterest == TaxRefundFromInterest(setup.inputs, f.payment.interestAccrued)
    requires f.taxRefundFromInterest > 0.0 ==> f.contributionWithTaxRefund > 0.0
    requires f.allocation.contributionToOffset + f.allocation.contributionToInvestment == f.contributionWithTaxRefund
    ensures RefundColumnsSound(setup.inputs, PeriodRecord(setup, period, f, acc))
  {
  }

  /** With no capital growth there is never capital-gains tax: the unrealised gain stays zero. */
  lemma {:induction false} ZeroReturnNoGain(ext: Externals, setup: Setup, n: nat)
    requires setup.periodInputs.investmentReturnRate == 0.0
    ensures Run(ext, setup, n).totals.cumulativeCapitalGain == 0.0
  {
    if n > 0 {
      ZeroReturnNoGain(ext, setup, n - 1);
      RunAfterStep(ext, setup, n);
      var start := Run(ext, setup, n - 1).state;
      var settled := Settle(ext, setup, n, start);
      assert Flows(ext, setup, n, start).growth
          == PerPeriodGrowth(setup.resolution, InvestmentGrowth(settled.cleaned.investmentValue, setup.periodInputs));
    }
  }

  /** A zero return rate means no capital gain and no capital-gains tax in any record. */
  lemma ZeroReturnNoCapitalGainsTax(ext: Externals, setup: Setup, n: nat, k: nat)
    requires Modelled(setup.strategy) && 0.0 <= setup.inputs.mortgageBalance && k < n
    requires setup.periodInputs.investmentReturnRate == 0.0
    ensures Run(ext, setup, n).results[k].capitalGainsTax == 0.0
  {
    RecordAt(ext, setup, n, k);
    ZeroReturnNoGain(ext, setup, k + 1);
    RunKeepsBalances(ext, setup, k + 1);
    RunAfterStep(ext, setup, k + 1);
  }

  /** With no lump sum and no loan, every modelled strategy starts with nothing. */
  lemma EmptyStart(ext: Externals, setup: Setup)
    requires Modelled(setup.strategy) && setup.inputs.initialAmount == 0.0 && setup.inputs.mortgageBalance == 0.0
    ensures InitialState(ext, setup) == StrategyState(0.0, 0.0, 0.0, 0.0, 0.0)
  {
    var a := AllocateInitialAmount(ext, setup.strategy, 0.0, 0.0);
    match setup.strategy {
      case AllOffset =>
        assert a == AllOffsetStrategy.AllocateInitialAmount(0.0, 0.0);
      case Split(ratio) =>
        assert a == SplitStrategy.AllocateInitialAmount(0.0, 0.0, ratio);
      case AllInvestment =>
    }
  }

  /** From nothing, with no loan payment, a period earns nothing and ends holding exactly the
      period's contribution, all of it invested. */
  lemma EmptyPeriod(ext: Externals, setup: Setup, period: int)
    requires Modelled(setup.strategy) && setup.mortgagePayment == 0.0 && 0.0 <= setup.annualContribution
    ensures var f := Flows(ext, setup, period, StrategyState(0.0, 0.0, 0.0, 0.0, 0.0));
      && f.cleaned.investmentValue == 0.0
      && f.growth.yearCapitalGain == 0.0
      && f.final.investmentValue == PerPeriod(setup.resolution, setup.annualContribution)
  {
    var start := StrategyState(0.0, 0.0, 0.0, 0.0, 0.0);
    var context := PeriodContext(setup, period, start);
    assert HandleYearStart(ext, setup.strategy, start, context) == start;
    var raw := ProcessMortgagePayment(start, context);
    assert raw.interestAccrued == 0.0 && raw.freedUpFromMortgagePayment == 0.0 && raw.principalPaid == 0.0;
    var s2 := ApplyMortgagePayment(start, PerPeriodPayment(setup.resolution, raw));
    assert s2 == start;
    match setup.strategy {
      case AllOffset =>
        assert HandleMortgagePayoff(ext, setup.strategy, s2) == AllOffsetStrategy.HandleMortgagePayoff(s2);
        assert HandleExcessOffset(ext, setup.strategy, s2) == AllOffsetStrategy.HandleExcessOffset(s2);
      case Split(_) =>
        assert HandleExcessOffset(ext, setup.strategy, s2) == SplitStrategy.HandleExcessOffset(s2);
      case AllInvestment =>
    }
    var settled := Settle(ext, setup, period, start);
    assert settled.cleaned == start;
    assert settled.payment.interestAccrued == 0.0 && settled.payment.freedUpFromMortgagePayment == 0.0;
    var growth := PerPeriodGrowth(setup.resolution, InvestmentGrowth(0.0, setup.periodInputs));
    var contribution := PerPeriod(setup.resolution, setup.annualContribution);
    var raw2 := AllocateContributions(ext, setup.strategy, start,
                                      context.(annualContribution := PerYear(setup.resolution, contribution)));
    assert raw2.contributionToOffset == 0.0;
  }

  /** The first period's record from nothing: no loan payment, no lump sum and no loan. */
  lemma FirstPeriodRecord(ext: Externals, setup: Setup)
    requires Modelled(setup.strategy) && setup.inputs.initialAmount == 0.0 && setup.inputs.mortgageBalance == 0.0
    requires setup.mortgagePayment == 0.0 && 0.0 <= setup.annualContribution
    ensures var r := StepAt(ext, setup, 1).record;
      && r.previousInvestmentValue == 0.0
      && r.capitalGains == 0.0
      && r.investmentValue == PerPeriod(setup.resolution, setup.annualContribution)
  {
    var prev := Run(ext, setup, 0);
    assert prev.state == InitialState(ext, setup);
    EmptyStart(ext, setup);
    EmptyPeriod(ext, setup, 1);
    var f := Flows(ext, setup, 1, prev.state);
    assert StepAt(ext, setup, 1).record == PeriodRecord(setup, 1, f, NextTotals(setup, prev.totals, f));
  }

  /** Growth is taken before the year's contributions: starting from nothing, with no loan,
      the first year earns nothing and ends holding exactly the year's contributions. */
  lemma FirstYearHoldsContributions(ext: Externals, inputs: CalculationInputs, maxYears: Option<int>)
    requires inputs.initialAmount == 0.0 && inputs.mortgageBalance == 0.0 && inputs.weeklyContribution >= 0.0
    requires Modelled(GetStrategy(inputs)) && YearCount(inputs, maxYears) >= 1
    ensures var r := Simulate(ext, inputs, maxYears)[0];
      && r.previousInvestmentValue == 0.0
      && r.capitalGains == 0.0
      && r.investmentValue == inputs.weeklyContribution * 52.0
  {
    var setup := AnnualSetup(ext, inputs);
    assert Simulate(ext, inputs, maxYears)[0] == StepAt(ext, setup, 1).record by {
      RecordAt(ext, setup, YearCount(inputs, maxYears), 0);
    }
    assert setup.mortgagePayment == 0.0 && setup.annualContribution == inputs.weeklyContribution * 52.0;
    FirstPeriodRecord(ext, setup);
  }
}
