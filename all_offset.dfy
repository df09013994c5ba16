/** The "all into the offset account" strategy: src/utils/strategies/allOffset.ts.
    Money goes to the offset until it covers the mortgage; only the overflow is invested. */
module AllOffsetStrategy {
  import opened Wrappers
  import opened Types

  /** The lump sum fills the offset up to the balance; the rest is invested. */
  function AllocateInitialAmount(initialAmount: real, mortgageBalance: real): (a: InitialAllocation)
    ensures initialAmount >= 0.0 ==> a.offsetAllocation + a.investmentAllocation == initialAmount
    ensures a.offsetAllocation <= mortgageBalance && a.offsetAllocation <= initialAmount
    ensures a.investmentAllocation >= 0.0
    ensures initialAmount <= mortgageBalance ==> a == InitialAllocation(initialAmount, 0.0)
    ensures initialAmount > mortgageBalance >= 0.0 ==>
              a == InitialAllocation(mortgageBalance, initialAmount - mortgageBalance)
  {
    var offsetAllocation := Min(initialAmount, mortgageBalance);
    InitialAllocation(offsetAllocation, Max(0.0, initialAmount - offsetAllocation))
  }

  /** The period's contribution tops the offset up to the balance; the overflow is invested.
      After payoff (or with nothing to place) everything is invested. */
  function AllocateContributions(state: StrategyState, context: StrategyContext): (c: ContributionAllocation)
    ensures c.contributionToOffset + c.contributionToInvestment == context.annualContribution
    ensures context.mortgagePaidOff || state.mortgageBalance <= 0.0 ==> c.contributionToOffset == 0.0
    ensures context.annualContribution == 0.0 ==> c.contributionToOffset == 0.0
    ensures !context.mortgagePaidOff && state.mortgageBalance > 0.0 && state.offsetBalance <= state.mortgageBalance ==>
              c.contributionToOffset <= state.mortgageBalance - state.offsetBalance
    ensures state.offsetBalance <= state.mortgageBalance && context.annualContribution >= 0.0 ==>
              0.0 <= c.contributionToOffset && c.contributionToInvestment >= 0.0
    ensures !context.mortgagePaidOff && state.mortgageBalance > 0.0
            && state.offsetBalance + context.annualContribution <= state.mortgageBalance ==>
              c.contributionToInvestment == 0.0
    ensures !context.mortgagePaidOff && state.mortgageBalance > 0.0 && context.annualContribution != 0.0 ==>
              c.contributionToOffset == Min(context.annualContribution, state.mortgageBalance - state.offsetBalance)
  {
    if context.mortgagePaidOff || context.annualContribution == 0.0 then
      ContributionAllocation(0.0, context.annualContribution)
    else if state.mortgageBalance > 0.0 then
      var toOffset := Min(context.annualContribution, state.mortgageBalance - state.offsetBalance);
      ContributionAllocation(toOffset, context.annualContribution - toOffset)
    else
      ContributionAllocation(0.0, context.annualContribution)
  }

  /** Once the balance is exactly zero the whole offset moves into the investment at cost. */
  function HandleMortgagePayoff(state: StrategyState): (s: StrategyState)
    ensures s.offsetBalance + s.investmentValue == state.offsetBalance + state.investmentValue
    ensures s.investmentValue - s.investmentCostBasis == state.investmentValue - state.investmentCostBasis
    ensures s.mortgageBalance == state.mortgageBalance && s.offsetTotalInvested == state.offsetTotalInvested
    ensures state.mortgageBalance == 0.0 ==> s.offsetBalance == Min(0.0, state.offsetBalance)
    ensures state.mortgageBalance != 0.0 || state.offsetBalance <= 0.0 ==> s == state
  {
    if state.mortgageBalance == 0.0 && state.offsetBalance > 0.0 then
      state.(offsetBalance := 0.0,
             investmentValue := state.investmentValue + state.offsetBalance,
             investmentCostBasis := state.investmentCostBasis + state.offsetBalance)
    else state
  }

  /** An offset larger than the balance is trimmed to it; the excess is invested at cost. */
  function HandleExcessOffset(state: StrategyState): (s: StrategyState)
    ensures state.offsetBalance <= state.mortgageBalance ==> s == state
    ensures s.offsetBalance == Min(state.offsetBalance, state.mortgageBalance)
    ensures s.offsetBalance + s.investmentValue == state.offsetBalance + state.investmentValue
    ensures s.investmentValue - s.investmentCostBasis == state.investmentValue - state.investmentCostBasis
    ensures s.mortgageBalance == state.mortgageBalance && s.offsetTotalInvested == state.offsetTotalInvested
  {
    if state.offsetBalance > state.mortgageBalance then
      var excess := state.offsetBalance - state.mortgageBalance;
      state.(offsetBalance := state.mortgageBalance,
             investmentValue := state.investmentValue + excess,
             investmentCostBasis := state.investmentCostBasis + excess)
    else state
  }

  /** Trimming an offset that no longer exceeds the balance changes nothing. */
  lemma HandleExcessOffsetIdempotent(state: StrategyState)
    ensures HandleExcessOffset(HandleExcessOffset(state)) == HandleExcessOffset(state)
  {
  }

  /** After both housekeeping steps the offset never exceeds a non-negative balance. */
  lemma HousekeepingBoundsOffset(state: StrategyState)
    requires state.mortgageBalance >= 0.0
    ensures HandleExcessOffset(HandleMortgagePayoff(state)).offsetBalance <= state.mortgageBalance
  {
  }
}
