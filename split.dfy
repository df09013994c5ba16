/** The split strategy: src/utils/strategies/split.ts. A fixed share of every dollar goes to
    the offset (never beyond the balance), the rest is invested. */
module SplitStrategy {
  import opened Wrappers
  import opened Types

  /** The offset gets `splitRatio` of the lump sum, capped at the balance; the investment the rest. */
  function AllocateInitialAmount(initialAmount: real, mortgageBalance: real, splitRatio: real): (a: InitialAllocation)
    ensures a.offsetAllocation + a.investmentAllocation == initialAmount
    ensures a.offsetAllocation <= mortgageBalance && a.offsetAllocation <= initialAmount * splitRatio
    ensures initialAmount * splitRatio <= mortgageBalance ==> a.offsetAllocation == initialAmount * splitRatio
    ensures initialAmount * splitRatio > mortgageBalance ==> a.offsetAllocation == mortgageBalance
    ensures initialAmount >= 0.0 && 0.0 <= splitRatio <= 1.0 && mortgageBalance >= 0.0 ==>
              0.0 <= a.offsetAllocation && 0.0 <= a.investmentAllocation
  {
    var maxOffset := Min(initialAmount * splitRatio, mortgageBalance);
    assert initialAmount >= 0.0 && 0.0 <= splitRatio <= 1.0 ==> 0.0 <= initialAmount * splitRatio <= initialAmount by {
      if initialAmount >= 0.0 && 0.0 <= splitRatio <= 1.0 { ScaleBounds(initialAmount, splitRatio); }
    }
    InitialAllocation(maxOffset, initialAmount - maxOffset)
  }

  /** The contribution is split by `splitRatio`, the offset share capped by the room left
      under the balance. After payoff (or with nothing to place) everything is invested. */
  function AllocateContributions(state: StrategyState, context: StrategyContext, splitRatio: real): (c: ContributionAllocation)
    ensures c.contributionToOffset + c.contributionToInvestment == context.annualContribution
    ensures context.mortgagePaidOff || state.mortgageBalance <= 0.0 ==> c.contributionToOffset == 0.0
    ensures context.annualContribution == 0.0 ==> c.contributionToOffset == 0.0
    ensures !context.mortgagePaidOff && state.mortgageBalance > 0.0 ==>
              c.contributionToOffset <= Max(0.0, state.mortgageBalance - state.offsetBalance)
    ensures !context.mortgagePaidOff && state.mortgageBalance > 0.0 && context.annualContribution != 0.0 ==>
              c.contributionToOffset <= context.annualContribution * splitRatio
    ensures context.annualContribution >= 0.0 && 0.0 <= splitRatio <= 1.0 ==>
              0.0 <= c.contributionToOffset && 0.0 <= c.contributionToInvestment
    ensures !context.mortgagePaidOff && state.mortgageBalance > 0.0 && context.annualContribution != 0.0 ==>
              c.contributionToOffset
              == Min(context.annualContribution * splitRatio, Max(0.0, state.mortgageBalance - state.offsetBalance))
  {
    var contribution := context.annualContribution;
    if context.mortgagePaidOff || contribution == 0.0 then
      ContributionAllocation(0.0, contribution)
    else if state.mortgageBalance > 0.0 then
      var share := contribution * splitRatio;
      assert contribution >= 0.0 && 0.0 <= splitRatio <= 1.0 ==> 0.0 <= share <= contribution by {
        if contribution >= 0.0 && 0.0 <= splitRatio <= 1.0 {
          ScaleBounds(contribution, splitRatio);
        }
      }
      var maxOffsetSpace := Max(0.0, state.mortgageBalance - state.offsetBalance);
      var toOffset := Min(share, maxOffsetSpace);
      ContributionAllocation(toOffset, contribution - toOffset)
    else
      ContributionAllocation(0.0, contribution)
  }

  /** The split strategy leaves the offset in place at payoff. */
  function HandleMortgagePayoff(state: StrategyState): (s: StrategyState)
    ensures s == state
  {
    state
  }

  /** An offset larger than the balance is trimmed to it; the excess is invested at cost. */
  function HandleExcessOffset(state: StrategyState): (s: StrategyState)
    ensures state.offsetBalance <= state.mortgageBalance ==> s == state
    ensures s.offsetBalance == Min(state.offsetBalance, state.mortgageBalance)
    ensures s.offsetBalance + s.investmentValue == state.offsetBalance + state.investmentValue
    ensures s.investmentValue - s.investmentCostBasis == state.investmentValue - state.investmentCostBasis
    ensures s.mortgageBalance == state.mortgageBalance && s.offsetTotalInvested == state.offsetTotalInvested
  {
    if state.offsetBalance > state.mortgageBalance then
      var excess := state.offsetBalance - state.mortgageBalance;
      state.(offsetBalance := state.mortgageBalance,
             investmentValue := state.investmentValue + excess,
             investmentCostBasis := state.investmentCostBasis + excess)
    else state
  }
}
