/** The "all into investments" strategy: src/utils/strategies/allInvestment.ts.
    The offset account is never used. */
module AllInvestmentStrategy {
  import opened Types

  /** The whole lump sum is invested. */
  function AllocateInitialAmount(initialAmount: real, mortgageBalance: real): (a: InitialAllocation)
    ensures a.offsetAllocation == 0.0 && a.investmentAllocation == initialAmount
  {
    InitialAllocation(0.0, initialAmount)
  }

  /** The whole contribution is invested. */
  function AllocateContributions(state: StrategyState, context: StrategyContext): (c: ContributionAllocation)
    ensures c.contributionToOffset == 0.0 && c.contributionToInvestment == context.annualContribution
  {
    ContributionAllocation(0.0, context.annualContribution)
  }

  /** Nothing to move at payoff. */
  function HandleMortgagePayoff(state: StrategyState): (s: StrategyState)
    ensures s == state
  {
    state
  }

  /** Nothing to trim: the offset stays empty. */
  function HandleExcessOffset(state: StrategyState): (s: StrategyState)
    ensures s == state
  {
    state
  }
}
