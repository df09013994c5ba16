/** The strategy tag dispatch: src/utils/strategies/index.ts. A tag string selects one of five
    allocation strategies; the split ratio and switch year are fixed when the strategy is built. */
module Strategies {
  import opened Wrappers
  import opened Types
  import Shared
  import AllOffsetStrategy
  import AllInvestmentStrategy
  import SplitStrategy

  /** A built strategy: the tag together with the parameters its closures captured. */
  datatype Strategy =
    | AllOffset
    | AllInvestment
    | OffsetThenInvestment(switchYears: int)
    | OffsetThenInvestmentMove(switchYears: int)
    | Split(ratio: real)

  /** The two offset-then-invest modules are not part of this model: their functions are
      parameters of the engine, with the shapes the dispatch gives them. */
  datatype UnseenStrategy = UnseenStrategy(
    allocateInitialAmount: (real, real) -> InitialAllocation,
    allocateContributions: (StrategyState, StrategyContext, int) -> ContributionAllocation,
    handleMortgagePayoff: StrategyState -> StrategyState,
    handleExcessOffset: StrategyState -> StrategyState)

  /** Everything the engine calls but this model does not define: `Math.pow`, both unseen
      strategy modules, and the year-start hook only the "move" variant supplies. */
  datatype Externals = Externals(
    pow: Shared.Pow,
    offsetThenInvestment: UnseenStrategy,
    offsetThenInvestmentMove: UnseenStrategy,
    moveYearStart: (StrategyState, StrategyContext, int) -> StrategyState)

  const DefaultSplitRatio: real := 0.5
  const DefaultSwitchYears: int := 5

  /** The strategies whose rules are part of this model. */
  predicate Modelled(s: Strategy) {
    s.AllOffset? || s.AllInvestment? || s.Split?
  }

  /** Each tag selects its own strategy; missing parameters default to a ratio of one half and
      a switch after five years. */
  function GetStrategy(inputs: CalculationInputs): (s: Strategy)
    ensures s.AllOffset? <==> inputs.strategy.AllOffsetTag?
    ensures s.AllInvestment? <==> inputs.strategy.AllInvestmentTag?
    ensures s.OffsetThenInvestment? <==> inputs.strategy.OffsetThenInvestmentTag?
    ensures s.OffsetThenInvestmentMove? <==> inputs.strategy.OffsetThenInvestmentMoveTag?
    ensures s.Split? <==> inputs.strategy.SplitTag?
    ensures s.OffsetThenInvestment? || s.OffsetThenInvestmentMove? ==>
              s.switchYears == (if inputs.switchYears.Some? then inputs.switchYears.value else DefaultSwitchYears)
    ensures s.Split? ==> s.ratio == (if inputs.splitRatio.Some? then inputs.splitRatio.value else DefaultSplitRatio)
  {
    match inputs.strategy
    case AllOffsetTag => AllOffset
    case AllInvestmentTag => AllInvestment
    case OffsetThenInvestmentTag => OffsetThenInvestment(inputs.switchYears.GetOr(DefaultSwitchYears))
    case OffsetThenInvestmentMoveTag => OffsetThenInvestmentMove(inputs.switchYears.GetOr(DefaultSwitchYears))
    case SplitTag => Split(inputs.splitRatio.GetOr(DefaultSplitRatio))
  }

  /** Only the "move" variant has a year-start hook; for the others the loop skips the step. */
  predicate HasYearStart(s: Strategy) {
    s.OffsetThenInvestmentMove?
  }

  function HandleYearStart(ext: Externals, s: Strategy, state: StrategyState, context: StrategyContext): (r: StrategyState)
    ensures !HasYearStart(s) ==> r == state
  {
    match s
    case OffsetThenInvestmentMove(switchYears) => ext.moveYearStart(state, context, switchYears)
    case _ => state
  }

  function AllocateInitialAmount(ext: Externals, s: Strategy, initialAmount: real, mortgageBalance: real): (a: InitialAllocation)
    ensures Modelled(s) && initialAmount >= 0.0 ==> a.offsetAllocation + a.investmentAllocation == initialAmount
    ensures (s.AllOffset? || s.Split?) ==> a.offsetAllocation <= mortgageBalance
    ensures s.AllInvestment? ==> a.offsetAllocation == 0.0
  {
    match s
    case AllOffset => AllOffsetStrategy.AllocateInitialAmount(initialAmount, mortgageBalance)
    case AllInvestment => AllInvestmentStrategy.AllocateInitialAmount(initialAmount, mortgageBalance)
    case OffsetThenInvestment(_) => ext.offsetThenInvestment.allocateInitialAmount(initialAmount, mortgageBalance)
    case OffsetThenInvestmentMove(_) => ext.offsetThenInvestmentMove.allocateInitialAmount(initialAmount, mortgageBalance)
    case Split(ratio) => SplitStrategy.AllocateInitialAmount(initialAmount, mortgageBalance, ratio)
  }

  function AllocateContributions(ext: Externals, s: Strategy, state: StrategyState, context: StrategyContext): (c: ContributionAllocation)
    ensures Modelled(s) ==> c.contributionToOffset + c.contributionToInvestment == context.annualContribution
    ensures Modelled(s) && (context.mortgagePaidOff || state.mortgageBalance <= 0.0) ==> c.contributionToOffset == 0.0
    ensures s.AllInvestment? ==> c.contributionToOffset == 0.0
    ensures Modelled(s) && state.offsetBalance <= state.mortgageBalance && state.mortgageBalance > 0.0 ==>
              c.contributionToOffset <= state.mortgageBalance - state.offsetBalance
  {
    match s
    case AllOffset => AllOffsetStrategy.AllocateContributions(state, context)
    case AllInvestment => AllInvestmentStrategy.AllocateContributions(state, context)
    case OffsetThenInvestment(switchYears) => ext.offsetThenInvestment.allocateContributions(state, context, switchYears)
    case OffsetThenInvestmentMove(switchYears) => ext.offsetThenInvestmentMove.allocateContributions(state, context, switchYears)
    case Split(ratio) => SplitStrategy.AllocateContributions(state, context, ratio)
  }

  function HandleMortgagePayoff(ext: Externals, s: Strategy, state: StrategyState): (r: StrategyState)
    ensures Modelled(s) ==> r.mortgageBalance == state.mortgageBalance
    ensures Modelled(s) ==> r.offsetBalance + r.investmentValue == state.offsetBalance + state.investmentValue
    ensures Modelled(s) ==> r.investmentValue - r.investmentCostBasis == state.investmentValue - state.investmentCostBasis
    ensures Modelled(s) ==> r.offsetTotalInvested == state.offsetTotalInvested
    ensures Modelled(s) ==> r.offsetBalance <= state.offsetBalance
    ensures !s.AllOffset? && Modelled(s) ==> r == state
  {
    match s
    case AllOffset => AllOffsetStrategy.HandleMortgagePayoff(state)
    case AllInvestment => AllInvestmentStrategy.HandleMortgagePayoff(state)
    case OffsetThenInvestment(_) => ext.offsetThenInvestment.handleMortgagePayoff(state)
    case OffsetThenInvestmentMove(_) => ext.offsetThenInvestmentMove.handleMortgagePayoff(state)
    case Split(_) => SplitStrategy.HandleMortgagePayoff(state)
  }

  function HandleExcessOffset(ext: Externals, s: Strategy, state: StrategyState): (r: StrategyState)
    ensures Modelled(s) ==> r.mortgageBalance == state.mortgageBalance
    ensures Modelled(s) ==> r.offsetBalance + r.investmentValue == state.offsetBalance + state.investmentValue
    ensures Modelled(s) ==> r.investmentValue - r.investmentCostBasis == state.investmentValue - state.investmentCostBasis
    ensures Modelled(s) ==> r.offsetTotalInvested == state.offsetTotalInvested
    ensures (s.AllOffset? || s.Split?) ==> r.offsetBalance <= r.mortgageBalance
    ensures s.AllInvestment? ==> r == state
  {
    match s
    case AllOffset => AllOffsetStrategy.HandleExcessOffset(state)
    case AllInvestment => AllInvestmentStrategy.HandleExcessOffset(state)
    case OffsetThenInvestment(_) => ext.offsetThenInvestment.handleExcessOffset(state)
    case OffsetThenInvestmentMove(_) => ext.offsetThenInvestmentMove.handleExcessOffset(state)
    case Split(_) => SplitStrategy.HandleExcessOffset(state)
  }
}
