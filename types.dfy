/** The records of the engine: src/types.ts and src/utils/strategies/types.ts.
    They carry no logic of their own. Money and rates are exact reals. */
module Types {
  import opened Wrappers

  /** The five strategy names a configuration may carry (a union of string literals in the
      source). */
  datatype StrategyTag =
    | AllOffsetTag
    | AllInvestmentTag
    | SplitTag
    | OffsetThenInvestmentTag
    | OffsetThenInvestmentMoveTag

  /** One run's configuration. */
  datatype CalculationInputs = CalculationInputs(
    initialAmount: real,
    weeklyContribution: real,
    mortgageBalance: real,
    mortgageInterestRate: real,
    mortgagePayment: Option<real>,
    investmentReturnRate: real,
    dividendYield: real,
    capitalGainsRate: real,
    personalTaxRate: real,
    isInvestmentProperty: bool,
    years: int,
    strategy: StrategyTag,
    splitRatio: Option<real>,
    switchYears: Option<int>)

  /** The five balances threaded through the simulation loop. */
  datatype StrategyState = StrategyState(
    mortgageBalance: real,
    offsetBalance: real,
    investmentValue: real,
    investmentCostBasis: real,
    offsetTotalInvested: real)

  /** What a strategy sees of the current period. */
  datatype StrategyContext = StrategyContext(
    inputs: CalculationInputs,
    mortgagePayment: real,
    annualContribution: real,
    effectiveInterestRate: real,
    year: int,
    mortgagePaidOff: bool)

  datatype ContributionAllocation = ContributionAllocation(
    contributionToOffset: real,
    contributionToInvestment: real)

  datatype InitialAllocation = InitialAllocation(
    offsetAllocation: real,
    investmentAllocation: real)

  datatype MortgagePaymentResult = MortgagePaymentResult(
    principalPaid: real,
    freedUpFromMortgagePayment: real,
    actualMortgagePayment: real,
    interestAccrued: real,
    interestSavedThisYear: real)

  /** One period's output record (YearResult; a MonthResult adds the month number). */
  datatype YearResult = YearResult(
    year: int,
    mortgageBalance: real,
    previousMortgageBalance: real,
    mortgageInterest: real,
    mortgagePayment: real,
    principalPaid: real,
    offsetBalance: real,
    previousOffsetBalance: real,
    offsetContribution: real,
    investmentValue: real,
    previousInvestmentValue: real,
    capitalGains: real,
    dividends: real,
    capitalGainsTax: real,
    capitalGainsTaxBeforeDiscount: real,
    capitalGainsDiscount: real,
    dividendTax: real,
    investmentContribution: real,
    netWorth: real,
    totalReturn: real,
    interestPaid: real,
    interestSaved: real,
    totalTax: real,
    offsetTotalInvested: real,
    investmentTotalInvested: real,
    actualInvestmentContributions: real,
    freedUpMortgagePaymentsTotal: real,
    offsetNetGains: real,
    investmentNetGains: real,
    outstandingBalanceForInterest: real,
    cumulativeMortgagePayments: real,
    actualMortgagePaymentsTotal: real,
    mortgagePaymentsAfterPayoff: real,
    taxRefundFromInterest: real,
    taxRefundToOffset: real,
    taxRefundToInvestment: real)

  /** A monthly record: the month number (1-based) and the same fields as a yearly one,
      whose `year` is the month's year, ceil(month / 12). */
  datatype MonthResult = MonthResult(month: int, fields: YearResult)
}
