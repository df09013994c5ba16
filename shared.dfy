/** The arithmetic every strategy shares: src/utils/strategies/shared.ts. */
module Shared {
  import opened Wrappers
  import opened Types

  /** `Math.pow` is not part of this model: callers supply it. */
  type Pow = (real, real) -> real

  /** The default number of payments per year of the amortisation formula (weekly). */
  const PaymentsPerYear: real := 52.0

  /** The fixed annual payment that retires `principal` over `years` at `annualRate`,
      compounding weekly. Bad configuration degrades to a zero payment. */
  function AmortizedPayment(principal: real, annualRate: real, years: real, pow: Pow): (payment: real)
    ensures years <= 0.0 || principal <= 0.0 ==> payment == 0.0
    ensures annualRate < 0.0 || annualRate > 1.0 ==> payment == 0.0
  {
    if years <= 0.0 || principal <= 0.0 then 0.0
    else if annualRate < 0.0 || annualRate > 1.0 then 0.0
    else if annualRate == 0.0 then principal / years
    else
      var ratePerPeriod := annualRate / PaymentsPerYear;
      var totalPayments := years * PaymentsPerYear;
      if ratePerPeriod <= -1.0 then 0.0
      else
        var compounded := pow(1.0 + ratePerPeriod, totalPayments);
        // A zero denominator is the quotient that is not finite in the source.
        if compounded - 1.0 == 0.0 then 0.0
        else (principal * ratePerPeriod * compounded) / (compounded - 1.0) * PaymentsPerYear
  }

  /** Without interest, the fixed payments over the term add up to exactly the principal. */
  lemma ZeroRateRepaysPrincipal(principal: real, years: real, pow: Pow)
    requires years > 0.0 && principal > 0.0
    ensures AmortizedPayment(principal, 0.0, years, pow) == principal / years
    ensures AmortizedPayment(principal, 0.0, years, pow) * years == principal
  {
  }

  /** The part of the balance that bears interest: the offset reduces it, never below zero. */
  function OutstandingForInterest(state: StrategyState): (outstanding: real)
    ensures outstanding >= 0.0
    ensures state.offsetBalance >= state.mortgageBalance ==> outstanding == 0.0
    ensures state.offsetBalance == 0.0 ==> outstanding == Max(0.0, state.mortgageBalance)
  {
    Max(0.0, state.mortgageBalance - Min(state.offsetBalance, state.mortgageBalance))
  }

  /** One period's payment against the mortgage. Interest accrues on the balance net of the
      offset; once the loan is retired the whole payment is freed up for investment. */
  function ProcessMortgagePayment(state: StrategyState, context: StrategyContext): (r: MortgagePaymentResult)
    ensures r.actualMortgagePayment + r.freedUpFromMortgagePayment == context.mortgagePayment
    ensures r.interestAccrued == OutstandingForInterest(state) * context.inputs.mortgageInterestRate
    ensures r.interestSavedThisYear
         == Min(state.offsetBalance, state.mortgageBalance) * context.effectiveInterestRate
    ensures state.offsetBalance >= state.mortgageBalance ==> r.interestAccrued == 0.0
    ensures state.mortgageBalance == 0.0 ==>
              r.principalPaid == 0.0 && r.actualMortgagePayment == 0.0
              && r.freedUpFromMortgagePayment == context.mortgagePayment
    ensures state.mortgageBalance != 0.0 ==> r.principalPaid >= 0.0 && r.freedUpFromMortgagePayment >= 0.0
    ensures state.mortgageBalance > 0.0 ==> r.principalPaid <= state.mortgageBalance
    ensures state.mortgageBalance > 0.0 && context.mortgagePayment >= r.interestAccrued ==>
              r.principalPaid == r.actualMortgagePayment - r.interestAccrued
    ensures state.mortgageBalance != 0.0 ==>
              r.principalPaid == Max(0.0, Min(context.mortgagePayment - r.interestAccrued, state.mortgageBalance))
              && r.freedUpFromMortgagePayment
                 == Max(0.0, context.mortgagePayment - (r.interestAccrued + state.mortgageBalance))
    ensures state.mortgageBalance > 0.0 && context.mortgagePayment <= r.interestAccrued ==>
              r.principalPaid == 0.0 && r.freedUpFromMortgagePayment == 0.0
  {
    var offsetApplied := Min(state.offsetBalance, state.mortgageBalance);
    var interestAccrued := OutstandingForInterest(state) * context.inputs.mortgageInterestRate;
    var interestSaved := offsetApplied * context.effectiveInterestRate;
    var payment := context.mortgagePayment;
    if state.mortgageBalance == 0.0 then
      MortgagePaymentResult(
        principalPaid := 0.0,
        freedUpFromMortgagePayment := payment,
        actualMortgagePayment := 0.0,
        interestAccrued := interestAccrued,
        interestSavedThisYear := interestSaved)
    else
      var principalPaid := Max(0.0, Min(payment - interestAccrued, state.mortgageBalance));
      var totalNeeded := interestAccrued + state.mortgageBalance;
      if payment > totalNeeded then
        MortgagePaymentResult(
          principalPaid := principalPaid,
          freedUpFromMortgagePayment := payment - totalNeeded,
          actualMortgagePayment := totalNeeded,
          interestAccrued := interestAccrued,
          interestSavedThisYear := interestSaved)
      else
        MortgagePaymentResult(
          principalPaid := principalPaid,
          freedUpFromMortgagePayment := 0.0,
          actualMortgagePayment := payment,
          interestAccrued := interestAccrued,
          interestSavedThisYear := interestSaved)
  }

  /** The balance falls by the principal paid, never below zero; nothing else changes. */
  function ApplyMortgagePayment(state: StrategyState, result: MortgagePaymentResult): (r: StrategyState)
    ensures r.mortgageBalance >= 0.0
    ensures r == state.(mortgageBalance := Max(0.0, state.mortgageBalance - result.principalPaid))
    ensures state.mortgageBalance >= 0.0 && 0.0 <= result.principalPaid <= state.mortgageBalance ==>
              r.mortgageBalance == state.mortgageBalance - result.principalPaid
  {
    state.(mortgageBalance := Max(0.0, state.mortgageBalance - result.principalPaid))
  }

  datatype Growth = Growth(
    yearCapitalGain: real,
    yearDividends: real,
    yearDividendTax: real,
    afterTaxDividends: real)

  /** Growth and dividends on the balance held over the period; nothing grows from a
      balance that is not positive. Dividends are taxed at once. */
  function InvestmentGrowth(investmentValue: real, inputs: CalculationInputs): (g: Growth)
    ensures investmentValue <= 0.0 ==> g == Growth(0.0, 0.0, 0.0, 0.0)
    ensures g.afterTaxDividends + g.yearDividendTax == g.yearDividends
    ensures investmentValue > 0.0 ==>
              g.yearCapitalGain == investmentValue * inputs.investmentReturnRate
              && g.yearDividends == investmentValue * inputs.dividendYield
              && g.yearDividendTax == g.yearDividends * inputs.personalTaxRate
    ensures inputs.investmentReturnRate == 0.0 ==> g.yearCapitalGain == 0.0
  {
    if investmentValue <= 0.0 then Growth(0.0, 0.0, 0.0, 0.0)
    else
      var dividends := investmentValue * inputs.dividendYield;
      var dividendTax := dividends * inputs.personalTaxRate;
      Growth(
        yearCapitalGain := investmentValue * inputs.investmentReturnRate,
        yearDividends := dividends,
        yearDividendTax := dividendTax,
        afterTaxDividends := dividends - dividendTax)
  }

  datatype Taxes = Taxes(
    capitalGainsTax: real,
    capitalGainsTaxBeforeDiscount: real,
    capitalGainsDiscount: real,
    totalTax: real)

  /** Mark-to-market capital-gains tax on the unrealised gain, net of the discount, plus the
      dividend tax paid so far. */
  function CalculateTaxes(investmentValue: real, investmentCostBasis: real, cumulativeDividendTax: real,
                          inputs: CalculationInputs): (t: Taxes)
    ensures t.capitalGainsTax
         == Max(0.0, investmentValue - investmentCostBasis) * inputs.personalTaxRate * (1.0 - inputs.capitalGainsRate)
    ensures t.capitalGainsTaxBeforeDiscount - t.capitalGainsDiscount == t.capitalGainsTax
    ensures t.totalTax - t.capitalGainsTax == cumulativeDividendTax
    ensures investmentValue <= investmentCostBasis ==> t.capitalGainsTax == 0.0 && t.totalTax == cumulativeDividendTax
  {
    var gain := Max(0.0, investmentValue - investmentCostBasis);
    var beforeDiscount := gain * inputs.personalTaxRate;
    var discount := gain * inputs.capitalGainsRate * inputs.personalTaxRate;
    Taxes(
      capitalGainsTax := beforeDiscount - discount,
      capitalGainsTaxBeforeDiscount := beforeDiscount,
      capitalGainsDiscount := discount,
      totalTax := beforeDiscount - discount + cumulativeDividendTax)
  }
}
