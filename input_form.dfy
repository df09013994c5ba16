/** The field validator and the percentage entry of src/components/InputForm.tsx. A field edit
    either reaches `onChange` with one key of the inputs replaced or is dropped. */
module InputForm {
  import opened Wrappers
  import opened Types
  import HistoricalRates

  /** A JavaScript number: a finite value, NaN or one of the two infinities. */
  datatype JsNumber = Finite(x: real) | NaN | PosInf | NegInf

  /** The keys of the inputs record. */
  datatype Key =
    | InitialAmount | WeeklyContribution | MortgageBalance | MortgageInterestRate | MortgagePayment
    | InvestmentReturnRate | DividendYield | CapitalGainsRate | PersonalTaxRate | IsInvestmentProperty
    | Years | Strategy | SplitRatio | SwitchYears

  /** What a form control hands over: a number, the checkbox's flag, the selected strategy, or
      nothing (an unset optional field). */
  datatype FieldValue = Num(n: JsNumber) | Flag(b: bool) | Choice(s: StrategyTag) | Undefined

  /** `value < c` on a JavaScript number. */
  predicate Below(v: JsNumber, c: real) {
    match v
    case Finite(x) => x < c
    case NegInf => true
    case _ => false
  }

  /** `value > c` on a JavaScript number. */
  predicate Above(v: JsNumber, c: real) {
    match v
    case Finite(x) => x > c
    case PosInf => true
    case _ => false
  }

  /** `Number.isInteger(value)`. */
  predicate IsInteger(v: JsNumber) {
    v.Finite? && v.x.Floor as real == v.x
  }

  /** The guards of `handleChange`, in their order: any of them drops the edit. */
  predicate Rejected(key: Key, v: JsNumber) {
    || (key == Years && (Below(v, 1.0) || Above(v, 100.0) || !IsInteger(v)))
    || (key == SplitRatio && (Below(v, 0.0) || Above(v, 1.0)))
    || (key == SwitchYears && (Below(v, 1.0) || Above(v, 100.0) || !IsInteger(v)))
    || (key in {MortgageInterestRate, InvestmentReturnRate, DividendYield, PersonalTaxRate}
        && (Below(v, 0.0) || Above(v, 1.0)))
    || (key in {InitialAmount, WeeklyContribution, MortgageBalance} && Below(v, 0.0))
    || v.NaN? || !v.Finite?
  }

  /** The value each key accepts, stated on plain reals. */
  predicate Admissible(key: Key, x: real) {
    match key
    case Years => 1.0 <= x <= 100.0 && x.Floor as real == x
    case SwitchYears => 1.0 <= x <= 100.0 && x.Floor as real == x
    case SplitRatio => 0.0 <= x <= 1.0
    case MortgageInterestRate => 0.0 <= x <= 1.0
    case InvestmentReturnRate => 0.0 <= x <= 1.0
    case DividendYield => 0.0 <= x <= 1.0
    case PersonalTaxRate => 0.0 <= x <= 1.0
    case InitialAmount => 0.0 <= x
    case WeeklyContribution => 0.0 <= x
    case MortgageBalance => 0.0 <= x
    case _ => true
  }

  /** The kind of value each key holds: the checkbox's flag, the selected strategy, or a number. */
  predicate Fits(key: Key, value: FieldValue) {
    match key
    case IsInvestmentProperty => value.Flag?
    case Strategy => value.Choice?
    case _ => value.Num?
  }

  /** The current value of one key. */
  function Get(inputs: CalculationInputs, key: Key): FieldValue {
    match key
    case InitialAmount => Num(Finite(inputs.initialAmount))
    case WeeklyContribution => Num(Finite(inputs.weeklyContribution))
    case MortgageBalance => Num(Finite(inputs.mortgageBalance))
    case MortgageInterestRate => Num(Finite(inputs.mortgageInterestRate))
    case MortgagePayment => if inputs.mortgagePayment.Some? then Num(Finite(inputs.mortgagePayment.value)) else Undefined
    case InvestmentReturnRate => Num(Finite(inputs.investmentReturnRate))
    case DividendYield => Num(Finite(inputs.dividendYield))
    case CapitalGainsRate => Num(Finite(inputs.capitalGainsRate))
    case PersonalTaxRate => Num(Finite(inputs.personalTaxRate))
    case IsInvestmentProperty => Flag(inputs.isInvestmentProperty)
    case Years => Num(Finite(inputs.years as real))
    case Strategy => Choice(inputs.strategy)
    case SplitRatio => if inputs.splitRatio.Some? then Num(Finite(inputs.splitRatio.value)) else Undefined
    case SwitchYears => if inputs.switchYears.Some? then Num(Finite(inputs.switchYears.value as real)) else Undefined
  }

  /** `{ ...inputs, [key]: value }` for a value the record can hold. */
  function Set(inputs: CalculationInputs, key: Key, value: FieldValue): CalculationInputs
    requires Fits(key, value) && (value.Num? ==> value.n.Finite?)
    requires key == Years || key == SwitchYears ==> IsInteger(value.n)
  {
    match key
    case InitialAmount => inputs.(initialAmount := value.n.x)
    case WeeklyContribution => inputs.(weeklyContribution := value.n.x)
    case MortgageBalance => inputs.(mortgageBalance := value.n.x)
    case MortgageInterestRate => inputs.(mortgageInterestRate := value.n.x)
    case MortgagePayment => inputs.(mortgagePayment := Some(value.n.x))
    case InvestmentReturnRate => inputs.(investmentReturnRate := value.n.x)
    case DividendYield => inputs.(dividendYield := value.n.x)
    case CapitalGainsRate => inputs.(capitalGainsRate := value.n.x)
    case PersonalTaxRate => inputs.(personalTaxRate := value.n.x)
    case IsInvestmentProperty => inputs.(isInvestmentProperty := value.b)
    case Years => inputs.(years := value.n.x.Floor)
    case Strategy => inputs.(strategy := value.s)
    case SplitRatio => inputs.(splitRatio := Some(value.n.x))
    case SwitchYears => inputs.(switchYears := Some(value.n.x.Floor))
  }

  /** `handleChange`: the new inputs passed to `onChange`, or `None` when a guard drops the
      edit. A number is accepted exactly when it is finite and admissible for its key; flags and
      strategy choices always pass; on acceptance only the edited key changes. */
  function HandleChange(inputs: CalculationInputs, key: Key, value: FieldValue): (r: Option<CalculationInputs>)
    requires Fits(key, value)
    ensures r.Some? <==> (value.Num? ==> value.n.Finite? && Admissible(key, value.n.x))
    ensures r.Some? ==> Get(r.value, key) == value
    ensures r.Some? ==> forall other :: other != key ==> Get(r.value, other) == Get(inputs, other)
  {
    if value.Num? && Rejected(key, value.n) then None
    else Some(Set(inputs, key, value))
  }

  /** The two JavaScript parsers the number inputs use. */
  datatype NumberParsers = NumberParsers(parseFloat: string -> JsNumber, parseInt: string -> JsNumber)

  /** The five fields shown as percentages. */
  predicate IsPercentageField(key: Key) {
    key in {MortgageInterestRate, InvestmentReturnRate, DividendYield, CapitalGainsRate, PersonalTaxRate}
  }

  /** The number a typed text turns into before validation, or `None` when the text is blank or
      does not parse: percentages are divided by 100 and years are read as an integer. */
  function EnteredNumber(parsers: NumberParsers, key: Key, raw: string): (r: Option<JsNumber>)
    ensures r.Some? ==> HistoricalRates.Trim(raw) != "" && parsers.parseFloat(raw).Finite?
    ensures r.Some? && IsPercentageField(key) ==> r.value == Finite(parsers.parseFloat(raw).x / 100.0)
    ensures r.Some? && key == Years ==> r.value == parsers.parseInt(raw) && !r.value.NaN?
    ensures r.Some? && !IsPercentageField(key) && key != Years ==> r.value == parsers.parseFloat(raw)
  {
    if HistoricalRates.Trim(raw) == "" then None
    else
      var typed := parsers.parseFloat(raw);
      if !typed.Finite? then None
      else if IsPercentageField(key) then Some(Finite(typed.x / 100.0))
      else if key == Years then
        var whole := parsers.parseInt(raw);
        if whole.NaN? then None else Some(whole)
      else Some(typed)
  }

  /** The fields drawn by the generic number input; the split ratio and the switch years have
      inputs of their own, and the scheduled payment has none. */
  predicate IsGenericNumberField(key: Key) {
    key in {MortgageBalance, Years, MortgageInterestRate, InvestmentReturnRate, DividendYield,
            CapitalGainsRate, PersonalTaxRate, InitialAmount, WeeklyContribution}
  }

  /** Typing into a number input: parse, convert, then validate. */
  function EnterText(parsers: NumberParsers, inputs: CalculationInputs, key: Key, raw: string): (r: Option<CalculationInputs>)
    requires IsGenericNumberField(key)
    ensures EnteredNumber(parsers, key, raw).None? ==> r.None?
    ensures r.Some? ==> EnteredNumber(parsers, key, raw).Some?
                        && Get(r.value, key) == Num(EnteredNumber(parsers, key, raw).value)
    ensures r.Some? ==> forall other :: other != key ==> Get(r.value, other) == Get(inputs, other)
  {
    match EnteredNumber(parsers, key, raw)
    case None => None
    case Some(v) => HandleChange(inputs, key, Num(v))
  }

  /** A percentage typed as `p` is stored as `p / 100`; every percentage but the capital gains
      rate must lie between 0 and 100. */
  lemma PercentageEntry(parsers: NumberParsers, inputs: CalculationInputs, key: Key, raw: string, p: real)
    requires IsPercentageField(key) && HistoricalRates.Trim(raw) != "" && parsers.parseFloat(raw) == Finite(p)
    ensures EnterText(parsers, inputs, key, raw).Some? <==> key == CapitalGainsRate || 0.0 <= p <= 100.0
    ensures EnterText(parsers, inputs, key, raw).Some? ==>
      Get(EnterText(parsers, inputs, key, raw).value, key) == Num(Finite(p / 100.0))
  {
    assert EnteredNumber(parsers, key, raw) == Some(Finite(p / 100.0));
  }

  /** The split ratio's own input: a percentage from 0 to 100, stored as a fraction; anything
      blank, unparsable or out of range is ignored. */
  function EnterSplitRatio(parsers: NumberParsers, inputs: CalculationInputs, raw: string): (r: Option<CalculationInputs>)
    ensures r.Some? <==>
      HistoricalRates.Trim(raw) != "" && parsers.parseFloat(raw).Finite? && 0.0 <= parsers.parseFloat(raw).x <= 100.0
    ensures r.Some? ==> Get(r.value, SplitRatio) == Num(Finite(parsers.parseFloat(raw).x / 100.0))
    ensures r.Some? ==> forall other :: other != SplitRatio ==> Get(r.value, other) == Get(inputs, other)
  {
    if HistoricalRates.Trim(raw) == "" then None
    else
      var typed := parsers.parseFloat(raw);
      if typed.NaN? || Below(typed, 0.0) || Above(typed, 100.0) then None
      else HandleChange(inputs, SplitRatio, Num(Finite(typed.x / 100.0)))
  }

  /** The switch year's own input: a whole number of years from 1 to 100; anything blank,
      unparsable or out of range is ignored. */
  function EnterSwitchYears(parsers: NumberParsers, inputs: CalculationInputs, raw: string): (r: Option<CalculationInputs>)
    ensures r.Some? <==>
      HistoricalRates.Trim(raw) != "" && IsInteger(parsers.parseInt(raw))
      && 1.0 <= parsers.parseInt(raw).x <= 100.0
    ensures r.Some? ==> Get(r.value, SwitchYears) == Num(parsers.parseInt(raw))
    ensures r.Some? ==> forall other :: other != SwitchYears ==> Get(r.value, other) == Get(inputs, other)
  {
    if HistoricalRates.Trim(raw) == "" then None
    else
      var whole := parsers.parseInt(raw);
      if whole.NaN? || Below(whole, 1.0) || Above(whole, 100.0) then None
      else HandleChange(inputs, SwitchYears, Num(whole))
  }
}
