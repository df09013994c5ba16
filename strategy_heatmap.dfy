/** The rate/return heatmap of src/utils/strategyHeatmap.ts: for every pair of a mortgage rate
    and an investment return on a fixed half-percent grid, which of two strategies ends the
    horizon with the larger net worth. */
module StrategyHeatmap {
  import opened Wrappers
  import opened Types
  import opened Strategies
  import opened Calculations
  import EngineProperties

  const MortgageMinPct: real := 2.0
  const MortgageMaxPct: real := 10.0
  const ReturnMinPct: real := 2.0
  const ReturnMaxPct: real := 12.0
  const StepPct: real := 0.5

  /** `Math.round(n * 100) / 100`, with JavaScript's round-half-up. */
  function Round2(n: real): real {
    (n * 100.0 + 0.5).Floor as real / 100.0
  }

  /** A whole number of hundredths is left as it is. */
  lemma Round2OfHundredths(c: int)
    ensures Round2(c as real / 100.0) == c as real / 100.0
  {
    assert c as real / 100.0 * 100.0 + 0.5 == c as real + 0.5;
    assert (c as real + 0.5).Floor == c;
  }

  /** `lo, lo + 0.5, ...` while not past `hi`, each rounded to two places; the loop adds the
      step to a running value as the source does. */
  method Axis(lo: real, hi: real) returns (values: seq<real>)
    ensures forall k :: 0 <= k < |values| ==> values[k] == Round2(lo + StepPct * k as real)
    ensures hi < lo + StepPct * |values| as real
    ensures |values| > 0 ==> lo + StepPct * (|values| - 1) as real <= hi
    ensures lo <= hi ==> |values| > 0
  {
    values := [];
    var m := lo;
    while m <= hi
      invariant m == lo + StepPct * |values| as real
      invariant forall k :: 0 <= k < |values| ==> values[k] == Round2(lo + StepPct * k as real)
      invariant |values| > 0 ==> lo + StepPct * (|values| - 1) as real <= hi
      decreases (2.0 * (hi - m)).Floor + 1
    {
      values := values + [Round2(m)];
      m := m + StepPct;
    }
  }

  /** The axis from `lo` to `hi` when both are whole numbers of hundredths: exactly the
      half-percent points between them. */
  lemma AxisPoints(lo: real, hi: real, values: seq<real>, count: nat)
    requires lo * 100.0 == (lo * 100.0).Floor as real
    requires hi - lo == StepPct * (count - 1) as real && count >= 1
    requires forall k :: 0 <= k < |values| ==> values[k] == Round2(lo + StepPct * k as real)
    requires hi < lo + StepPct * |values| as real
    requires |values| > 0 ==> lo + StepPct * (|values| - 1) as real <= hi
    ensures |values| == count
    ensures forall k :: 0 <= k < |values| ==> values[k] == lo + StepPct * k as real
  {
    forall k | 0 <= k < |values|
      ensures values[k] == lo + StepPct * k as real
    {
      var c := (lo * 100.0).Floor + 50 * k;
      assert lo + StepPct * k as real == c as real / 100.0;
      Round2OfHundredths(c);
    }
  }

  datatype HeatmapWinner = Left | Right

  datatype Heatmap = Heatmap(mortgageRatesPct: seq<real>, returnRatesPct: seq<real>, winnerGrid: seq<seq<HeatmapWinner>>)

  /** A cell's configuration: the base inputs with the two rates, the split ratio and the
      switch years replaced, and nothing else. */
  function CellInputs(base: CalculationInputs, mortgageRate: real, returnRate: real, splitRatio: real, switchYears: int): (inputs: CalculationInputs)
    ensures inputs.mortgageInterestRate == mortgageRate && inputs.investmentReturnRate == returnRate
    ensures inputs.splitRatio == Some(splitRatio) && inputs.switchYears == Some(switchYears)
    ensures inputs.(mortgageInterestRate := base.mortgageInterestRate, investmentReturnRate := base.investmentReturnRate,
                    splitRatio := base.splitRatio, switchYears := base.switchYears) == base
  {
    base.(mortgageInterestRate := mortgageRate, investmentReturnRate := returnRate,
          splitRatio := Some(splitRatio), switchYears := Some(switchYears))
  }

  /** The net worth of the first record labelled `years`, or zero when there is none. */
  function FinalNetWorth(results: seq<YearResult>, years: int): real {
    match FirstWhere(results, (r: YearResult) => r.year == years)
    case Some(i) => results[i].netWorth
    case None => 0.0
  }

  /** Over a run of `years` years the record read off is the last one; a horizon of no years
      reads zero. */
  lemma FinalNetWorthOfRun(ext: Externals, inputs: CalculationInputs, years: int)
    ensures var results := Simulate(ext, inputs, Some(years));
      && (years >= 1 ==> |results| == years && FinalNetWorth(results, years) == results[years - 1].netWorth)
      && (years <= 0 ==> FinalNetWorth(results, years) == 0.0)
  {
    var results := Simulate(ext, inputs, Some(years));
    EngineProperties.YearlyLabels(ext, inputs, Some(years));
    if years <= 0 {
      assert forall j :: 0 <= j < |results| ==> results[j].year != years;
    } else {
      var found := FirstWhere(results, (r: YearResult) => r.year == years);
      assert results[years - 1].year == years;
      assert found.Some? && found.value == years - 1;
    }
  }

  /** The winner of one cell: left when its net worth is at least the right's. */
  function CellWinner(ext: Externals, base: CalculationInputs, leftStrategy: StrategyTag, rightStrategy: StrategyTag,
                      splitRatio: real, switchYears: int, mortgageRate: real, returnRate: real): HeatmapWinner
  {
    var inputs := CellInputs(base, mortgageRate, returnRate, splitRatio, switchYears);
    var leftNetWorth := FinalNetWorth(Simulate(ext, inputs.(strategy := leftStrategy), Some(base.years)), base.years);
    var rightNetWorth := FinalNetWorth(Simulate(ext, inputs.(strategy := rightStrategy), Some(base.years)), base.years);
    if leftNetWorth >= rightNetWorth then Left else Right
  }

  /** Ties go to the left strategy, so comparing a strategy with itself is always a left win. */
  lemma SelfComparisonIsLeft(ext: Externals, base: CalculationInputs, strategy: StrategyTag, splitRatio: real,
                             switchYears: int, mortgageRate: real, returnRate: real)
    ensures CellWinner(ext, base, strategy, strategy, splitRatio, switchYears, mortgageRate, returnRate) == Left
  {
  }

  /** A cell is a left win exactly when the left strategy's final-year net worth is at least
      the right's, both run over the base horizon; with no horizon both read zero and the left
      wins. */
  lemma CellWinnerIsComparison(ext: Externals, base: CalculationInputs, leftStrategy: StrategyTag, rightStrategy: StrategyTag,
                               splitRatio: real, switchYears: int, mortgageRate: real, returnRate: real)
    ensures var inputs := CellInputs(base, mortgageRate, returnRate, splitRatio, switchYears);
      var left := Simulate(ext, inputs.(strategy := leftStrategy), Some(base.years));
      var right := Simulate(ext, inputs.(strategy := rightStrategy), Some(base.years));
      base.years >= 1 ==>
        && |left| == |right| == base.years
        && (CellWinner(ext, base, leftStrategy, rightStrategy, splitRatio, switchYears, mortgageRate, returnRate) == Left
            <==> left[base.years - 1].netWorth >= right[base.years - 1].netWorth)
    ensures base.years <= 0 ==>
              CellWinner(ext, base, leftStrategy, rightStrategy, splitRatio, switchYears, mortgageRate, returnRate) == Left
  {
    var inputs := CellInputs(base, mortgageRate, returnRate, splitRatio, switchYears);
    FinalNetWorthOfRun(ext, inputs.(strategy := leftStrategy), base.years);
    FinalNetWorthOfRun(ext, inputs.(strategy := rightStrategy), base.years);
  }

  /** One cell as the source computes it: both strategies run through the annual driver, the
      final-year net worths are read off, and the left wins ties. The winner is the left
      exactly when its last year's net worth is at least the right's. */
  method CompareCell(ext: Externals, base: CalculationInputs, leftStrategy: StrategyTag, rightStrategy: StrategyTag,
                     splitRatio: real, switchYears: int, mortgageRate: real, returnRate: real)
    returns (winner: HeatmapWinner)
    ensures var inputs := CellInputs(base, mortgageRate, returnRate, splitRatio, switchYears);
      var left := Simulate(ext, inputs.(strategy := leftStrategy), Some(base.years));
      var right := Simulate(ext, inputs.(strategy := rightStrategy), Some(base.years));
      base.years >= 1 ==>
        && |left| == |right| == base.years
        && (winner == Left <==> left[base.years - 1].netWorth >= right[base.years - 1].netWorth)
    ensures base.years <= 0 ==> winner == Left
    ensures winner == CellWinner(ext, base, leftStrategy, rightStrategy, splitRatio, switchYears, mortgageRate, returnRate)
  {
    var years := base.years;
    var inputs := CellInputs(base, mortgageRate, returnRate, splitRatio, switchYears);
    var leftResults := CalculateStrategy(ext, inputs.(strategy := leftStrategy), Some(years));
    var rightResults := CalculateStrategy(ext, inputs.(strategy := rightStrategy), Some(years));
    var leftNetWorth := FinalNetWorth(leftResults, years);
    var rightNetWorth := FinalNetWorth(rightResults, years);
    winner := if leftNetWorth >= rightNetWorth then Left else Right;
    CellWinnerIsComparison(ext, base, leftStrategy, rightStrategy, splitRatio, switchYears, mortgageRate, returnRate);
  }

  /** One row of the grid: the cells of one return rate, in the order of the mortgage rates. */
  method HeatmapRow(ext: Externals, baseInputs: CalculationInputs, leftStrategy: StrategyTag, rightStrategy: StrategyTag,
                    splitRatio: real, switchYears: int, mortgageRates: seq<real>, returnRate: real)
    returns (row: seq<HeatmapWinner>)
    ensures |row| == |mortgageRates|
    ensures forall j :: 0 <= j < |row| ==>
              row[j] == CellWinner(ext, baseInputs, leftStrategy, rightStrategy, splitRatio, switchYears,
                                   mortgageRates[j], returnRate)
  {
    row := [];
    var mi := 0;
    while mi < |mortgageRates|
      invariant 0 <= mi <= |mortgageRates| && |row| == mi
      invariant forall j :: 0 <= j < mi ==>
                  row[j] == CellWinner(ext, baseInputs, leftStrategy, rightStrategy, splitRatio, switchYears,
                                       mortgageRates[j], returnRate)
    {
      var winner := CompareCell(ext, baseInputs, leftStrategy, rightStrategy, splitRatio, switchYears,
                                mortgageRates[mi], returnRate);
      row := row + [winner];
      mi := mi + 1;
    }
  }

  /** The rows of the grid, one per return rate, in order. */
  method HeatmapGrid(ext: Externals, baseInputs: CalculationInputs, leftStrategy: StrategyTag, rightStrategy: StrategyTag,
                     splitRatio: real, switchYears: int, mortgageRates: seq<real>, returnRates: seq<real>)
    returns (winnerGrid: seq<seq<HeatmapWinner>>)
    ensures |winnerGrid| == |returnRates|
    ensures forall i :: 0 <= i < |winnerGrid| ==> |winnerGrid[i]| == |mortgageRates|
    ensures forall i, j :: 0 <= i < |returnRates| && 0 <= j < |mortgageRates| ==>
              winnerGrid[i][j] == CellWinner(ext, baseInputs, leftStrategy, rightStrategy, splitRatio, switchYears,
                                             mortgageRates[j], returnRates[i])
  {
    winnerGrid := [];
    var ri := 0;
    while ri < |returnRates|
      invariant 0 <= ri <= |returnRates| && |winnerGrid| == ri
      invariant forall i :: 0 <= i < ri ==> |winnerGrid[i]| == |mortgageRates|
      invariant forall i, j :: 0 <= i < ri && 0 <= j < |mortgageRates| ==>
                  winnerGrid[i][j] == CellWinner(ext, baseInputs, leftStrategy, rightStrategy, splitRatio, switchYears,
                                                 mortgageRates[j], returnRates[i])
    {
      var row := HeatmapRow(ext, baseInputs, leftStrategy, rightStrategy, splitRatio, switchYears, mortgageRates, returnRates[ri]);
      winnerGrid := winnerGrid + [row];
      ri := ri + 1;
    }
  }

  /** The two axes in percent: 2, 2.5, ..., 10 for the mortgage rate (17 values) and
      2, 2.5, ..., 12 for the return (21 values). */
  method HeatmapAxes() returns (mortgageRatesPct: seq<real>, returnRatesPct: seq<real>)
    ensures |mortgageRatesPct| == 17 && |returnRatesPct| == 21
    ensures forall k :: 0 <= k < 17 ==> mortgageRatesPct[k] == 2.0 + 0.5 * k as real
    ensures forall k :: 0 <= k < 21 ==> returnRatesPct[k] == 2.0 + 0.5 * k as real
  {
    mortgageRatesPct := Axis(MortgageMinPct, MortgageMaxPct);
    AxisPoints(MortgageMinPct, MortgageMaxPct, mortgageRatesPct, 17);
    returnRatesPct := Axis(ReturnMinPct, ReturnMaxPct);
    AxisPoints(ReturnMinPct, ReturnMaxPct, returnRatesPct, 21);
  }

  /** The percentages as fractions (`pct.map((p) => p / 100)`). */
  function Fractions(pct: seq<real>): (rates: seq<real>)
    ensures |rates| == |pct| && forall i :: 0 <= i < |pct| ==> rates[i] == pct[i] / 100.0
  {
    seq(|pct|, i requires 0 <= i < |pct| => pct[i] / 100.0)
  }

  /** `computeMortgageReturnHeatmap`: one row per return rate and in it one cell per mortgage
      rate, each cell naming the winner at that pair of rates (given in percent). */
  method ComputeMortgageReturnHeatmap(ext: Externals, baseInputs: CalculationInputs, leftStrategy: StrategyTag,
                                      rightStrategy: StrategyTag, splitRatio: real, switchYears: int)
    returns (h: Heatmap)
    ensures |h.mortgageRatesPct| == 17 && |h.returnRatesPct| == 21
    ensures forall k :: 0 <= k < 17 ==> h.mortgageRatesPct[k] == 2.0 + 0.5 * k as real
    ensures forall k :: 0 <= k < 21 ==> h.returnRatesPct[k] == 2.0 + 0.5 * k as real
    ensures |h.winnerGrid| == 21
    ensures forall ri :: 0 <= ri < 21 ==> |h.winnerGrid[ri]| == 17
    ensures forall ri, mi :: 0 <= ri < 21 && 0 <= mi < 17 ==>
              h.winnerGrid[ri][mi] == CellWinner(ext, baseInputs, leftStrategy, rightStrategy, splitRatio, switchYears,
                                                 Fractions(h.mortgageRatesPct)[mi], Fractions(h.returnRatesPct)[ri])
  {
    var mortgageRatesPct, returnRatesPct := HeatmapAxes();
    var returnRates := Fractions(returnRatesPct);
    var mortgageRates := Fractions(mortgageRatesPct);
    var winnerGrid := HeatmapGrid(ext, baseInputs, leftStrategy, rightStrategy, splitRatio, switchYears, mortgageRates, returnRates);
    h := Heatmap(mortgageRatesPct, returnRatesPct, winnerGrid);
  }
}
