/** The year-by-year rate list and the slider range handling of
    src/components/HistoricalSection.tsx. */
module HistoricalSection {
  import opened Wrappers
  import opened HistoricalRates

  /** One year's rates as fractions, as the comparison engine takes them. */
  datatype YearlyRateOverride = YearlyRateOverride(mortgageInterestRate: real, investmentReturnRate: real, dividendYield: real)

  /** `rates.find(row => row.financialYear === y)`: the first row of year `y`. */
  function FindYear(rates: seq<HistoricalYearRates>, y: int): (r: Option<HistoricalYearRates>)
    ensures r.None? <==> forall i :: 0 <= i < |rates| ==> rates[i].financialYear != y
    ensures r.Some? ==> exists i ::
      && 0 <= i < |rates| && rates[i] == r.value
      && forall j :: 0 <= j < i ==> rates[j].financialYear != y
    ensures r.Some? ==> r.value.financialYear == y
  {
    if |rates| == 0 then None
    else if rates[0].financialYear == y then Some(rates[0])
    else
      var r := FindYear(rates[1..], y);
      assert forall i :: 1 <= i < |rates| ==> rates[i] == rates[1..][i - 1];
      r
  }

  /** The rates of one year's row, converted from percentages. */
  function Override(r: HistoricalYearRates): YearlyRateOverride {
    YearlyRateOverride(r.housingLendingRatePct / 100.0, r.asxReturnPct / 100.0, 0.0)
  }

  /** The years from `startYear` to `endYear` that have a row, in ascending order. */
  function PresentYears(rates: seq<HistoricalYearRates>, startYear: int, endYear: int): (ys: seq<int>)
    ensures |ys| <= MaxInt(0, endYear - startYear + 1)
    ensures forall i :: 0 <= i < |ys| ==> startYear <= ys[i] <= endYear && FindYear(rates, ys[i]).Some?
    ensures forall i, j :: 0 <= i < j < |ys| ==> ys[i] < ys[j]
    ensures forall y :: startYear <= y <= endYear && FindYear(rates, y).Some? ==> y in ys
    decreases endYear - startYear
  {
    if startYear > endYear then []
    else
      var earlier := PresentYears(rates, startYear, endYear - 1);
      if FindYear(rates, endYear).Some? then earlier + [endYear] else earlier
  }

  /** The rate list for the years `startYear..endYear`: one entry per year that has a row, taken
      from that year's first row, in ascending year order. */
  function YearlyRates(rates: seq<HistoricalYearRates>, startYear: int, endYear: int): (out: seq<YearlyRateOverride>)
    ensures var ys := PresentYears(rates, startYear, endYear);
      |out| == |ys| && forall i :: 0 <= i < |ys| ==> out[i] == Override(FindYear(rates, ys[i]).value)
    decreases endYear - startYear
  {
    if startYear > endYear then []
    else
      var earlier := YearlyRates(rates, startYear, endYear - 1);
      match FindYear(rates, endYear)
      case Some(r) =>
        assert PresentYears(rates, startYear, endYear) == PresentYears(rates, startYear, endYear - 1) + [endYear];
        earlier + [Override(r)]
      case None =>
        assert PresentYears(rates, startYear, endYear) == PresentYears(rates, startYear, endYear - 1);
        earlier
  }

  /** `buildYearlyRatesFromHistorical`: a loop over the years pushing one entry per year found. */
  method BuildYearlyRatesFromHistorical(rates: seq<HistoricalYearRates>, startYear: int, endYear: int)
    returns (out: seq<YearlyRateOverride>)
    ensures out == YearlyRates(rates, startYear, endYear)
  {
    out := [];
    var y := startYear;
    while y <= endYear
      invariant y == startYear || y <= endYear + 1
      invariant out == YearlyRates(rates, startYear, y - 1)
      decreases endYear - y
    {
      var r := FindYear(rates, y);
      if r.Some? {
        out := out + [Override(r.value)];
      }
      y := y + 1;
    }
  }

  /** The list has at most one entry per year of the range, and none when the range is
      reversed. */
  lemma YearlyRatesLength(rates: seq<HistoricalYearRates>, startYear: int, endYear: int)
    ensures |YearlyRates(rates, startYear, endYear)| <= MaxInt(0, endYear - startYear + 1)
    ensures startYear > endYear ==> YearlyRates(rates, startYear, endYear) == []
  {
  }

  /** Every entry holds the rates of the first row of some year of the range, divided by 100,
      with no dividend yield. */
  lemma YearlyRatesEntry(rates: seq<HistoricalYearRates>, startYear: int, endYear: int, i: nat)
    requires i < |YearlyRates(rates, startYear, endYear)|
    ensures exists y ::
      && startYear <= y <= endYear && FindYear(rates, y).Some?
      && YearlyRates(rates, startYear, endYear)[i]
         == YearlyRateOverride(FindYear(rates, y).value.housingLendingRatePct / 100.0,
                               FindYear(rates, y).value.asxReturnPct / 100.0, 0.0)
  {
    var y := PresentYears(rates, startYear, endYear)[i];
    assert YearlyRates(rates, startYear, endYear)[i] == Override(FindYear(rates, y).value);
  }

  /** A year of the range that has a row contributes exactly one entry, at its place in the
      ascending order of such years. */
  lemma YearlyRatesCoverRange(rates: seq<HistoricalYearRates>, startYear: int, endYear: int, y: int)
    requires startYear <= y <= endYear && FindYear(rates, y).Some?
    ensures exists i ::
      && 0 <= i < |PresentYears(rates, startYear, endYear)|
      && PresentYears(rates, startYear, endYear)[i] == y
      && YearlyRates(rates, startYear, endYear)[i] == Override(FindYear(rates, y).value)
  {
    var ys := PresentYears(rates, startYear, endYear);
    assert y in ys;
    var i :| 0 <= i < |ys| && ys[i] == y;
  }

  /** `Math.max(range.minYear, Math.min(year, range.maxYear))`. */
  function ClampYear(range: YearRange, year: int): (c: int)
    ensures range.minYear <= range.maxYear ==> range.minYear <= c <= range.maxYear
    ensures range.minYear <= year <= range.maxYear ==> c == year
    ensures year < range.minYear ==> c == range.minYear
    ensures range.minYear <= range.maxYear < year ==> c == range.maxYear
  {
    MaxInt(range.minYear, MinInt(year, range.maxYear))
  }

  /** The range actually simulated: both requested ends clamped into the available years, then
      put in order. */
  function EffectiveRange(range: YearRange, requested: (int, int)): (r: (int, int))
    ensures r.0 <= r.1
    ensures range.minYear <= range.maxYear ==>
      range.minYear <= r.0 && r.1 <= range.maxYear
    ensures {r.0, r.1} == {ClampYear(range, requested.0), ClampYear(range, requested.1)}
    ensures range.minYear <= requested.0 <= requested.1 <= range.maxYear ==> r == requested
  {
    var startClamped := ClampYear(range, requested.0);
    var endClamped := ClampYear(range, requested.1);
    (MinInt(startClamped, endClamped), MaxInt(startClamped, endClamped))
  }

  /** Clamping an already effective range changes nothing. */
  lemma EffectiveRangeIdempotent(range: YearRange, requested: (int, int))
    requires range.minYear <= range.maxYear
    ensures EffectiveRange(range, EffectiveRange(range, requested)) == EffectiveRange(range, requested)
  {
  }

  /** The effective range of loaded rates lies within the years present. */
  lemma EffectiveRangeWithinRates(rates: seq<HistoricalYearRates>, requested: (int, int))
    requires |rates| > 0
    ensures var r := EffectiveRange(YearRangeFromRates(rates), requested);
      (exists i :: 0 <= i < |rates| && rates[i].financialYear <= r.0)
      && (exists i :: 0 <= i < |rates| && r.1 <= rates[i].financialYear)
  {
    var range := YearRangeFromRates(rates);
    var i :| 0 <= i < |rates| && rates[i].financialYear == range.minYear;
    var j :| 0 <= j < |rates| && rates[j].financialYear == range.maxYear;
  }

  /** `handleRangeChange`: the slider's two handles, in either order, become the new range. */
  function HandleRangeChange(range: YearRange, a: int, b: int): (r: (int, int))
    ensures range.minYear <= r.0 && r.1 <= range.maxYear
    ensures range.minYear <= a <= range.maxYear && range.minYear <= b <= range.maxYear ==>
      r.0 <= r.1 && {r.0, r.1} == {a, b}
  {
    var low := MaxInt(range.minYear, MinInt(a, b));
    var high := MinInt(range.maxYear, MaxInt(a, b));
    (low, high)
  }

  /** The order of the two handles does not matter. */
  lemma HandleRangeChangeSymmetric(range: YearRange, a: int, b: int)
    ensures HandleRangeChange(range, a, b) == HandleRangeChange(range, b, a)
  {
  }
}
