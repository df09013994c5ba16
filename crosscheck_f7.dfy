/** The number extraction and the financial-year returns of scripts/crosscheck_f7.py, which
    reads month-end index values from the text of a share-market table. */
module CrosscheckF7 {
  import opened Wrappers
  import HistoricalRates

  /** The error `float()` raises on a malformed number. */
  datatype ParseError = ValueError(text: string)

  predicate IsDigit(c: char) {
    '0' <= c <= '9'
  }

  /** Every character is a decimal digit (the empty string included). */
  predicate Digits(s: string) {
    forall i :: 0 <= i < |s| ==> IsDigit(s[i])
  }

  /** `s.isdigit()`: at least one character, all of them digits. */
  predicate IsDigitString(s: string) {
    |s| > 0 && Digits(s)
  }

  /** `s.replace(".", "")`. */
  function RemoveDots(s: string): (r: string)
    ensures |r| <= |s|
    ensures '.' !in r
    ensures forall c :: c != '.' ==> multiset(r)[c] == multiset(s)[c]
    ensures '.' !in s ==> r == s
  {
    if |s| == 0 then ""
    else
      var head: string := if s[0] == '.' then "" else [s[0]];
      assert s == [s[0]] + s[1..];
      assert multiset(s) == multiset([s[0]]) + multiset(s[1..]);
      head + RemoveDots(s[1..])
  }

  /** A token that starts a number: digits, possibly with dots among them. */
  predicate IsNumberToken(t: string) {
    IsDigitString(RemoveDots(t))
  }

  /** A token that continues a number: exactly three digits. */
  predicate IsGroup(t: string) {
    |t| == 3 && IsDigitString(t)
  }

  /** The position of the first token from `i` on that does not continue a number. */
  function GroupEnd(toks: seq<string>, i: nat): (j: nat)
    requires i <= |toks|
    ensures i <= j <= |toks|
    ensures forall k :: i <= k < j ==> IsGroup(toks[k])
    ensures j == |toks| || !IsGroup(toks[j])
    decreases |toks| - i
  {
    if i < |toks| && IsGroup(toks[i]) then GroupEnd(toks, i + 1) else i
  }

  /** The tokens written one after another. */
  function Concat(toks: seq<string>): string {
    if |toks| == 0 then "" else Concat(toks[..|toks| - 1]) + toks[|toks| - 1]
  }

  function DigitValue(c: char): nat
    requires IsDigit(c)
  {
    (c as int - '0' as int) as nat
  }

  /** The value of a string of decimal digits; the empty string is 0. */
  function DigitsValue(s: string): nat
    requires Digits(s)
  {
    if |s| == 0 then 0 else 10 * DigitsValue(s[..|s| - 1]) + DigitValue(s[|s| - 1])
  }

  function Pow10(n: nat): (p: nat)
    ensures p >= 1
  {
    if n == 0 then 1 else 10 * Pow10(n - 1)
  }

  /** `float(n)` on a string of digits and dots, the only kind the extractor builds: a whole
      part and an optional fraction after one dot; a second dot, no digit at all or any other
      character raises ValueError. */
  function DecimalFloat(n: string): (r: Result<real, ParseError>)
    ensures r.Ok? ==> r.value >= 0.0
    ensures IsDigitString(n) ==> r == Ok(DigitsValue(n) as real)
  {
    if '.' !in n then
      if IsDigitString(n) then Ok(DigitsValue(n) as real) else Err(ValueError(n))
    else
      var k := HistoricalRates.FirstIndex(n, '.');
      var whole := n[..k];
      var fraction := n[k + 1..];
      if Digits(whole) && Digits(fraction) && |whole| + |fraction| > 0 then
        Ok(DigitsValue(whole) as real + DigitsValue(fraction) as real / Pow10(|fraction|) as real)
      else Err(ValueError(n))
  }

  /** The numbers read from the tokens from position `i` on: a number token absorbs the
      three-digit tokens after it, other tokens are skipped, and the first malformed number
      raises. */
  function ParseFrom(toks: seq<string>, i: nat): (r: Result<seq<real>, ParseError>)
    requires i <= |toks|
    ensures r.Ok? ==> |r.value| <= |toks| - i
    decreases |toks| - i
  {
    if i == |toks| then Ok([])
    else if !IsNumberToken(toks[i]) then ParseFrom(toks, i + 1)
    else
      var j := GroupEnd(toks, i + 1);
      match DecimalFloat(Concat(toks[i..j]))
      case Err(e) => Err(e)
      case Ok(x) =>
        match ParseFrom(toks, j)
        case Err(e) => Err(e)
        case Ok(rest) => Ok([x] + rest)
  }

  /** `parse_numbers` of the whitespace-separated tokens of a line. */
  function ParseNumbers(toks: seq<string>): (r: Result<seq<real>, ParseError>)
    ensures r.Ok? ==> |r.value| <= |toks|
  {
    ParseFrom(toks, 0)
  }

  /** The numbers already read followed by those still to come. */
  function Prepend(nums: seq<real>, r: Result<seq<real>, ParseError>): Result<seq<real>, ParseError> {
    match r
    case Ok(rest) => Ok(nums + rest)
    case Err(e) => Err(e)
  }

  /** The inner loop of `parse_numbers`: the number token at `start` followed by the
      three-digit tokens after it, and the position after them. */
  method AbsorbGroups(toks: seq<string>, start: nat) returns (n: string, i: nat)
    requires start < |toks|
    ensures i == GroupEnd(toks, start + 1)
    ensures n == Concat(toks[start..i])
  {
    n := toks[start];
    i := start + 1;
    assert toks[start..i] == [toks[start]];
    assert Concat([toks[start]]) == toks[start] by {
      assert [toks[start]][..0] == [];
    }
    while i < |toks| && IsGroup(toks[i])
      invariant start < i <= |toks|
      invariant n == Concat(toks[start..i])
      invariant GroupEnd(toks, i) == GroupEnd(toks, start + 1)
    {
      assert toks[start..i + 1][..i - start] == toks[start..i];
      n := n + toks[i];
      i := i + 1;
    }
  }

  /** `parse_numbers`: a loop over the tokens with an inner loop absorbing the groups. */
  method ParseNumbersLoop(toks: seq<string>) returns (r: Result<seq<real>, ParseError>)
    ensures r == ParseNumbers(toks)
  {
    var nums: seq<real> := [];
    var i := 0;
    assert forall rest: seq<real> :: [] + rest == rest;
    while i < |toks|
      invariant i <= |toks|
      invariant ParseNumbers(toks) == Prepend(nums, ParseFrom(toks, i))
    {
      var t := toks[i];
      if IsNumberToken(t) {
        var start := i;
        var n;
        n, i := AbsorbGroups(toks, start);
        var x := DecimalFloat(n);
        if x.Err? {
          assert ParseFrom(toks, start) == Err(x.error);
          return Err(x.error);
        }
        NumberStep(toks, start, nums, x.value);
        nums := nums + [x.value];
      } else {
        i := i + 1;
      }
    }
    assert nums + [] == nums;
    r := Ok(nums);
  }

  /** A number token read in full moves its value from the numbers to come to those read. */
  lemma NumberStep(toks: seq<string>, start: nat, nums: seq<real>, x: real)
    requires start < |toks| && IsNumberToken(toks[start])
    requires DecimalFloat(Concat(toks[start..GroupEnd(toks, start + 1)])) == Ok(x)
    ensures Prepend(nums, ParseFrom(toks, start)) == Prepend(nums + [x], ParseFrom(toks, GroupEnd(toks, start + 1)))
  {
    var rest := ParseFrom(toks, GroupEnd(toks, start + 1));
    if rest.Ok? {
      assert nums + ([x] + rest.value) == (nums + [x]) + rest.value;
    }
  }

  /** One more digit multiplies the value by ten and adds the digit. */
  lemma DigitsSnoc(s: string, c: char)
    requires Digits(s) && IsDigit(c)
    ensures Digits(s + [c]) && DigitsValue(s + [c]) == 10 * DigitsValue(s) + DigitValue(c)
  {
    assert (s + [c])[..|s|] == s;
  }

  /** The value of a three-digit group. */
  lemma GroupValue(g: string)
    requires IsGroup(g)
    ensures DigitsValue(g) == 100 * DigitValue(g[0]) + 10 * DigitValue(g[1]) + DigitValue(g[2])
  {
    var g1 := [g[0]];
    var g2 := g1 + [g[1]];
    DigitsSnoc([], g[0]);
    assert [] + [g[0]] == g1;
    DigitsSnoc(g1, g[1]);
    DigitsSnoc(g2, g[2]);
    assert g2 + [g[2]] == g;
  }

  /** A three-digit group appended to a whole number multiplies it by 1000 and adds the group:
      "1 234" reads as 1234. */
  lemma GroupAppend(t: string, g: string)
    requires IsDigitString(t) && IsGroup(g)
    ensures IsDigitString(t + g)
    ensures DigitsValue(t + g) == 1000 * DigitsValue(t) + DigitsValue(g)
  {
    var t1 := t + [g[0]];
    var t2 := t1 + [g[1]];
    DigitsSnoc(t, g[0]);
    DigitsSnoc(t1, g[1]);
    DigitsSnoc(t2, g[2]);
    assert t2 + [g[2]] == t + g;
    GroupValue(g);
  }

  /** Tokens without digits give no numbers. */
  lemma {:induction false} NoNumberTokens(toks: seq<string>, i: nat)
    requires i <= |toks|
    requires forall k :: i <= k < |toks| ==> !IsNumberToken(toks[k])
    ensures ParseFrom(toks, i) == Ok([])
    decreases |toks| - i
  {
    if i < |toks| {
      NoNumberTokens(toks, i + 1);
    }
  }

  /** The digits of "1234567", read as thousands groups, are worth 1234567. */
  lemma MillionsValue()
    ensures DecimalFloat("1234567") == Ok(1234567.0)
  {
    assert DigitsValue("1") == 1 by {
      DigitsSnoc([], '1');
      assert [] + ['1'] == "1";
    }
    assert DigitsValue("234") == 234 by {
      GroupValue("234");
    }
    assert DigitsValue("567") == 567 by {
      GroupValue("567");
    }
    assert DigitsValue("1234") == 1234 by {
      GroupAppend("1", "234");
      assert "1" + "234" == "1234";
    }
    assert DigitsValue("1234567") == 1234567 && IsDigitString("1234567") by {
      GroupAppend("1234", "567");
      assert "1234" + "567" == "1234567";
    }
  }

  /** "1 234 567" is the single number 1234567. */
  lemma ThousandsGroups()
    ensures ParseNumbers(["1", "234", "567"]) == Ok([1234567.0])
  {
    var toks := ["1", "234", "567"];
    assert IsNumberToken(toks[0]) by {
      assert RemoveDots("1") == "1";
    }
    assert GroupEnd(toks, 1) == 3 by {
      assert IsGroup(toks[1]) && IsGroup(toks[2]);
    }
    assert Concat(toks[0..3]) == "1234567" by {
      assert toks[0..3] == toks;
      assert toks[..2] == ["1", "234"] && ["1", "234"][..1] == ["1"] && ["1"][..0] == [];
    }
    MillionsValue();
    assert ParseFrom(toks, 3) == Ok([]);
    assert ParseFrom(toks, 0) == Ok([1234567.0] + []);
    assert [1234567.0] + [] == [1234567.0];
  }

  /** Removing the dots of a token made of digits and dots leaves only digits, and at least
      one when the token has one. */
  lemma {:induction false} DotsAndDigits(t: string)
    requires forall k :: 0 <= k < |t| ==> IsDigit(t[k]) || t[k] == '.'
    ensures Digits(RemoveDots(t))
    ensures (exists k :: 0 <= k < |t| && IsDigit(t[k])) ==> |RemoveDots(t)| > 0
  {
    if |t| > 0 {
      DotsAndDigits(t[1..]);
      assert forall k :: 1 <= k < |t| ==> t[k] == t[1..][k - 1];
    }
  }

  /** "1.2.3" is digits with dots. */
  lemma TwoDotsToken()
    ensures IsNumberToken("1.2.3")
  {
    var t := "1.2.3";
    assert forall k :: 0 <= k < |t| ==> IsDigit(t[k]) || t[k] == '.';
    assert IsDigit(t[0]);
    DotsAndDigits(t);
  }

  /** `float("1.2.3")` raises. */
  lemma TwoDotsFloat()
    ensures DecimalFloat("1.2.3") == Err(ValueError("1.2.3"))
  {
    HistoricalRates.FirstIndexIsFirst("1.2.3", '.', 1);
    assert "1.2.3"[2..] == "2.3";
    assert !IsDigit("2.3"[1]);
  }

  /** A token with two dots passes the digit test but `float()` raises. */
  lemma TwoDotsRaise()
    ensures ParseNumbers(["1.2.3"]) == Err(ValueError("1.2.3"))
  {
    var toks := ["1.2.3"];
    TwoDotsToken();
    TwoDotsFloat();
    assert GroupEnd(toks, 1) == 1;
    assert Concat(toks[0..1]) == "1.2.3" by {
      assert toks[0..1] == toks && toks[..0] == [];
    }
  }

  datatype Month = Jan | Feb | Mar | Apr | May | Jun | Jul | Aug | Sep | Oct | Nov | Dec

  /** January to June close a financial year. */
  predicate ClosesFinancialYear(m: Month) {
    m.Jan? || m.Feb? || m.Mar? || m.Apr? || m.May? || m.Jun?
  }

  /** The year a month row of the financial year `currentFy` (July `currentFy - 1` to June
      `currentFy`) is filed under: its calendar year. */
  function CalendarYear(m: Month, currentFy: int): (year: int)
    ensures year == currentFy <==> ClosesFinancialYear(m)
    ensures year == currentFy - 1 <==> !ClosesFinancialYear(m)
  {
    if ClosesFinancialYear(m) then currentFy else currentFy - 1
  }

  /** Python's `round(x, 2)` on an exact value: to the nearest hundredth, halves to the even
      hundredth. */
  function Round2HalfEven(x: real): (r: real)
    ensures (100.0 * r).Floor as real == 100.0 * r
    ensures -0.005 <= r - x <= 0.005
  {
    var scaled := 100.0 * x;
    var f := scaled.Floor;
    var rest := scaled - f as real;
    var n := if rest < 0.5 then f else if rest > 0.5 then f + 1 else if f % 2 == 0 then f else f + 1;
    n as real / 100.0
  }

  /** The smallest element of a non-empty finite set of years. */
  lemma HasLeast(s: set<int>)
    requires s != {}
    ensures exists m :: m in s && forall j :: j in s ==> m <= j
    decreases |s|
  {
    assert exists x :: x in s by {
      if forall x :: x !in s {
        assert false;
      }
    }
    var x :| x in s;
    if s == {x} {
      assert forall j :: j in s ==> x <= j;
    } else {
      HasLeast(s - {x});
      var m :| m in s - {x} && forall j :: j in s - {x} ==> m <= j;
      var least := if x < m then x else m;
      forall j | j in s ensures least <= j {
        if j != x {
          assert j in s - {x};
        }
      }
      assert least in s;
    }
  }

  /** `sorted(keys)`. */
  function Sorted(s: set<int>): (ys: seq<int>)
    ensures Increasing(ys)
    ensures forall y :: y in ys <==> y in s
    decreases |s|
  {
    if s == {} then []
    else
      HasLeast(s);
      var m :| m in s && forall j :: j in s ==> m <= j;
      [m] + Sorted(s - {m})
  }

  /** Strictly increasing years. */
  predicate Increasing(years: seq<int>) {
    forall i, j :: 0 <= i < j < |years| ==> years[i] < years[j]
  }

  /** The dict comprehension of `f7_fy_returns` over the sorted years, pair by pair: each year
      that directly follows the year before it in the list gets the percentage change between
      their June values, rounded to two places. */
  function ReturnsOf(june: map<int, real>, years: seq<int>): map<int, real>
    requires forall y :: y in years ==> y in june && june[y] != 0.0
    decreases |years|
  {
    if |years| < 2 then map[]
    else
      var prior := ReturnsOf(june, years[..|years| - 1]);
      var y := years[|years| - 1];
      var before := years[|years| - 2];
      if y == before + 1 then prior[y := Round2HalfEven(100.0 * (june[y] / june[before] - 1.0))]
      else prior
  }

  /** `f7_fy_returns`. */
  function FyReturns(june: map<int, real>): map<int, real>
    requires forall y :: y in june ==> june[y] != 0.0
  {
    ReturnsOf(june, Sorted(june.Keys))
  }

  /** Dropping the last of increasing years: the rest stays increasing, the last year is
      not among the rest, and a year other than the last has its predecessor among the rest
      exactly when it has it among all of them. */
  lemma IncreasingSnoc(years: seq<int>, y: int)
    requires Increasing(years) && |years| >= 2
    ensures Increasing(years[..|years| - 1])
    ensures y in years <==> y in years[..|years| - 1] || y == years[|years| - 1]
    ensures y == years[|years| - 1] ==>
      y !in years[..|years| - 1] && (y - 1 in years <==> y - 1 == years[|years| - 2])
    ensures y in years[..|years| - 1] ==> (y - 1 in years <==> y - 1 in years[..|years| - 1])
  {
    var init := years[..|years| - 1];
    var last := years[|years| - 1];
    assert years == init + [last];
    forall z | z in init ensures z <= years[|years| - 2] < last {
      var k :| 0 <= k < |init| && init[k] == z;
    }
  }

  /** Over increasing years, a year has a return exactly when it and the year before are both
      in the list, and the return compares their June values. */
  lemma {:induction false} ReturnsOfKeys(june: map<int, real>, years: seq<int>, y: int)
    requires forall y :: y in years ==> y in june && june[y] != 0.0
    requires Increasing(years)
    ensures y in ReturnsOf(june, years) <==> y in years && y - 1 in years
    ensures y in ReturnsOf(june, years) ==>
      ReturnsOf(june, years)[y] == Round2HalfEven(100.0 * (june[y] / june[y - 1] - 1.0))
    decreases |years|
  {
    if |years| >= 2 {
      IncreasingSnoc(years, y);
      ReturnsOfKeys(june, years[..|years| - 1], y);
    }
  }

  /** A year has a return exactly when it and the year before both have a June value; the
      return is the rounded percentage change between the two. */
  lemma FyReturnsKeys(june: map<int, real>, y: int)
    requires forall y :: y in june ==> june[y] != 0.0
    ensures y in FyReturns(june) <==> y in june && y - 1 in june
    ensures y in FyReturns(june) ==>
      FyReturns(june)[y] == Round2HalfEven(100.0 * (june[y] / june[y - 1] - 1.0))
  {
    ReturnsOfKeys(june, Sorted(june.Keys), y);
  }
}
