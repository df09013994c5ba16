/** Historical rates text handling of src/utils/historicalRates.ts: the quote-aware CSV line
    splitter, the text-to-rows parse of the rates file, the per-year winner and the year range.
    JavaScript's `parseInt`/`parseFloat` are parameters (`None` stands for NaN). */
module HistoricalRates {
  import opened Wrappers

  /** The characters `String.prototype.trim` removes: white space and line terminators. */
  predicate IsJsWhitespace(c: char) {
    || c == ' ' || '\t' <= c <= '\r' || c == '\U{00A0}' || c == '\U{1680}'
    || '\U{2000}' <= c <= '\U{200A}' || c == '\U{2028}' || c == '\U{2029}'
    || c == '\U{202F}' || c == '\U{205F}' || c == '\U{3000}' || c == '\U{FEFF}'
  }

  function TrimStart(s: string): (t: string)
    ensures |t| <= |s| && t == s[|s| - |t|..]
    ensures |t| > 0 ==> !IsJsWhitespace(t[0])
    ensures forall k :: 0 <= k < |s| - |t| ==> IsJsWhitespace(s[k])
  {
    if |s| > 0 && IsJsWhitespace(s[0]) then TrimStart(s[1..]) else s
  }

  function TrimEnd(s: string): (t: string)
    ensures |t| <= |s| && t == s[..|t|]
    ensures |t| > 0 ==> !IsJsWhitespace(t[|t| - 1])
    ensures forall k :: |t| <= k < |s| ==> IsJsWhitespace(s[k])
  {
    if |s| > 0 && IsJsWhitespace(s[|s| - 1]) then TrimEnd(s[..|s| - 1]) else s
  }

  /** `s.trim()`: the longest middle stretch of `s` that neither starts nor ends with white
      space. */
  function Trim(s: string): (t: string)
    ensures |t| <= |s|
    ensures forall c :: c in t ==> c in s
    ensures |t| > 0 ==> !IsJsWhitespace(t[0]) && !IsJsWhitespace(t[|t| - 1])
  {
    TrimEnd(TrimStart(s))
  }

  /** `t` is the stretch of `s` starting at `a`, with only white space before and after it. */
  predicate StrippedAt(s: string, t: string, a: int) {
    && 0 <= a <= |s| - |t|
    && t == s[a..a + |t|]
    && (forall k :: 0 <= k < a ==> IsJsWhitespace(s[k]))
    && (forall k :: a + |t| <= k < |s| ==> IsJsWhitespace(s[k]))
  }

  /** Where the trimmed text sits in `s`: after the leading white space. */
  lemma TrimSlice(s: string) returns (a: int)
    ensures StrippedAt(s, Trim(s), a)
  {
    var u := TrimStart(s);
    a := |s| - |u|;
    var t := TrimEnd(u);
    assert t == s[a..a + |t|] by {
      assert u == s[a..];
      assert t == u[..|t|];
    }
    forall k | a + |t| <= k < |s|
      ensures IsJsWhitespace(s[k])
    {
      assert s[k] == u[k - a];
    }
  }

  /** The trimmed text is the stretch of `s` left once the white space at both ends is cut
      off: everything before and after it is white space, and it is empty exactly when `s` is
      all white space. */
  lemma TrimStrips(s: string)
    ensures exists a :: StrippedAt(s, Trim(s), a)
    ensures Trim(s) == "" <==> forall k :: 0 <= k < |s| ==> IsJsWhitespace(s[k])
  {
    var a := TrimSlice(s);
    var t := Trim(s);
    if t != "" {
      assert s[a] == t[0];
    }
  }

  function TrimAll(pieces: seq<string>): (fields: seq<string>)
    ensures |fields| == |pieces|
    ensures forall i :: 0 <= i < |pieces| ==> fields[i] == Trim(pieces[i])
  {
    if |pieces| == 0 then [] else [Trim(pieces[0])] + TrimAll(pieces[1..])
  }

  /** The commas of `line` met outside quotes, starting inside quotes when `inQuotes`. */
  function UnquotedCommas(line: string, inQuotes: bool): nat {
    if |line| == 0 then 0
    else if line[0] == '"' then UnquotedCommas(line[1..], !inQuotes)
    else (if line[0] == ',' && !inQuotes then 1 else 0) + UnquotedCommas(line[1..], inQuotes)
  }

  /** The untrimmed fields of `line`: a quote toggles quoting and is dropped, a comma outside
      quotes ends a field, every other character (a quoted comma included) is kept. */
  function Pieces(line: string, inQuotes: bool): (pieces: seq<string>)
    ensures |pieces| == 1 + UnquotedCommas(line, inQuotes)
  {
    if |line| == 0 then [""]
    else if line[0] == '"' then Pieces(line[1..], !inQuotes)
    else if line[0] == ',' && !inQuotes then [""] + Pieces(line[1..], inQuotes)
    else
      var rest := Pieces(line[1..], inQuotes);
      [[line[0]] + rest[0]] + rest[1..]
  }

  /** The fields `parseCsvLine` returns. */
  function CsvFields(line: string): seq<string> {
    TrimAll(Pieces(line, false))
  }

  /** The pieces still to come when `current` has been read of the first one. */
  function Continue(current: string, rest: seq<string>): seq<string>
    requires |rest| >= 1
  {
    [current + rest[0]] + rest[1..]
  }

  /** After reading the first `i` characters: the fields closed so far, then the current field
      continued by what the rest of the line yields. */
  predicate Scanned(line: string, i: nat, closed: seq<string>, current: string, inQuotes: bool)
    requires i <= |line|
  {
    Pieces(line, false) == closed + Continue(current, Pieces(line[i..], inQuotes))
  }

  /** `parseCsvLine`: one pass over the characters, collecting the current field. */
  method ParseCsvLine(line: string) returns (result: seq<string>)
    ensures result == CsvFields(line)
  {
    result := [];
    var current := "";
    var inQuotes := false;
    ghost var closed: seq<string> := [];
    ScanStart(line);
    for i := 0 to |line|
      invariant result == TrimAll(closed)
      invariant Scanned(line, i, closed, current, inQuotes)
    {
      result, closed, current, inQuotes := ReadChar(line, i, result, closed, current, inQuotes);
    }
    ScanEnd(line, closed, current, inQuotes);
    TrimAllAppend(closed, [current]);
    result := result + [Trim(current)];
  }

  /** The loop body of `parseCsvLine` for the character at `i`: a quote toggles quoting, a comma
      outside quotes closes the current field, anything else extends it. */
  method ReadChar(line: string, i: nat, result: seq<string>, ghost closed: seq<string>, current: string, inQuotes: bool)
    returns (result': seq<string>, ghost closed': seq<string>, current': string, inQuotes': bool)
    requires i < |line| && result == TrimAll(closed) && Scanned(line, i, closed, current, inQuotes)
    ensures result' == TrimAll(closed') && Scanned(line, i + 1, closed', current', inQuotes')
  {
    var c := line[i];
    result', closed', current', inQuotes' := result, closed, current, inQuotes;
    if c == '"' {
      QuoteStep(line, i, closed, current, inQuotes);
      inQuotes' := !inQuotes;
    } else if c == ',' && !inQuotes {
      CommaStep(line, i, closed, current, inQuotes);
      TrimAllAppend(closed, [current]);
      result' := result + [Trim(current)];
      closed' := closed + [current];
      current' := "";
    } else {
      CharStep(line, i, closed, current, inQuotes);
      current' := current + [c];
    }
  }

  lemma ContinueEmpty(rest: seq<string>)
    requires |rest| >= 1
    ensures Continue("", rest) == rest
  {
    assert "" + rest[0] == rest[0];
  }

  /** Nothing read yet. */
  lemma ScanStart(line: string)
    ensures Scanned(line, 0, [], "", false)
  {
    assert line[0..] == line;
    ContinueEmpty(Pieces(line, false));
  }

  /** The whole line read: the current field is the last one. */
  lemma ScanEnd(line: string, closed: seq<string>, current: string, inQuotes: bool)
    requires Scanned(line, |line|, closed, current, inQuotes)
    ensures Pieces(line, false) == closed + [current]
  {
    assert line[|line|..] == "";
    assert current + "" == current;
  }

  /** A quote toggles quoting and is dropped. */
  lemma QuoteStep(line: string, i: nat, closed: seq<string>, current: string, inQuotes: bool)
    requires i < |line| && line[i] == '"' && Scanned(line, i, closed, current, inQuotes)
    ensures Scanned(line, i + 1, closed, current, !inQuotes)
  {
    assert line[i..][0] == '"' && line[i..][1..] == line[i + 1..];
  }

  /** A comma outside quotes closes the current field. */
  lemma CommaStep(line: string, i: nat, closed: seq<string>, current: string, inQuotes: bool)
    requires i < |line| && line[i] == ',' && !inQuotes && Scanned(line, i, closed, current, inQuotes)
    ensures Scanned(line, i + 1, closed + [current], "", inQuotes)
  {
    assert line[i..][0] == ',' && line[i..][1..] == line[i + 1..];
    var next := Pieces(line[i + 1..], inQuotes);
    ContinueEmpty(next);
    assert current + ([""] + next)[0] == current;
    assert ([""] + next)[1..] == next;
  }

  /** Any other character extends the current field. */
  lemma CharStep(line: string, i: nat, closed: seq<string>, current: string, inQuotes: bool)
    requires i < |line| && line[i] != '"' && !(line[i] == ',' && !inQuotes)
    requires Scanned(line, i, closed, current, inQuotes)
    ensures Scanned(line, i + 1, closed, current + [line[i]], inQuotes)
  {
    var c := line[i];
    assert line[i..][0] == c && line[i..][1..] == line[i + 1..];
    var next := Pieces(line[i + 1..], inQuotes);
    assert current + ([c] + next[0]) == (current + [c]) + next[0];
  }

  lemma {:induction false} TrimAllAppend(a: seq<string>, b: seq<string>)
    ensures TrimAll(a + b) == TrimAll(a) + TrimAll(b)
  {
    if |a| > 0 {
      assert (a + b)[1..] == a[1..] + b;
      TrimAllAppend(a[1..], b);
    } else {
      assert a + b == b;
    }
  }

  /** A line always yields one field more than it has commas outside quotes, so at least one. */
  lemma FieldCount(line: string)
    ensures |CsvFields(line)| == 1 + UnquotedCommas(line, false)
    ensures |CsvFields(line)| >= 1
  {
  }

  /** Quotes only toggle quoting: no piece contains one. */
  lemma {:induction false} PiecesHaveNoQuotes(line: string, inQuotes: bool)
    ensures forall i :: 0 <= i < |Pieces(line, inQuotes)| ==> '"' !in Pieces(line, inQuotes)[i]
  {
    if |line| > 0 {
      PiecesHaveNoQuotes(line[1..], inQuotes);
      PiecesHaveNoQuotes(line[1..], !inQuotes);
    }
  }

  /** No field of a parsed line contains a quote character, and no field starts or ends with
      white space. */
  lemma FieldsHaveNoQuotes(line: string)
    ensures forall i :: 0 <= i < |CsvFields(line)| ==> '"' !in CsvFields(line)[i]
    ensures forall i :: 0 <= i < |CsvFields(line)| && |CsvFields(line)[i]| > 0 ==>
              !IsJsWhitespace(CsvFields(line)[i][0])
  {
    PiecesHaveNoQuotes(line, false);
  }

  /** The index of the first `sep` in `s`. */
  function FirstIndex(s: string, sep: char): (k: nat)
    requires sep in s
    ensures k < |s| && s[k] == sep && sep !in s[..k]
  {
    if s[0] == sep then 0 else FirstIndex(s[1..], sep) + 1
  }

  /** `s.split(sep)`: the stretches between separators, as many as separators plus one. */
  function SplitOn(s: string, sep: char): (parts: seq<string>)
    decreases |s|
  {
    if sep !in s then [s]
    else
      var k := FirstIndex(s, sep);
      [s[..k]] + SplitOn(s[k + 1..], sep)
  }

  /** On a line without quotes the splitter is a plain split on commas, each piece trimmed. */
  lemma {:induction false} PiecesWithoutQuotes(line: string)
    requires '"' !in line
    ensures Pieces(line, false) == SplitOn(line, ',')
    decreases |line|
  {
    if |line| > 0 {
      assert '"' !in line[1..] by {
        forall c | c in line[1..] ensures c != '"' { assert c in line; }
      }
      PiecesWithoutQuotes(line[1..]);
      if line[0] != ',' {
        if ',' in line {
          var k := FirstIndex(line, ',');
          assert line[1..][..k - 1] == line[1..k];
          assert ',' !in line[1..][..k - 1];
          assert line[1..][k - 1] == ',';
          FirstIndexIsFirst(line[1..], ',', k - 1);
          assert line[1..][k - 1 + 1..] == line[k + 1..];
          assert [line[0]] + line[1..k] == line[..k];
        } else {
          assert ',' !in line[1..] by {
            forall c | c in line[1..] ensures c != ',' { assert c in line; }
          }
          assert [line[0]] + line[1..] == line;
        }
      }
    }
  }

  lemma FirstIndexIsFirst(s: string, sep: char, k: nat)
    requires k < |s| && s[k] == sep && sep !in s[..k]
    ensures sep in s && FirstIndex(s, sep) == k
  {
    assert s[k] in s;
  }

  lemma PlainSplit(line: string)
    requires '"' !in line
    ensures CsvFields(line) == TrimAll(SplitOn(line, ','))
  {
    PiecesWithoutQuotes(line);
  }

  /** The text's lines, split on `\n` with one `\r` before each `\n` removed (`/\r?\n/`). */
  function SplitLines(text: string): seq<string> {
    var parts := SplitOn(text, '\n');
    seq(|parts|, i requires 0 <= i < |parts| =>
      if i < |parts| - 1 && |parts[i]| > 0 && parts[i][|parts[i]| - 1] == '\r' then parts[i][..|parts[i]| - 1]
      else parts[i])
  }

  /** A line that is not empty and does not start with `#`. */
  predicate IsContentLine(l: string) {
    |l| > 0 && l[0] != '#'
  }

  /** The lines kept: those that are not empty and do not start with `#`, in their order. The
      first kept line is the first content line, and nothing is kept when there is none. */
  function ContentLines(lines: seq<string>): (kept: seq<string>)
    ensures |kept| <= |lines|
    ensures forall i :: 0 <= i < |kept| ==> IsContentLine(kept[i])
    ensures forall l :: l in lines && IsContentLine(l) ==> l in kept
    ensures forall l :: l in kept ==> l in lines
    ensures |kept| > 0 ==> exists i :: (0 <= i < |lines| && lines[i] == kept[0]
              && forall j :: 0 <= j < i ==> !IsContentLine(lines[j]))
    ensures |kept| == 0 <==> forall i :: 0 <= i < |lines| ==> !IsContentLine(lines[i])
  {
    if |lines| == 0 then []
    else
      var rest := ContentLines(lines[1..]);
      assert forall l :: l in lines[1..] ==> l in lines;
      if IsContentLine(lines[0]) then [lines[0]] + rest
      else
        assert forall i :: 1 <= i < |lines| ==> lines[i] == lines[1..][i - 1];
        assert |rest| > 0 ==> exists i :: (1 <= i < |lines| && lines[i] == rest[0]
          && forall j :: 0 <= j < i ==> !IsContentLine(lines[j])) by {
          if |rest| > 0 {
            var i :| 0 <= i < |lines[1..]| && lines[1..][i] == rest[0]
              && forall j :: 0 <= j < i ==> !IsContentLine(lines[1..][j]);
            assert lines[i + 1] == rest[0];
          }
        }
        rest
  }

  /** Filtering keeps the order: the content lines of two stretches of text are those of the
      first followed by those of the second. */
  lemma {:induction false} ContentLinesAppend(a: seq<string>, b: seq<string>)
    ensures ContentLines(a + b) == ContentLines(a) + ContentLines(b)
  {
    if |a| > 0 {
      assert (a + b)[1..] == a[1..] + b;
      ContentLinesAppend(a[1..], b);
    } else {
      assert a + b == b;
    }
  }

  datatype HistoricalYearRates = HistoricalYearRates(financialYear: int, housingLendingRatePct: real, asxReturnPct: real)

  datatype LoadError = NoHeader | MissingColumns

  /** The JavaScript number parsers; `None` is NaN. */
  datatype Parsers = Parsers(parseInt: string -> Option<int>, parseFloat: string -> Option<real>)

  datatype Columns = Columns(year: nat, mortgage: nat, asx: nat)

  /** `xs.indexOf(x)`: the first position of `x`, or -1. */
  function IndexOf(xs: seq<string>, x: string): (i: int)
    ensures i == -1 <==> x !in xs
    ensures i != -1 ==> 0 <= i < |xs| && xs[i] == x && x !in xs[..i]
  {
    if |xs| == 0 then -1
    else if xs[0] == x then 0
    else
      var j := IndexOf(xs[1..], x);
      assert xs[1..][..(if j == -1 then 0 else j)] == xs[1..(if j == -1 then 1 else j + 1)];
      if j == -1 then -1 else j + 1
  }

  /** The three columns the rates need, looked up in the header. */
  function FindColumns(header: seq<string>): (r: Result<Columns, LoadError>)
    ensures r.Err? <==>
      "financial_year" !in header || "housing_lending_rate_pct" !in header || "asx_return_pct" !in header
    ensures r.Ok? ==>
      && r.value.year < |header| && header[r.value.year] == "financial_year"
      && r.value.mortgage < |header| && header[r.value.mortgage] == "housing_lending_rate_pct"
      && r.value.asx < |header| && header[r.value.asx] == "asx_return_pct"
    ensures r.Ok? ==>
      && "financial_year" !in header[..r.value.year]
      && "housing_lending_rate_pct" !in header[..r.value.mortgage]
      && "asx_return_pct" !in header[..r.value.asx]
  {
    var yearIdx := IndexOf(header, "financial_year");
    var mortgageIdx := IndexOf(header, "housing_lending_rate_pct");
    var asxIdx := IndexOf(header, "asx_return_pct");
    if yearIdx == -1 || mortgageIdx == -1 || asxIdx == -1 then Err(MissingColumns)
    else Ok(Columns(yearIdx, mortgageIdx, asxIdx))
  }

  /** A field of a row; a missing one parses as NaN. */
  function Field<T>(row: seq<string>, index: nat, parse: string -> Option<T>): Option<T> {
    if index < |row| then parse(row[index]) else None
  }

  /** One data row, or `None` when any of its three numbers is NaN. */
  function ParseRow(parsers: Parsers, columns: Columns, row: seq<string>): (r: Option<HistoricalYearRates>)
    ensures r.Some? <==>
      Field(row, columns.year, parsers.parseInt).Some?
      && Field(row, columns.mortgage, parsers.parseFloat).Some?
      && Field(row, columns.asx, parsers.parseFloat).Some?
    ensures r.Some? ==>
      r.value == HistoricalYearRates(Field(row, columns.year, parsers.parseInt).value,
                                     Field(row, columns.mortgage, parsers.parseFloat).value,
                                     Field(row, columns.asx, parsers.parseFloat).value)
  {
    match (Field(row, columns.year, parsers.parseInt), Field(row, columns.mortgage, parsers.parseFloat),
           Field(row, columns.asx, parsers.parseFloat))
    case (Some(year), Some(mortgage), Some(asx)) => Some(HistoricalYearRates(year, mortgage, asx))
    case _ => None
  }

  /** The rate of one data line, or `None` when the row does not parse. */
  function LineRate(parsers: Parsers, columns: Columns, line: string): Option<HistoricalYearRates> {
    ParseRow(parsers, columns, CsvFields(line))
  }

  /** The rates of the data lines, in order, skipping the rows that do not parse. */
  function ParseRows(parsers: Parsers, columns: Columns, lines: seq<string>): (rates: seq<HistoricalYearRates>)
    ensures |rates| <= |lines|
  {
    if |lines| == 0 then []
    else
      var previous := ParseRows(parsers, columns, lines[..|lines| - 1]);
      match LineRate(parsers, columns, lines[|lines| - 1])
      case Some(r) => previous + [r]
      case None => previous
  }

  /** Every rate comes from a data line that parses. */
  lemma {:induction false} ParseRowsSound(parsers: Parsers, columns: Columns, lines: seq<string>, k: nat)
    requires k < |ParseRows(parsers, columns, lines)|
    ensures exists i :: 0 <= i < |lines| && LineRate(parsers, columns, lines[i]) == Some(ParseRows(parsers, columns, lines)[k])
  {
    var init := lines[..|lines| - 1];
    var previous := ParseRows(parsers, columns, init);
    if k < |previous| {
      ParseRowsSound(parsers, columns, init, k);
      var i :| 0 <= i < |init| && LineRate(parsers, columns, init[i]) == Some(previous[k]);
      assert lines[i] == init[i];
    } else {
      assert LineRate(parsers, columns, lines[|lines| - 1]) == Some(ParseRows(parsers, columns, lines)[k]);
    }
  }

  /** Every data line that parses gives its rate. */
  lemma {:induction false} ParseRowsComplete(parsers: Parsers, columns: Columns, lines: seq<string>, i: nat)
    requires i < |lines| && LineRate(parsers, columns, lines[i]).Some?
    ensures LineRate(parsers, columns, lines[i]).value in ParseRows(parsers, columns, lines)
  {
    var init := lines[..|lines| - 1];
    if i < |lines| - 1 {
      assert init[i] == lines[i];
      ParseRowsComplete(parsers, columns, init, i);
    }
  }

  /** The text-to-rows part of `loadHistoricalRates`: the first kept line is the header. */
  function LoadRates(parsers: Parsers, text: string): Result<seq<HistoricalYearRates>, LoadError> {
    var lines := ContentLines(SplitLines(text));
    if |lines| == 0 then Err(NoHeader)
    else match FindColumns(CsvFields(lines[0]))
      case Err(e) => Err(e)
      case Ok(columns) => Ok(ParseRows(parsers, columns, lines[1..]))
  }

  /** Loading fails exactly when there is no header line or the header lacks one of the three
      columns. */
  lemma LoadErrors(parsers: Parsers, text: string)
    ensures var lines := ContentLines(SplitLines(text));
      LoadRates(parsers, text).Err? <==>
        |lines| == 0
        || "financial_year" !in CsvFields(lines[0])
        || "housing_lending_rate_pct" !in CsvFields(lines[0])
        || "asx_return_pct" !in CsvFields(lines[0])
  {
  }

  /** The loader's loop over the data lines: each is split, parsed, and kept when it parses. */
  method ParseDataLines(parsers: Parsers, columns: Columns, data: seq<string>) returns (rates: seq<HistoricalYearRates>)
    ensures rates == ParseRows(parsers, columns, data)
  {
    rates := [];
    for i := 0 to |data|
      invariant rates == ParseRows(parsers, columns, data[..i])
    {
      var row := ParseCsvLine(data[i]);
      var parsed := ParseRow(parsers, columns, row);
      assert data[..i + 1][..i] == data[..i] && data[..i + 1][i] == data[i];
      if parsed.Some? {
        rates := rates + [parsed.value];
      }
    }
    assert data[..|data|] == data;
  }

  /** `loadHistoricalRates` once the text is fetched: header lookup, then the data lines. */
  method ParseHistoricalRates(parsers: Parsers, text: string) returns (r: Result<seq<HistoricalYearRates>, LoadError>)
    ensures r == LoadRates(parsers, text)
  {
    var lines := ContentLines(SplitLines(text));
    if |lines| == 0 {
      return Err(NoHeader);
    }
    var header := ParseCsvLine(lines[0]);
    var columns := FindColumns(header);
    if columns.Err? {
      return Err(columns.error);
    }
    var rates := ParseDataLines(parsers, columns.value, lines[1..]);
    r := Ok(rates);
  }

  datatype OffsetVsInvestWinner = Offset | Invest | Tie

  function Abs(x: real): real { if x < 0.0 then -x else x }

  /** A tie within a hundredth of a percentage point; otherwise the larger rate wins. */
  function GetWinnerForYear(mortgagePct: real, asxReturnPct: real): (w: OffsetVsInvestWinner)
    ensures w == Tie <==> -0.01 < asxReturnPct - mortgagePct < 0.01
    ensures w == Invest <==> asxReturnPct - mortgagePct >= 0.01
    ensures w == Offset <==> asxReturnPct - mortgagePct <= -0.01
  {
    var diff := asxReturnPct - mortgagePct;
    if Abs(diff) < 0.01 then Tie
    else if diff > 0.0 then Invest
    else Offset
  }

  datatype HistoricalYearWithWinner = HistoricalYearWithWinner(rates: HistoricalYearRates, winner: OffsetVsInvestWinner)

  /** Each year tagged with its winner, in the same order. */
  function HistoricalRatesWithWinners(rates: seq<HistoricalYearRates>): (tagged: seq<HistoricalYearWithWinner>)
    ensures |tagged| == |rates|
    ensures forall i :: 0 <= i < |rates| ==>
              tagged[i].rates == rates[i]
              && tagged[i].winner == GetWinnerForYear(rates[i].housingLendingRatePct, rates[i].asxReturnPct)
  {
    seq(|rates|, i requires 0 <= i < |rates| =>
      HistoricalYearWithWinner(rates[i], GetWinnerForYear(rates[i].housingLendingRatePct, rates[i].asxReturnPct)))
  }

  function MinYear(rates: seq<HistoricalYearRates>): (y: int)
    requires |rates| > 0
    ensures exists i :: 0 <= i < |rates| && rates[i].financialYear == y
    ensures forall i :: 0 <= i < |rates| ==> y <= rates[i].financialYear
  {
    if |rates| == 1 then rates[0].financialYear
    else
      var rest := MinYear(rates[1..]);
      assert forall i :: 1 <= i < |rates| ==> rates[i] == rates[1..][i - 1];
      MinInt(rates[0].financialYear, rest)
  }

  function MaxYear(rates: seq<HistoricalYearRates>): (y: int)
    requires |rates| > 0
    ensures exists i :: 0 <= i < |rates| && rates[i].financialYear == y
    ensures forall i :: 0 <= i < |rates| ==> rates[i].financialYear <= y
  {
    if |rates| == 1 then rates[0].financialYear
    else
      var rest := MaxYear(rates[1..]);
      assert forall i :: 1 <= i < |rates| ==> rates[i] == rates[1..][i - 1];
      MaxInt(rates[0].financialYear, rest)
  }

  const DefaultMinYear: int := 1981
  const DefaultMaxYear: int := 2023

  datatype YearRange = YearRange(minYear: int, maxYear: int)

  /** The first and last financial year present, or 1981-2023 when there are no rates. */
  function YearRangeFromRates(rates: seq<HistoricalYearRates>): (r: YearRange)
    ensures |rates| == 0 ==> r == YearRange(DefaultMinYear, DefaultMaxYear)
    ensures r.minYear <= r.maxYear
    ensures |rates| > 0 ==>
      && (exists i :: 0 <= i < |rates| && rates[i].financialYear == r.minYear)
      && (exists i :: 0 <= i < |rates| && rates[i].financialYear == r.maxYear)
      && forall i :: 0 <= i < |rates| ==> r.minYear <= rates[i].financialYear <= r.maxYear
  {
    if |rates| == 0 then YearRange(DefaultMinYear, DefaultMaxYear)
    else YearRange(MinYear(rates), MaxYear(rates))
  }
}
