/** Reading a brokerage activity export (utils/csv_Importer.go): money cells
    are cleaned, each data row is classified by its transaction code into a
    share trade or an option trade, and option details are taken from the
    description column. Column layout: 0 date, 3 instrument, 4 description,
    5 transaction code, 6 quantity, 7 price, 8 amount. */
module Brokerage {
  import opened Seqs
  import opened Text
  import opened Decimal
  import opened Types
  import opened Tokenizer

  // ----- money cells -----

  /** The text `CleanCurrencyString` hands to the float parser: surrounding
      quotes trimmed, '$' and ',' removed, and "(x)" rewritten as "-x". */
  function CleanCurrencyText(s: string): string
  {
    var a := TrimChars(s, {'"'});
    var b := RemoveChar(a, '$');
    var c := RemoveChar(b, ',');
    if HasPrefix(c, "(") && HasSuffix(c, ")") then "-" + TrimChars(c, {'(', ')'}) else c
  }

  /** `CleanCurrencyString`: the amount a money cell denotes, 0 when unreadable. */
  function CleanCurrency(s: string): real
  {
    ParseFloatOrZero(CleanCurrencyText(s))
  }

  /** Amount text with none of the characters the cleaning removes or rewrites. */
  predicate PlainAmount(t: string)
  {
    t != [] && forall k :: 0 <= k < |t| ==> t[k] !in {'"', '$', ',', '(', ')'}
  }

  /** Plain amount text is passed to the float parser unchanged. */
  lemma PlainAmountKept(t: string)
    requires PlainAmount(t)
    ensures CleanCurrencyText(t) == t
  {
    TrimCharsKeeps(t, {'"'});
    RemoveCharKeeps(t, '$');
    RemoveCharKeeps(t, ',');
    assert !HasPrefix(t, "(") by { assert t[0] != '('; }
  }

  /** An amount in accounting parentheses is the negated amount. */
  lemma ParenthesesNegate(t: string)
    requires PlainAmount(t) && t[0] != '-' && t[0] != '+'
    ensures CleanCurrency("(" + t + ")") == -CleanCurrency(t)
  {
    var s := "(" + t + ")";
    assert s == ['('] + t + [')'];
    assert forall k :: 0 <= k < |s| ==> s[k] != '$' && s[k] != ',' by {
      forall k | 0 <= k < |s| ensures s[k] != '$' && s[k] != ',' {
        if 0 < k < |s| - 1 {
          assert s[k] == t[k - 1];
        }
      }
    }
    assert HasPrefix(s, "(") && HasSuffix(s, ")");
    CleanWrapped(s, t);
    PlainAmountKept(t);
    NegatedFloat(t);
  }

  // The two lemmas below take the sequence facts about their text as
  // preconditions: once the trims of a text are known, the solver spends far
  // longer on sequence equalities about it.

  lemma CleanWrapped(s: string, t: string)
    requires s == ['('] + t + [')'] && PlainAmount(t)
    requires '$' !in s && ',' !in s
    requires HasPrefix(s, "(") && HasSuffix(s, ")")
    ensures CleanCurrencyText(s) == "-" + t
  {
    TrimCharsKeeps(s, {'"'});
    RemoveCharKeeps(s, '$');
    RemoveCharKeeps(s, ',');
    TrimCharsStrips('(', t, ')', {'(', ')'});
  }

  lemma CleanDollar(s: string, t: string)
    requires s != [] && s[0] != '"' && s[|s| - 1] != '"' && PlainAmount(t)
    requires RemoveChar(s, '$') == t && !HasPrefix(t, "(")
    ensures CleanCurrencyText(s) == t
  {
    TrimCharsKeeps(s, {'"'});
    RemoveCharKeeps(t, ',');
  }

  /** A leading dollar sign does not change the amount. */
  lemma DollarIgnored(t: string)
    requires PlainAmount(t)
    ensures CleanCurrency("$" + t) == CleanCurrency(t)
  {
    var s := "$" + t;
    assert s[0] == '$' && s[|s| - 1] == t[|t| - 1];
    assert s[1..] == t;
    RemoveCharKeeps(t, '$');
    assert RemoveChar(s, '$') == t;
    assert !HasPrefix(t, "(") by { assert t[0] != '('; }
    CleanDollar(s, t);
    PlainAmountKept(t);
  }

  // ----- the option description -----

  /** RE2's `\s`. */
  predicate IsReSpace(c: char)
  {
    c == ' ' || c == '\t' || c == '\n' || c == '\U{000C}' || c == '\r'
  }

  predicate IsStrikeChar(c: char)
  {
    IsDigit(c) || c == ',' || c == '.'
  }

  /** The length of the longest prefix of `s` whose characters satisfy `p`. */
  function Run(s: string, p: char -> bool): (n: nat)
    ensures n <= |s|
    ensures forall k :: 0 <= k < n ==> p(s[k])
    ensures n < |s| ==> !p(s[n])
  {
    if s != [] && p(s[0]) then 1 + Run(s[1..], p) else 0
  }

  /** `\s+`: the text after one or more leading spaces, if there are any. */
  function SkipSpaces(s: string): (r: Option<string>)
    ensures r.Some? ==> |r.value| < |s| && r.value == s[|s| - |r.value|..]
    ensures r.Some? ==> forall k :: 0 <= k < |s| - |r.value| ==> IsReSpace(s[k])
    ensures r.Some? ==> r.value == [] || !IsReSpace(r.value[0])
    ensures r.None? <==> s == [] || !IsReSpace(s[0])
  {
    var n := Run(s, IsReSpace);
    if n == 0 then None else Some(s[n..])
  }

  /** The length of a date `\d{1,2}/\d{1,2}/\d{4}` at the front of `s`. */
  function MatchDate(s: string): (r: Option<nat>)
    ensures r.Some? ==> 8 <= r.value <= 10 && r.value <= |s|
  {
    var a := Run(s, IsDigit);
    if a < 1 || a > 2 || a >= |s| || s[a] != '/' then None
    else
      var t := s[a + 1..];
      var b := Run(t, IsDigit);
      if b < 1 || b > 2 || b >= |t| || t[b] != '/' then None
      else
        var u := t[b + 1..];
        if |u| < 4 || !AllDigits(u[..4]) then None else Some(a + b + 6)
  }

  /** `(Call|Put)`. */
  function MatchKind(s: string): (r: Option<string>)
    ensures r.Some? ==> (r.value == Call || r.value == Put) && HasPrefix(s, r.value)
    ensures r.None? <==> !HasPrefix(s, Call) && !HasPrefix(s, Put)
  {
    if HasPrefix(s, Call) then Some(Call) else if HasPrefix(s, Put) then Some(Put) else None
  }

  /** `\$?([\d,.]+)`: the strike text after an optional dollar sign. */
  function MatchStrike(s: string): (r: Option<string>)
    ensures r.Some? ==> r.value != [] && forall k :: 0 <= k < |r.value| ==> IsStrikeChar(r.value[k])
  {
    var t := if s != [] && s[0] == '$' then s[1..] else s;
    var k := Run(t, IsStrikeChar);
    if k == 0 then None else Some(t[..k])
  }

  datatype DescriptionMatch = DescriptionMatch(ticker: string, expDate: string, kind: string, strike: string)

  /** The groups after the expiry date: `\s+(Call|Put)\s+\$?([\d,.]+)`. */
  function MatchKindStrike(s: string): (r: Option<(string, string)>)
    ensures r.Some? ==> r.value.0 == Call || r.value.0 == Put
    ensures r.Some? ==> r.value.1 != [] && forall k :: 0 <= k < |r.value.1| ==> IsStrikeChar(r.value.1[k])
  {
    var afterDate :- SkipSpaces(s);
    var kind :- MatchKind(afterDate);
    var afterKind :- SkipSpaces(afterDate[|kind|..]);
    var strike :- MatchStrike(afterKind);
    Some((kind, strike))
  }

  /** The groups after the ticker: `(\d{1,2}/\d{1,2}/\d{4})\s+(Call|Put)\s+\$?([\d,.]+)`. */
  function MatchContract(s: string): (r: Option<(string, string, string)>)
    ensures r.Some? ==> 8 <= |r.value.0| <= 10 && HasPrefix(s, r.value.0)
    ensures r.Some? ==> r.value.1 == Call || r.value.1 == Put
    ensures r.Some? ==> r.value.2 != [] && forall k :: 0 <= k < |r.value.2| ==> IsStrikeChar(r.value.2[k])
  {
    var dateLen :- MatchDate(s);
    var rest :- MatchKindStrike(s[dateLen..]);
    Some((s[..dateLen], rest.0, rest.1))
  }

  /** `^([A-Z]+)\s+`: the ticker and the text after the spaces that follow it. */
  function MatchTicker(s: string): (r: Option<(string, string)>)
    ensures r.Some? ==> r.value.0 != [] && HasPrefix(s, r.value.0)
    ensures r.Some? ==> forall k :: 0 <= k < |r.value.0| ==> IsUpperAscii(r.value.0[k])
  {
    var n := Run(s, IsUpperAscii);
    if n == 0 then None
    else
      var rest :- SkipSpaces(s[n..]);
      Some((s[..n], rest))
  }

  /** A match of `^([A-Z]+)\s+(\d{1,2}/\d{1,2}/\d{4})\s+(Call|Put)\s+\$?([\d,.]+)`
      with its four groups. Each element of the pattern has exactly one way to
      match at its position (a run stops where the next element must start),
      so the groups are found by reading left to right. */
  function MatchDescription(s: string): (r: Option<DescriptionMatch>)
    ensures r.Some? ==> r.value.ticker != [] && HasPrefix(s, r.value.ticker)
    ensures r.Some? ==> forall k :: 0 <= k < |r.value.ticker| ==> IsUpperAscii(r.value.ticker[k])
    ensures r.Some? ==> r.value.kind == Call || r.value.kind == Put
    ensures r.Some? ==> r.value.strike != [] && forall k :: 0 <= k < |r.value.strike| ==> IsStrikeChar(r.value.strike[k])
    ensures r.Some? ==> 8 <= |r.value.expDate| <= 10
  {
    var ticker :- MatchTicker(s);
    var groups :- MatchContract(ticker.1);
    Some(DescriptionMatch(ticker.0, groups.0, groups.1, groups.2))
  }

  /** A date written `MM/DD/YYYY` is matched whole. */
  predicate WrittenDate(date: string)
  {
    |date| == 10 && date[2] == '/' && date[5] == '/' &&
    AllDigits(date[..2]) && AllDigits(date[3..5]) && AllDigits(date[6..])
  }

  lemma MatchWrittenDate(date: string, rest: string)
    requires WrittenDate(date)
    ensures MatchDate(date + rest) == Some(10)
  {
    var s := date + rest;
    assert s == date[..2] + s[2..];
    var t := s[3..];
    assert t == date[3..5] + t[2..];
    assert t[3..][..4] == date[6..];
    assert s[2] == '/' && t[2] == '/';
    RunStops(date[..2], s[2..], IsDigit);
    RunStops(date[3..5], t[2..], IsDigit);
  }

  lemma SkipOneSpace(rest: string)
    requires rest == [] || !IsReSpace(rest[0])
    ensures SkipSpaces(" " + rest) == Some(rest)
  {
    assert (" " + rest)[1..] == rest;
    RunStops(" ", rest, IsReSpace);
  }

  lemma MatchWrittenStrike(strike: string)
    requires strike != [] && forall k :: 0 <= k < |strike| ==> IsStrikeChar(strike[k])
    ensures MatchStrike("$" + strike) == Some(strike)
  {
    assert ("$" + strike)[1..] == strike + [];
    assert (strike + [])[..|strike|] == strike;
    RunStops(strike, [], IsStrikeChar);
  }

  /** The description text of an option: its ticker, expiry date, kind and
      strike separated by single spaces, the strike after a dollar sign. */
  function Describe(ticker: string, date: string, kind: string, strike: string): string
  {
    ticker + (" " + DescribeContract(date, kind, strike))
  }

  function DescribeContract(date: string, kind: string, strike: string): string
  {
    date + (" " + (kind + (" " + ("$" + strike))))
  }

  lemma MatchWrittenKindStrike(kind: string, strike: string)
    requires kind == Call || kind == Put
    requires strike != [] && forall k :: 0 <= k < |strike| ==> IsStrikeChar(strike[k])
    ensures MatchKindStrike(" " + (kind + (" " + ("$" + strike)))) == Some((kind, strike))
  {
    var afterKind := "$" + strike;
    var afterDate := kind + (" " + afterKind);
    assert afterDate[..|kind|] == kind && afterDate[|kind|..] == " " + afterKind;
    assert afterDate[0] == kind[0];
    assert MatchKind(afterDate) == Some(kind);
    SkipOneSpace(afterDate);
    SkipOneSpace(afterKind);
    MatchWrittenStrike(strike);
  }

  lemma MatchWrittenContract(date: string, kind: string, strike: string)
    requires WrittenDate(date)
    requires kind == Call || kind == Put
    requires strike != [] && forall k :: 0 <= k < |strike| ==> IsStrikeChar(strike[k])
    ensures MatchContract(DescribeContract(date, kind, strike)) == Some((date, kind, strike))
  {
    var rest := " " + (kind + (" " + ("$" + strike)));
    var s := date + rest;
    assert s[..10] == date && s[10..] == rest;
    MatchWrittenDate(date, rest);
    MatchWrittenKindStrike(kind, strike);
  }

  /** A description written by `Describe` is matched with exactly its groups:
      the matcher finds every option the export describes this way. */
  lemma MatchesWrittenDescription(ticker: string, date: string, kind: string, strike: string)
    requires ticker != [] && forall k :: 0 <= k < |ticker| ==> IsUpperAscii(ticker[k])
    requires WrittenDate(date)
    requires kind == Call || kind == Put
    requires strike != [] && forall k :: 0 <= k < |strike| ==> IsStrikeChar(strike[k])
    ensures MatchDescription(Describe(ticker, date, kind, strike))
         == Some(DescriptionMatch(ticker, date, kind, strike))
  {
    var afterTicker := DescribeContract(date, kind, strike);
    var s := ticker + (" " + afterTicker);
    assert s[..|ticker|] == ticker && s[|ticker|..] == " " + afterTicker;
    assert afterTicker[0] == date[0];
    RunStops(ticker, " " + afterTicker, IsUpperAscii);
    SkipOneSpace(afterTicker);
    assert MatchTicker(s) == Some((ticker, afterTicker));
    MatchWrittenContract(date, kind, strike);
  }

  /** A run over `a` stops at a character different in kind. */
  lemma {:induction false} RunStops(a: string, b: string, p: char -> bool)
    requires forall k :: 0 <= k < |a| ==> p(a[k])
    requires b == [] || !p(b[0])
    ensures Run(a + b, p) == |a|
  {
    if a != [] {
      assert (a + b)[1..] == a[1..] + b;
      RunStops(a[1..], b, p);
    }
  }

  /** `parseOptionDetailsFromDescription`: fill in the option details of `trade`. */
  function ApplyDescription(trade: OptionTrade, description: string): (r: OptionTrade)
    ensures r.premium == trade.price
    ensures r.price == trade.price && r.quantity == trade.quantity && r.code == trade.code
    ensures r.date == trade.date && r.amount == trade.amount
    ensures r.optionType == trade.optionType || r.optionType == Call || r.optionType == Put
    ensures description == "" ==> r == trade.(premium := trade.price)
  {
    if description == "" then trade.(premium := trade.price)
    else match MatchDescription(description)
      case Some(m) =>
        trade.(ticker := m.ticker, expDate := m.expDate,
               optionType := if m.kind == Call then Call else Put,
               strike := ParseFloatOrZero(RemoveChar(m.strike, ',')),
               premium := trade.price)
      case None =>
        var lower := ToLower(description);
        trade.(premium := trade.price,
               optionType := if Contains(lower, "call") then Call
                             else if Contains(lower, "put") then Put
                             else trade.optionType)
  }

  /** Without a pattern match, the type comes from a case-insensitive
      search of the description in which "call" wins over "put"; a
      description naming neither leaves the type as it was. */
  lemma DescriptionSearch(trade: OptionTrade, description: string)
    requires description != "" && MatchDescription(description).None?
    ensures Contains(ToLower(description), "call") ==> ApplyDescription(trade, description).optionType == Call
    ensures !Contains(ToLower(description), "call") && Contains(ToLower(description), "put") ==>
              ApplyDescription(trade, description).optionType == Put
    ensures !Contains(ToLower(description), "call") && !Contains(ToLower(description), "put") ==>
              ApplyDescription(trade, description) == trade.(premium := trade.price)
  {
  }

  // ----- rows -----

  /** `MakeStockTradeFromBrokerageFormat`. */
  function MakeStockTrade(code: string, row: seq<string>): (r: StockTrade)
    requires |row| >= 9
    ensures r.code == code && r.date == row[0] && r.ticker == TrimSpace(row[3])
    ensures r.quantity == ParseFloatOrZero(row[6])
    ensures r.price == CleanCurrency(row[7]) && r.amount == CleanCurrency(row[8])
  {
    StockTrade(TrimSpace(row[3]), row[0], code, CleanCurrency(row[7]), CleanCurrency(row[8]),
               ParseFloatOrZero(row[6]))
  }

  /** `MakeOptionTradeFromBrokerageFormat`. */
  function MakeOptionTrade(code: string, row: seq<string>): (r: OptionTrade)
    requires |row| >= 9
    ensures r.code == code && r.date == row[0] && r.quantity == ParseFloatOrZero(row[6])
    ensures r.price == CleanCurrency(row[7]) && r.premium == r.price
    ensures r.optionType == "" || r.optionType == Call || r.optionType == Put
  {
    var trade := OptionTrade(TrimSpace(row[3]), row[0], code, CleanCurrency(row[7]),
                             CleanCurrency(row[8]), ParseFloatOrZero(row[6]), 0.0, "", "", 0.0);
    ApplyDescription(trade, TrimSpace(row[4]))
  }

  datatype RowKind = Skipped | StockRow(stock: StockTrade) | OptionRow(option: OptionTrade)

  predicate IsStockCode(code: string) { code == Buy || code == Sell }
  predicate IsOptionCode(code: string) { code == BTC || code == BTO || code == STO || code == STC }

  lemma StockCodeIsNotOptionCode(code: string)
    requires IsStockCode(code)
    ensures !IsOptionCode(code)
  {
    assert code[1] == 'u' || code[1] == 'e';
  }

  /** The transaction code of a data row. */
  function RowCode(row: seq<string>): string
    requires |row| >= 9
  {
    TrimChars(row[5], {'"', ' '})
  }

  datatype ImportedTrades = ImportedTrades(stockTrades: seq<StockTrade>, optionTrades: seq<OptionTrade>)

  datatype CsvError = EmptyCsv | HeaderOnly

  /** A share trade the import keeps: a Buy or Sell of a positive quantity. */
  predicate GoodStockTrade(t: StockTrade)
  {
    IsStockCode(t.code) && t.quantity > 0.0
  }

  /** An option trade the import keeps: an option code, a positive quantity
      and the premium taken from the price. */
  predicate GoodOptionTrade(t: OptionTrade)
  {
    IsOptionCode(t.code) && t.quantity > 0.0 && t.premium == t.price
  }

  predicate GoodStockTrades(ts: seq<StockTrade>)
  {
    forall t :: t in ts ==> GoodStockTrade(t)
  }

  predicate GoodOptionTrades(ts: seq<OptionTrade>)
  {
    forall t :: t in ts ==> GoodOptionTrade(t)
  }

  /** A data row long enough to read and naming an instrument. */
  predicate ReadableRow(row: seq<string>)
  {
    |row| >= 9 && TrimChars(row[3], {'"', ' '}) != ""
  }

  /** One data row of `ParseBrokerageCSV`: short rows, rows without an
      instrument, unknown codes and non-positive quantities are skipped. */
  function ClassifyRow(row: seq<string>): (r: RowKind)
    ensures r.StockRow? <==> ReadableRow(row) && IsStockCode(RowCode(row))
                             && MakeStockTrade(RowCode(row), row).quantity > 0.0
    ensures r.StockRow? ==> r.stock == MakeStockTrade(RowCode(row), row)
    ensures r.OptionRow? <==> ReadableRow(row) && IsOptionCode(RowCode(row))
                              && MakeOptionTrade(RowCode(row), row).quantity > 0.0
    ensures r.OptionRow? ==> r.option == MakeOptionTrade(RowCode(row), row)
    ensures r.StockRow? ==> GoodStockTrade(r.stock)
    ensures r.OptionRow? ==> GoodOptionTrade(r.option)
  {
    if !ReadableRow(row) then Skipped
    else
      var code := RowCode(row);
      if IsStockCode(code) then
        StockCodeIsNotOptionCode(code);
        var t := MakeStockTrade(code, row);
        if t.quantity > 0.0 then StockRow(t) else Skipped
      else if IsOptionCode(code) then
        var t := MakeOptionTrade(code, row);
        if t.quantity > 0.0 then OptionRow(t) else Skipped
      else Skipped
  }

  /** The trades after one more row. */
  function AddRow(trades: ImportedTrades, kind: RowKind): ImportedTrades
  {
    match kind
    case Skipped => trades
    case StockRow(t) => ImportedTrades(trades.stockTrades + [t], trades.optionTrades)
    case OptionRow(t) => ImportedTrades(trades.stockTrades, trades.optionTrades + [t])
  }

  /** The trades of `rows`, in row order. */
  function ClassifyRows(rows: seq<seq<string>>): ImportedTrades
  {
    if rows == [] then ImportedTrades([], [])
    else AddRow(ClassifyRows(rows[..|rows| - 1]), ClassifyRow(rows[|rows| - 1]))
  }

  lemma ClassifyRowsStep(rows: seq<seq<string>>, i: nat)
    requires 1 <= i < |rows|
    ensures ClassifyRows(rows[1..i + 1]) == AddRow(ClassifyRows(rows[1..i]), ClassifyRow(rows[i]))
  {
    assert rows[1..i + 1][..i - 1] == rows[1..i];
    assert rows[1..i + 1][i - 1] == rows[i];
  }

  /** Every trade the import returns is one it keeps, and there are at most
      as many trades as rows. */
  lemma {:induction false} ClassifiedTradesGood(rows: seq<seq<string>>)
    ensures GoodStockTrades(ClassifyRows(rows).stockTrades)
    ensures GoodOptionTrades(ClassifyRows(rows).optionTrades)
    ensures |ClassifyRows(rows).stockTrades| + |ClassifyRows(rows).optionTrades| <= |rows|
  {
    if rows != [] {
      ClassifiedTradesGood(rows[..|rows| - 1]);
      AddRowKeepsGood(ClassifyRows(rows[..|rows| - 1]), ClassifyRow(rows[|rows| - 1]));
    }
  }

  lemma AddRowKeepsGood(trades: ImportedTrades, kind: RowKind)
    requires GoodStockTrades(trades.stockTrades) && GoodOptionTrades(trades.optionTrades)
    requires kind.StockRow? ==> GoodStockTrade(kind.stock)
    requires kind.OptionRow? ==> GoodOptionTrade(kind.option)
    ensures GoodStockTrades(AddRow(trades, kind).stockTrades)
    ensures GoodOptionTrades(AddRow(trades, kind).optionTrades)
    ensures |AddRow(trades, kind).stockTrades| + |AddRow(trades, kind).optionTrades|
            <= |trades.stockTrades| + |trades.optionTrades| + 1
  {
  }

  /** What `ParseBrokerageCSV` returns for `csv`. */
  function ParseBrokerageSpec(csv: string): Result<ImportedTrades, CsvError>
  {
    var rows := ParseSpec(csv);
    if |rows| == 0 then Err(EmptyCsv)
    else if |rows| < 2 then Err(HeaderOnly)
    else Ok(ClassifyRows(rows[1..]))
  }

  /** A file is refused exactly when it has no data row after the header,
      and every trade read from an accepted file is one the import keeps. */
  lemma ImportedTradesGood(csv: string)
    ensures ParseBrokerageSpec(csv).Err? <==> |ParseSpec(csv)| < 2
    ensures ParseBrokerageSpec(csv) == Err(EmptyCsv) <==> ParseSpec(csv) == []
    ensures ParseBrokerageSpec(csv).Ok? ==>
              GoodStockTrades(ParseBrokerageSpec(csv).value.stockTrades) &&
              GoodOptionTrades(ParseBrokerageSpec(csv).value.optionTrades)
  {
    var rows := ParseSpec(csv);
    if |rows| >= 2 {
      ClassifiedTradesGood(rows[1..]);
    }
  }

  /** `ParseBrokerageCSV`: tokenize, reject an empty or header-only file,
      then classify every row after the header. */
  method ParseBrokerageCsv(csv: string) returns (r: Result<ImportedTrades, CsvError>)
    ensures r == ParseBrokerageSpec(csv)
  {
    var rows := Parse(csv);
    if |rows| == 0 {
      return Err(EmptyCsv);
    }
    if |rows| < 2 {
      return Err(HeaderOnly);
    }
    var stockTrades: seq<StockTrade> := [];
    var optionTrades: seq<OptionTrade> := [];
    var i := 1;
    while i < |rows|
      invariant 1 <= i <= |rows|
      invariant ImportedTrades(stockTrades, optionTrades) == ClassifyRows(rows[1..i])
    {
      ClassifyRowsStep(rows, i);
      match ClassifyRow(rows[i]) {
        case Skipped =>
        case StockRow(t) =>
          stockTrades := stockTrades + [t];
        case OptionRow(t) =>
          optionTrades := optionTrades + [t];
      }
      i := i + 1;
    }
    assert rows[1..i] == rows[1..];
    r := Ok(ImportedTrades(stockTrades, optionTrades));
  }
}
