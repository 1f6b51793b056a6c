/** The date helpers of handlers/utils.go. Go's `time.Parse` is modelled for the
    five layouts the core uses: "1/2/2006", "01/02/2006", "2006-01-02",
    "01/02/06" and "1/2/06". A month or day field reads one or two digits
    ("1" layouts) or exactly two ("01" layouts); a four-digit year must start
    with a digit; a two-digit year may carry a sign and maps 69..99 to the
    1900s and everything else to the 2000s; the month must be 1..12, the day
    must exist in that month, and no text may follow. */
module Dates {
  import opened Seqs
  import opened Text
  import opened Decimal

  datatype Date = Date(year: int, month: int, day: int)

  predicate IsLeap(year: int)
  {
    year % 4 == 0 && (year % 100 != 0 || year % 400 == 0)
  }

  function DaysIn(month: int, year: int): int
  {
    if month == 2 then (if IsLeap(year) then 29 else 28)
    else if month == 4 || month == 6 || month == 9 || month == 11 then 30
    else 31
  }

  /** A calendar date `time.Parse` can produce from a four-digit year. */
  predicate ValidDate(d: Date)
  {
    0 <= d.year <= 9999 && 1 <= d.month <= 12 && 1 <= d.day <= DaysIn(d.month, d.year)
  }

  /** Chronological order of dates (all parsed at midnight UTC). */
  predicate Before(a: Date, b: Date)
  {
    a.year < b.year || (a.year == b.year && (a.month < b.month || (a.month == b.month && a.day < b.day)))
  }

  predicate DateLe(a: Date, b: Date)
  {
    !Before(b, a)
  }

  // ----- time.Parse -----

  datatype Chunk = NumMonth | ZeroMonth | NumDay | ZeroDay | LongYear | ShortYear | Sep(c: char)

  /** A layout: three fields separated by two separator characters. */
  datatype Layout = Layout(first: Chunk, sep1: char, second: Chunk, sep2: char, third: Chunk)

  const MonthDayLongYear := Layout(NumMonth, '/', NumDay, '/', LongYear)        // "1/2/2006"
  const ZeroMonthDayLongYear := Layout(ZeroMonth, '/', ZeroDay, '/', LongYear)  // "01/02/2006"
  const Iso := Layout(LongYear, '-', ZeroMonth, '-', ZeroDay)                  // "2006-01-02"
  const ZeroMonthDayYear := Layout(ZeroMonth, '/', ZeroDay, '/', ShortYear)     // "01/02/06"
  const MonthDayYear := Layout(NumMonth, '/', NumDay, '/', ShortYear)           // "1/2/06"

  datatype Fields = Fields(year: int, month: int, day: int)
  datatype Scan = Scan(fields: Fields, rest: string)

  datatype Num = Num(value: int, rest: string)

  /** Go's `getnum`: one or two leading digits; exactly two when `fixed`. */
  function GetNum(s: string, fixed: bool): (r: Option<Num>)
    ensures r.Some? ==> 0 <= r.value.value <= 99 && |r.value.rest| < |s|
    ensures r.Some? ==> r.value.rest == s[|s| - |r.value.rest|..]
    ensures r.Some? ==> |r.value.rest| + 2 <= |s| || (!fixed && |r.value.rest| + 1 == |s|)
  {
    if |s| == 0 || !IsDigit(s[0]) then None
    else if |s| < 2 || !IsDigit(s[1]) then
      (if fixed then None else Some(Num(DigitValue(s[0]), s[1..])))
    else Some(Num(DigitValue(s[0]) * 10 + DigitValue(s[1]), s[2..]))
  }

  /** Go's `atoi`: an optional sign followed by decimal digits and nothing else. */
  function Atoi(s: string): (r: Option<int>)
    ensures AllDigits(s) ==> r == Some(DigitsValue(s) as int)
    ensures r.Some? ==> -(Pow10(|s|) as int) < r.value < Pow10(|s|)
    ensures r.Some? && |s| > 0 && IsDigit(s[0]) ==> AllDigits(s) && r.value >= 0
  {
    var neg := |s| > 0 && s[0] == '-';
    var digits := if |s| > 0 && (s[0] == '-' || s[0] == '+') then s[1..] else s;
    if AllDigits(digits) then Some(if neg then -(DigitsValue(digits) as int) else DigitsValue(digits))
    else None
  }

  /** The year and month of a partly read date are in range (the day is checked last). */
  predicate FieldsInRange(f: Fields)
  {
    0 <= f.year <= 9999 && 1 <= f.month <= 12
  }

  /** Reads one layout element from the front of `s`. */
  function ParseChunk(c: Chunk, s: string, f: Fields): (r: Option<Scan>)
    ensures r.Some? && FieldsInRange(f) ==> FieldsInRange(r.value.fields)
    ensures r.Some? ==> |r.value.rest| < |s|
  {
    match c
    case Sep(ch) =>
      if |s| > 0 && s[0] == ch then Some(Scan(f, s[1..])) else None
    case NumMonth =>
      var n :- GetNum(s, false);
      if 1 <= n.value <= 12 then Some(Scan(f.(month := n.value), n.rest)) else None
    case ZeroMonth =>
      var n :- GetNum(s, true);
      if 1 <= n.value <= 12 then Some(Scan(f.(month := n.value), n.rest)) else None
    case NumDay =>
      var n :- GetNum(s, false);
      Some(Scan(f.(day := n.value), n.rest))
    case ZeroDay =>
      var n :- GetNum(s, true);
      Some(Scan(f.(day := n.value), n.rest))
    case LongYear =>
      if |s| < 4 || !IsDigit(s[0]) then None
      else
        var y :- Atoi(s[..4]);
        Some(Scan(f.(year := y), s[4..]))
    case ShortYear =>
      if |s| < 2 then None
      else
        var y :- Atoi(s[..2]);
        Some(Scan(f.(year := if y >= 69 then y + 1900 else y + 2000), s[2..]))
  }

  /** The first four elements of `l` read from the front of `s`. */
  function ParseFront(l: Layout, s: string): (r: Option<Scan>)
    ensures r.Some? ==> FieldsInRange(r.value.fields)
  {
    var s1 :- ParseChunk(l.first, s, Fields(1, 1, 1));
    var s2 :- ParseChunk(Sep(l.sep1), s1.rest, s1.fields);
    var s3 :- ParseChunk(l.second, s2.rest, s2.fields);
    ParseChunk(Sep(l.sep2), s3.rest, s3.fields)
  }

  /** `time.Parse(layout, s)`, keeping only the calendar date. */
  function ParseLayout(l: Layout, s: string): (r: Option<Date>)
    ensures r.Some? ==> ValidDate(r.value)
  {
    var s4 :- ParseFront(l, s);
    var s5 :- ParseChunk(l.third, s4.rest, s4.fields);
    var f := s5.fields;
    if s5.rest == [] && 1 <= f.day <= DaysIn(f.month, f.year) then Some(Date(f.year, f.month, f.day))
    else None
  }

  /** `ParseDateToTime`: the first of the five layouts that accepts `s`. */
  function ParseDateToTime(s: string): (r: Option<Date>)
    ensures r.Some? ==> ValidDate(r.value)
  {
    match ParseLayout(MonthDayLongYear, s)
    case Some(d) => Some(d)
    case None =>
      match ParseLayout(ZeroMonthDayLongYear, s)
      case Some(d) => Some(d)
      case None =>
        match ParseLayout(Iso, s)
        case Some(d) => Some(d)
        case None =>
          match ParseLayout(ZeroMonthDayYear, s)
          case Some(d) => Some(d)
          case None => ParseLayout(MonthDayYear, s)
  }

  // ----- Time.Format -----

  /** `n` in decimal with at least two digits. */
  function Pad2(n: nat): (r: string)
    requires n <= 99
    ensures |r| == 2 && AllDigits(r)
  {
    [DigitChar(n / 10), DigitChar(n % 10)]
  }

  /** `n` in decimal without padding. */
  function NoPad(n: nat): (r: string)
    requires 1 <= n <= 99
    ensures 1 <= |r| <= 2 && AllDigits(r)
  {
    if n < 10 then [DigitChar(n)] else Pad2(n)
  }

  function Pad4(n: nat): (r: string)
    requires n <= 9999
    ensures |r| == 4 && AllDigits(r)
  {
    var q1 := n / 10;
    var q2 := q1 / 10;
    [DigitChar(q2 / 10), DigitChar(q2 % 10), DigitChar(q1 % 10), DigitChar(n % 10)]
  }

  /** `Format("01/02/06")`. */
  function FormatMMDDYY(d: Date): (r: string)
    requires ValidDate(d)
    ensures |r| == 8 && r[2] == '/' && r[5] == '/'
  {
    Pad2(d.month) + "/" + Pad2(d.day) + "/" + Pad2(d.year % 100)
  }

  /** `Format("1/2/2006")`. */
  function FormatMDYYYY(d: Date): (r: string)
    requires ValidDate(d)
  {
    NoPad(d.month) + "/" + NoPad(d.day) + "/" + Pad4(d.year)
  }

  // ----- the helpers of handlers/utils.go -----

  /** `FormatDate`: an ISO date shown as MM/DD/YY; anything else unchanged. */
  function FormatDate(s: string): (r: string)
    ensures ParseLayout(Iso, s).None? ==> r == s
    ensures ParseLayout(Iso, s).Some? ==> |r| == 8 && r[2] == '/' && r[5] == '/'
  {
    match ParseLayout(Iso, s)
    case None => s
    case Some(d) => FormatMMDDYY(d)
  }

  /** `ConvertFilterDate`: an ISO filter date rewritten as M/D/YYYY; anything else unchanged. */
  function ConvertFilterDate(s: string): (r: string)
    ensures ParseLayout(Iso, s).None? ==> r == s
  {
    if s == "" then ""
    else match ParseLayout(Iso, s)
      case None => s
      case Some(d) => FormatMDYYYY(d)
  }

  /** `NormalizeDateToMMDDYY`: any accepted date rewritten as MM/DD/YY. */
  function NormalizeDate(s: string): (r: string)
    ensures ParseDateToTime(s).None? ==> r == s
    ensures ParseDateToTime(s).Some? ==> |r| == 8 && r[2] == '/' && r[5] == '/'
  {
    if s == "" then ""
    else match ParseDateToTime(s)
      case None => s
      case Some(d) => FormatMMDDYY(d)
  }

  /** `IsDateInRange`: an unreadable date is always kept; an empty or unreadable
      bound does not restrict; otherwise both bounds are inclusive. */
  function IsDateInRange(date: string, from: string, to: string): (r: bool)
    ensures ParseDateToTime(date).None? ==> r
    ensures ParseDateToTime(date).Some? ==>
      (r <==>
        (ParseDateToTime(from).None? || DateLe(ParseDateToTime(from).value, ParseDateToTime(date).value)) &&
        (ParseDateToTime(to).None? || DateLe(ParseDateToTime(date).value, ParseDateToTime(to).value)))
  {
    match ParseDateToTime(date)
    case None => true
    case Some(d) =>
      var afterFrom := from == "" || (match ParseDateToTime(from) case None => true case Some(f) => !Before(d, f));
      var beforeTo := to == "" || (match ParseDateToTime(to) case None => true case Some(t) => !Before(t, d));
      afterFrom && beforeTo
  }

  // ----- properties -----

  lemma DigitsValue2(s: string)
    requires |s| == 2 && AllDigits(s)
    ensures DigitsValue(s) == 10 * DigitValue(s[0]) + DigitValue(s[1])
  {
    assert s[..1][..0] == [];
  }

  lemma DigitsValue4(s: string)
    requires |s| == 4 && AllDigits(s)
    ensures DigitsValue(s) == 1000 * DigitValue(s[0]) + 100 * DigitValue(s[1]) + 10 * DigitValue(s[2]) + DigitValue(s[3])
  {
    assert s[..3][..2] == s[..2] && s[..3][2] == s[2];
    assert s[..2][..1] == s[..1] && s[..2][1] == s[1];
    assert s[..1][..0] == [] && s[..1][0] == s[0];
    assert DigitsValue(s[..1]) == DigitValue(s[0]);
    assert DigitsValue(s[..2]) == 10 * DigitValue(s[0]) + DigitValue(s[1]);
    assert DigitsValue(s[..3]) == 100 * DigitValue(s[0]) + 10 * DigitValue(s[1]) + DigitValue(s[2]);
  }

  /** Two padded digits read back as the number they write. */
  lemma GetNumPad2(n: nat, rest: string, fixed: bool)
    requires n <= 99
    requires rest == [] || !IsDigit(rest[0])
    ensures GetNum(Pad2(n) + rest, fixed) == Some(Num(n, rest))
  {
    assert (Pad2(n) + rest)[2..] == rest;
  }

  /** An unpadded month or day reads back through a one-or-two digit field. */
  lemma GetNumNoPad(n: nat, rest: string)
    requires 1 <= n <= 99
    requires rest == [] || !IsDigit(rest[0])
    ensures GetNum(NoPad(n) + rest, false) == Some(Num(n, rest))
  {
    if n < 10 {
      assert (NoPad(n) + rest)[1..] == rest;
    } else {
      GetNumPad2(n, rest, false);
    }
  }

  lemma AtoiPad2(n: nat)
    requires n <= 99
    ensures Atoi(Pad2(n)) == Some(n)
  {
    DigitsValue2(Pad2(n));
  }

  lemma AtoiPad4(n: nat)
    requires n <= 9999
    ensures Atoi(Pad4(n)) == Some(n)
  {
    var p := Pad4(n);
    DigitsValue4(p);
    var q1 := n / 10;
    var q2 := q1 / 10;
    assert DigitValue(p[0]) == q2 / 10 && DigitValue(p[1]) == q2 % 10;
    assert DigitValue(p[2]) == q1 % 10 && DigitValue(p[3]) == n % 10;
  }

  /** The two-digit-year rule of `time.Parse`. */
  function ExpandYear(yy: int): int
  {
    if yy >= 69 then yy + 1900 else yy + 2000
  }

  lemma ExpandYearDigits(yy: int)
    requires 0 <= yy < 100
    ensures 0 <= ExpandYear(yy) && ExpandYear(yy) % 100 == yy
  {
    if yy >= 69 {
      assert ExpandYear(yy) == 19 * 100 + yy;
    } else {
      assert ExpandYear(yy) == 20 * 100 + yy;
    }
  }

  /** Rendering as M/D/YYYY and reading back gives the same date. */
  lemma {:induction false} ParseFormatMDYYYY(d: Date)
    requires ValidDate(d)
    ensures ParseDateToTime(FormatMDYYYY(d)) == Some(d)
  {
    var y := MDYYYYPrefix(d);
    assert ParseChunk(LongYear, y, Fields(1, d.month, d.day)) == Some(Scan(Fields(d.year, d.month, d.day), [])) by {
      assert y[..4] == y && y[4..] == [];
      AtoiPad4(d.year);
    }
    assert ParseLayout(MonthDayLongYear, FormatMDYYYY(d)) == Some(d);
  }

  /** The two fields before the year of M/D/YYYY. */
  lemma MDYYYYPrefix(d: Date) returns (rest: string)
    requires ValidDate(d)
    ensures rest == Pad4(d.year)
    ensures ParseFront(MonthDayLongYear, FormatMDYYYY(d)) == Some(Scan(Fields(1, d.month, d.day), rest))
  {
    var m, dd, y := NoPad(d.month), NoPad(d.day), Pad4(d.year);
    var r3 := "/" + y;
    var r2 := dd + r3;
    var r1 := "/" + r2;
    var s := m + r1;
    assert s == FormatMDYYYY(d);
    var f1 := Fields(1, d.month, 1);
    var f3 := Fields(1, d.month, d.day);
    assert ParseChunk(NumMonth, s, Fields(1, 1, 1)) == Some(Scan(f1, r1)) by {
      GetNumNoPad(d.month, r1);
    }
    assert ParseChunk(Sep('/'), r1, f1) == Some(Scan(f1, r2));
    assert ParseChunk(NumDay, r2, f1) == Some(Scan(f3, r3)) by {
      GetNumNoPad(d.day, r3);
    }
    assert ParseChunk(Sep('/'), r3, f3) == Some(Scan(f3, y));
    rest := y;
  }

  /** Rendering as MM/DD/YY and reading back keeps month and day and gives
      the year that the two-digit year rule assigns. */
  lemma {:induction false} ParseFormatMMDDYY(d: Date)
    requires ValidDate(d)
    ensures ParseDateToTime(FormatMMDDYY(d)) == Some(Date(ExpandYear(d.year % 100), d.month, d.day))
  {
    var s := FormatMMDDYY(d);
    assert ParseLayout(MonthDayLongYear, s).None? && ParseLayout(ZeroMonthDayLongYear, s).None? by {
      MMDDYYNotLongYear(d, false);
      MMDDYYNotLongYear(d, true);
    }
    assert ParseLayout(Iso, s).None? by {
      assert s[..4][2] == '/';
      assert ParseChunk(LongYear, s, Fields(1, 1, 1)).None?;
    }
    MMDDYYShortYear(d);
  }

  /** The two fields before the year of MM/DD/YY. */
  lemma MMDDYYPrefix(d: Date, fixed: bool) returns (rest: string)
    requires ValidDate(d)
    ensures rest == Pad2(d.year % 100)
    ensures ParseFront(if fixed then ZeroMonthDayLongYear else MonthDayLongYear, FormatMMDDYY(d))
         == Some(Scan(Fields(1, d.month, d.day), rest))
    ensures fixed ==> ParseFront(ZeroMonthDayYear, FormatMMDDYY(d)) == Some(Scan(Fields(1, d.month, d.day), rest))
  {
    var m, dd, y := Pad2(d.month), Pad2(d.day), Pad2(d.year % 100);
    var r3 := "/" + y;
    var r2 := dd + r3;
    var r1 := "/" + r2;
    var s := m + r1;
    assert s == FormatMMDDYY(d);
    var f1 := Fields(1, d.month, 1);
    var f3 := Fields(1, d.month, d.day);
    assert ParseChunk(if fixed then ZeroMonth else NumMonth, s, Fields(1, 1, 1)) == Some(Scan(f1, r1)) by {
      GetNumPad2(d.month, r1, fixed);
    }
    assert ParseChunk(Sep('/'), r1, f1) == Some(Scan(f1, r2));
    assert ParseChunk(if fixed then ZeroDay else NumDay, r2, f1) == Some(Scan(f3, r3)) by {
      GetNumPad2(d.day, r3, fixed);
    }
    assert ParseChunk(Sep('/'), r3, f3) == Some(Scan(f3, y));
    rest := y;
  }

  lemma MMDDYYNotLongYear(d: Date, fixed: bool)
    requires ValidDate(d)
    ensures ParseLayout(if fixed then ZeroMonthDayLongYear else MonthDayLongYear, FormatMMDDYY(d)).None?
  {
    var _ := MMDDYYPrefix(d, fixed);
    assert ParseChunk(LongYear, Pad2(d.year % 100), Fields(1, d.month, d.day)).None?;
  }

  lemma MMDDYYShortYear(d: Date)
    requires ValidDate(d)
    ensures ParseLayout(ZeroMonthDayYear, FormatMMDDYY(d)) == Some(Date(ExpandYear(d.year % 100), d.month, d.day))
  {
    var y := MMDDYYPrefix(d, true);
    ShortYearChunk(d.year % 100, Fields(1, d.month, d.day));
    DayKept(d);
  }

  lemma ShortYearChunk(n: nat, f: Fields)
    requires n <= 99
    ensures ParseChunk(ShortYear, Pad2(n), f) == Some(Scan(f.(year := ExpandYear(n)), []))
  {
    var y := Pad2(n);
    assert y[..2] == y && y[2..] == [];
    AtoiPad2(n);
  }

  /** A day of a valid date exists in the same month of the year its two-digit
      year expands to. */
  lemma DayKept(d: Date)
    requires ValidDate(d)
    ensures d.day <= DaysIn(d.month, ExpandYear(d.year % 100))
  {
    LeapKept(d.year, ExpandYear(d.year % 100));
  }

  /** The day-of-month bound of a year carries over to its two-digit expansion. */
  lemma LeapKept(y: int, yy: int)
    requires 0 <= y && yy == ExpandYear(y % 100)
    ensures IsLeap(y) ==> IsLeap(yy)
  {
    assert yy % 4 == y % 4;
  }

  /** Normalising twice is normalising once. */
  lemma NormalizeDateIdempotent(s: string)
    ensures NormalizeDate(NormalizeDate(s)) == NormalizeDate(s)
  {
    match ParseDateToTime(s)
    case None =>
    case Some(d) =>
      if s != "" {
        var n := FormatMMDDYY(d);
        var e := Date(ExpandYear(d.year % 100), d.month, d.day);
        assert ParseDateToTime(n) == Some(e) by {
          ParseFormatMMDDYY(d);
        }
        assert FormatMMDDYY(e) == n by {
          ExpandYearDigits(d.year % 100);
        }
      }
  }

  /** A normalised date is read back as the day it named, with a two-digit
      year that the two-digit year rule expands. */
  lemma NormalizeDateKeepsDay(s: string)
    requires ParseDateToTime(s).Some?
    ensures var d := ParseDateToTime(s).value;
      ParseDateToTime(NormalizeDate(s)) == Some(Date(ExpandYear(d.year % 100), d.month, d.day))
  {
    ParseFormatMMDDYY(ParseDateToTime(s).value);
  }

  /** An ISO date is read by the ISO layout: the two slash layouts before it reject it. */
  /** An ISO date shown by `FormatDate` reads back as the same month and day,
      with the year cut to two digits and expanded as `time.Parse` does. */
  lemma FormatDateKeepsDay(s: string)
    requires ParseLayout(Iso, s).Some?
    ensures var d := ParseLayout(Iso, s).value;
            ParseDateToTime(FormatDate(s)) == Some(Date(ExpandYear(d.year % 100), d.month, d.day))
  {
    IsoParsedAsIso(s);
    ParseFormatMMDDYY(ParseLayout(Iso, s).value);
  }

  lemma IsoParsedAsIso(s: string)
    requires ParseLayout(Iso, s).Some?
    ensures ParseDateToTime(s) == ParseLayout(Iso, s)
  {
    IsoStartsWithDigits(s);
    SlashLayoutRejects(MonthDayLongYear, s);
    SlashLayoutRejects(ZeroMonthDayLongYear, s);
  }

  lemma IsoStartsWithDigits(s: string)
    requires ParseLayout(Iso, s).Some?
    ensures |s| >= 4 && IsDigit(s[0]) && IsDigit(s[1]) && IsDigit(s[2])
  {
    assert s[..4][1] == s[1] && s[..4][2] == s[2];
  }

  /** A text starting with three digits has no month field of one or two
      digits followed by a slash. */
  lemma SlashLayoutRejects(l: Layout, s: string)
    requires (l.first == NumMonth || l.first == ZeroMonth) && l.sep1 == '/'
    requires |s| >= 3 && IsDigit(s[0]) && IsDigit(s[1]) && IsDigit(s[2])
    ensures ParseLayout(l, s) == None
  {
    assert GetNum(s, l.first == ZeroMonth) == Some(Num(DigitValue(s[0]) * 10 + DigitValue(s[1]), s[2..]));
    assert s[2..][0] == s[2];
  }

  /** Converting a filter bound never changes the day it denotes. */
  lemma ConvertFilterDateKeepsDay(s: string)
    ensures ParseDateToTime(ConvertFilterDate(s)) == ParseDateToTime(s)
  {
    if s != "" {
      match ParseLayout(Iso, s)
      case None =>
      case Some(d) =>
        IsoParsedAsIso(s);
        ParseFormatMDYYYY(d);
    }
  }

  /** Filtering with converted bounds selects exactly what the original bounds mean. */
  lemma ConvertedRangeAgrees(date: string, from: string, to: string)
    ensures IsDateInRange(date, ConvertFilterDate(from), ConvertFilterDate(to)) == IsDateInRange(date, from, to)
  {
    ConvertFilterDateKeepsDay(from);
    ConvertFilterDateKeepsDay(to);
  }
}
