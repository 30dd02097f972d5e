/**
 * Calendar dates as the date filters of backend/api/expenses/filters.py
 * receive them: a (year, month, day) triple, ordered as Python orders
 * `datetime.date`, and read from a query string, stripped of surrounding
 * whitespace, in one of the two declared input formats, `%Y-%m-%d` and
 * `%d-%m-%Y`.
 */
module Dates {
  import opened Wrappers
  import opened Text

  datatype Date = Date(year: int, month: int, day: int)

  predicate IsLeapYear(y: int) {
    y % 4 == 0 && (y % 100 != 0 || y % 400 == 0)
  }

  function DaysInMonth(y: int, m: int): int
    requires 1 <= m <= 12
  {
    if m == 2 then (if IsLeapYear(y) then 29 else 28)
    else if m == 4 || m == 6 || m == 9 || m == 11 then 30
    else 31
  }

  /** A date `datetime.date` accepts: years 1 to 9999, real months and days. */
  predicate Valid(d: Date) {
    1 <= d.year <= 9999 && 1 <= d.month <= 12 && 1 <= d.day <= DaysInMonth(d.year, d.month)
  }

  /** `a <= b` on dates: by year, then month, then day. */
  predicate OnOrBefore(a: Date, b: Date) {
    a.year < b.year || (a.year == b.year && (a.month < b.month || (a.month == b.month && a.day <= b.day)))
  }

  /** The two input formats, in the order the filters try them. */
  datatype Format = YearMonthDay | DayMonthYear

  const InputFormats: seq<Format> := [YearMonthDay, DayMonthYear]

  predicate IsDigit(c: char) {
    '0' <= c <= '9'
  }

  predicate AllDigits(s: string) {
    forall i :: 0 <= i < |s| ==> IsDigit(s[i])
  }

  function Pow10(n: nat): (r: nat)
    ensures r >= 1
  {
    if n == 0 then 1 else 10 * Pow10(n - 1)
  }

  /** The number a string of decimal digits spells. */
  function DigitsValue(s: string): (r: nat)
    requires AllDigits(s)
    ensures r < Pow10(|s|)
  {
    if s == [] then 0
    else DigitsValue(s[..|s| - 1]) * 10 + (s[|s| - 1] as int - '0' as int)
  }

  /** `n` written with exactly `width` decimal digits, zero-padded on the left. */
  function Padded(n: nat, width: nat): (s: string)
    ensures |s| == width && AllDigits(s)
  {
    if width == 0 then [] else Padded(n / 10, width - 1) + [('0' as int + n % 10) as char]
  }

  /** Reading back a zero-padded number gives the number. */
  lemma {:induction false} ValueOfPadded(n: nat, width: nat)
    requires n < Pow10(width)
    ensures DigitsValue(Padded(n, width)) == n
  {
    if width > 0 {
      var s := Padded(n, width);
      assert s[..width - 1] == Padded(n / 10, width - 1);
      ValueOfPadded(n / 10, width - 1);
    }
  }

  /** Padding a digit string's value to its own length gives the string back. */
  lemma {:induction false} PaddedOfValue(s: string)
    requires AllDigits(s)
    ensures Padded(DigitsValue(s), |s|) == s
  {
    if s != [] {
      var k := |s| - 1;
      var front := s[..k];
      var last := s[k] as int - '0' as int;
      var v := DigitsValue(s);
      assert v == DigitsValue(front) * 10 + last;
      assert v / 10 == DigitsValue(front) && v % 10 == last;
      PaddedOfValue(front);
      assert s == front + [s[k]];
    }
  }

  /** Three fields joined by dashes. */
  function Dashed(a: string, b: string, c: string): (s: string)
    ensures |s| == |a| + |b| + |c| + 2
  {
    a + "-" + b + "-" + c
  }

  /** The three fields of a text around the positions `i` and `j`. */
  function Fields(s: string, i: nat, j: nat): (string, string, string)
    requires i < j < |s|
  {
    (s[..i], s[i + 1..j], s[j + 1..])
  }

  /** Splitting a dash-joined text where its dashes are gives back its fields. */
  lemma DashedParts(a: string, b: string, c: string)
    ensures var s, i, j := Dashed(a, b, c), |a|, |a| + 1 + |b|;
            s[i] == '-' && s[j] == '-' && Fields(s, i, j) == (a, b, c)
  {
    var s, i, j := Dashed(a, b, c), |a|, |a| + 1 + |b|;
    assert s == (a + "-") + (b + "-") + c;
    assert s[..i] == a;
    assert s[i + 1..j] == b;
    assert s[j + 1..] == c;
  }

  /** A text with dashes at `i` and `j` is its three fields joined by dashes. */
  lemma DashedFromParts(s: string, i: nat, j: nat)
    requires i < j < |s| && s[i] == '-' && s[j] == '-'
    ensures var (a, b, c) := Fields(s, i, j); s == Dashed(a, b, c)
  {
  }

  /** The spelling of a date in one input format. */
  function Render(d: Date, f: Format): (s: string)
    requires Valid(d)
    ensures |s| == 10
  {
    match f
    case YearMonthDay => Dashed(Padded(d.year, 4), Padded(d.month, 2), Padded(d.day, 2))
    case DayMonthYear => Dashed(Padded(d.day, 2), Padded(d.month, 2), Padded(d.year, 4))
  }

  /** The date three digit fields name, when they are all digits and name a calendar date. */
  function FromFields(year: string, month: string, day: string): (r: Option<Date>)
    ensures r.Some? ==> Valid(r.value)
  {
    if AllDigits(year) && AllDigits(month) && AllDigits(day) then
      var d := Date(DigitsValue(year), DigitsValue(month), DigitsValue(day));
      if Valid(d) then Some(d) else None
    else None
  }

  /**
   * `datetime.strptime(s, format).date()` for one format, on the zero-padded
   * fixed-width spellings: None when the text does not fit the format or
   * names no calendar date.
   */
  function ParseAs(s: string, f: Format): (r: Option<Date>)
    ensures r.Some? ==> Valid(r.value)
  {
    if |s| != 10 then None
    else
      match f
      case YearMonthDay =>
        var (year, month, day) := Fields(s, 4, 7);
        if s[4] == '-' && s[7] == '-' then FromFields(year, month, day) else None
      case DayMonthYear =>
        var (day, month, year) := Fields(s, 2, 5);
        if s[2] == '-' && s[5] == '-' then FromFields(year, month, day) else None
  }

  /** What the first format of `formats` that accepts `s` reads; None when none does. */
  function FirstParse(s: string, formats: seq<Format>): (r: Option<Date>)
    ensures r.Some? ==> Valid(r.value)
  {
    if formats == [] then None
    else
      match ParseAs(s, formats[0])
      case Some(d) => Some(d)
      case None => FirstParse(s, formats[1..])
  }

  /**
   * Trying formats in order: nothing is read exactly when no format accepts
   * the text, whatever is read is what some format reads, and the first
   * format that accepts the text decides.
   */
  lemma {:induction false} FirstParseIsFirstAccepting(s: string, formats: seq<Format>)
    ensures FirstParse(s, formats).None? <==> forall k :: 0 <= k < |formats| ==> ParseAs(s, formats[k]).None?
    ensures FirstParse(s, formats).Some? ==> exists k :: 0 <= k < |formats| && ParseAs(s, formats[k]) == FirstParse(s, formats)
    ensures formats != [] && ParseAs(s, formats[0]).Some? ==> FirstParse(s, formats) == ParseAs(s, formats[0])
    decreases |formats|
  {
    if formats != [] && ParseAs(s, formats[0]).None? {
      var rest := formats[1..];
      FirstParseIsFirstAccepting(s, rest);
      assert forall k :: 1 <= k < |formats| ==> formats[k] == rest[k - 1];
      if FirstParse(s, formats).Some? {
        var k :| 0 <= k < |rest| && ParseAs(s, rest[k]) == FirstParse(s, rest);
        assert ParseAs(s, formats[k + 1]) == FirstParse(s, formats);
      }
    }
  }

  /**
   * The cleaning of a date filter value: the text is stripped of surrounding
   * whitespace and the input formats are tried in order, the first that
   * accepts it winning.
   */
  function ParseDate(s: string): (r: Option<Date>)
    ensures r.Some? ==> Valid(r.value)
  {
    FirstParse(Strip(s), InputFormats)
  }

  /**
   * A date filter value parses exactly when one of the two formats accepts
   * the stripped text; `%Y-%m-%d` is tried first.
   */
  lemma ParseDateTriesFormatsInOrder(s: string)
    ensures var t, r := Strip(s), ParseDate(s);
            && (r.Some? <==> ParseAs(t, YearMonthDay).Some? || ParseAs(t, DayMonthYear).Some?)
            && (ParseAs(t, YearMonthDay).Some? ==> r == ParseAs(t, YearMonthDay))
            && (r.Some? ==> r == ParseAs(t, YearMonthDay) || r == ParseAs(t, DayMonthYear))
  {
    var t := Strip(s);
    FirstParseIsFirstAccepting(t, InputFormats);
    assert InputFormats[0] == YearMonthDay && InputFormats[1] == DayMonthYear;
  }

  /** No text fits both formats: the dash positions tell them apart. */
  lemma FormatsAreExclusive(s: string)
    ensures ParseAs(s, YearMonthDay).None? || ParseAs(s, DayMonthYear).None?
  {
  }

  /** The padded fields of a valid date read back as that date. */
  lemma FromPaddedFields(d: Date)
    requires Valid(d)
    ensures FromFields(Padded(d.year, 4), Padded(d.month, 2), Padded(d.day, 2)) == Some(d)
  {
    assert Pow10(2) == 100 && Pow10(4) == 10000;
    var y, m, dd := Padded(d.year, 4), Padded(d.month, 2), Padded(d.day, 2);
    ValueOfPadded(d.year, 4);
    ValueOfPadded(d.month, 2);
    ValueOfPadded(d.day, 2);
    assert AllDigits(y) && AllDigits(m) && AllDigits(dd);
    assert Date(DigitsValue(y), DigitsValue(m), DigitsValue(dd)) == d;
  }

  /** Each spelling of a valid date reads back as that date. */
  lemma ParseRender(d: Date, f: Format)
    requires Valid(d)
    ensures ParseAs(Render(d, f), f) == Some(d)
    ensures ParseDate(Render(d, f)) == Some(d)
  {
    var y, m, dd := Padded(d.year, 4), Padded(d.month, 2), Padded(d.day, 2);
    var s := Render(d, f);
    FromPaddedFields(d);
    match f {
      case YearMonthDay =>
        DashedParts(y, m, dd);
        assert s[0] == y[0] && s[9] == dd[1];
      case DayMonthYear =>
        DashedParts(dd, m, y);
        assert s[0] == dd[0] && s[9] == y[3];
        FormatsAreExclusive(s);
    }
    StripTrimmed(s);
    ParseDateTriesFormatsInOrder(s);
  }

  /** Digit fields that name a date are that date's zero-padded fields. */
  lemma FieldsArePadded(year: string, month: string, day: string)
    requires |year| == 4 && |month| == 2 && |day| == 2
    requires FromFields(year, month, day).Some?
    ensures var d := FromFields(year, month, day).value;
            year == Padded(d.year, 4) && month == Padded(d.month, 2) && day == Padded(d.day, 2)
  {
    PaddedOfValue(year);
    PaddedOfValue(month);
    PaddedOfValue(day);
  }

  /** A text one format accepts is that format's spelling of the date it reads. */
  lemma ParsedAsIsRendered(s: string, f: Format)
    requires ParseAs(s, f).Some?
    ensures s == Render(ParseAs(s, f).value, f)
  {
    match f {
      case YearMonthDay =>
        var (year, month, day) := Fields(s, 4, 7);
        DashedFromParts(s, 4, 7);
        FieldsArePadded(year, month, day);
      case DayMonthYear =>
        var (day, month, year) := Fields(s, 2, 5);
        DashedFromParts(s, 2, 5);
        FieldsArePadded(year, month, day);
    }
  }

  /**
   * Every text a date filter accepts is, once stripped, one of the two
   * spellings of the date it reads.
   */
  lemma ParsedIsRendered(s: string)
    requires ParseDate(s).Some?
    ensures var t, d := Strip(s), ParseDate(s).value;
            t == Render(d, YearMonthDay) || t == Render(d, DayMonthYear)
  {
    ParseDateTriesFormatsInOrder(s);
    if ParseAs(Strip(s), YearMonthDay).Some? {
      ParsedAsIsRendered(Strip(s), YearMonthDay);
    } else {
      ParsedAsIsRendered(Strip(s), DayMonthYear);
    }
  }
}
