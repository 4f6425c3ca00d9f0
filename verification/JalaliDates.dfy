/** Jalali dates in the list filters: printing with Persian digits, normalising digits, parsing,
    and the day-by-day search for a Gregorian date (ProcurementListUxRefinement). Days are counted
    by one number; the browser's Persian calendar is a function of it. */
module JalaliDates {
  import opened Text

  datatype Date = Date(year: nat, month: nat, day: nat)

  /** `parts` is the calendar; the search for Persian year y runs from `first(y)` (1 December of
      y + 620) to `last(y)` (30 April of y + 622). */
  datatype Calendar = Calendar(parts: int -> Date, first: nat -> int, last: nat -> int)

  /** What the search relies on, for the years in range: no two days share a date, and the days of
      Persian year y, which have proper months and days, lie in the search window of y. */
  ghost predicate Proper(cal: Calendar) {
    && (forall d, e :: InRange(cal.parts(d).year) && cal.parts(d) == cal.parts(e) ==> d == e)
    && (forall d :: InRange(cal.parts(d).year) ==>
          var p := cal.parts(d);
          1 <= p.month <= 12 && 1 <= p.day <= 31 && cal.first(p.year) <= d <= cal.last(p.year))
  }

  predicate InRange(year: nat) { 1200 <= year <= 1700 }

  /** Such calendars exist: twelve months of 31 days, counted from day 0. */
  function EvenDate(day: int): Date {
    if day < 0 then Date(0, 0, 0)
    else
      var inYear := day % 372;
      Date(day / 372, inYear / 31 + 1, inYear % 31 + 1)
  }

  function FirstOfYear(year: nat): int { 372 * year }

  function LastOfYear(year: nat): int { 372 * year + 371 }

  lemma EvenDateCounts(day: int)
    requires day >= 0
    ensures EvenDate(day).day == day - 372 * EvenDate(day).year - 31 * (EvenDate(day).month - 1) + 1
    ensures 1 <= EvenDate(day).month <= 12 && 1 <= EvenDate(day).day <= 31
  {
    var inYear := day % 372;
    assert day == 372 * (day / 372) + inYear;
    assert inYear == 31 * (inYear / 31) + inYear % 31;
  }

  lemma ProperCalendarsExist()
    ensures Proper(Calendar(EvenDate, FirstOfYear, LastOfYear))
  {
    forall d: int | InRange(EvenDate(d).year)
      ensures d >= 0 && EvenDate(d).day == d - 372 * EvenDate(d).year - 31 * (EvenDate(d).month - 1) + 1
      ensures 1 <= EvenDate(d).month <= 12 && 1 <= EvenDate(d).day <= 31
    {
      EvenDateCounts(d);
    }
  }

  const PERSIAN_ZERO := '\U{06F0}'
  const ARABIC_ZERO := '\U{0660}'

  function NormalDigit(c: char): char {
    if PERSIAN_ZERO <= c <= '\U{06F9}' then '0' + (c - PERSIAN_ZERO)
    else if ARABIC_ZERO <= c <= '\U{0669}' then '0' + (c - ARABIC_ZERO)
    else c
  }

  function PersianDigit(c: char): char { if IsDigit(c) then PERSIAN_ZERO + (c - '0') else c }

  function NormalizeDigits(s: string): string { seq(|s|, i requires 0 <= i < |s| => NormalDigit(s[i])) }

  function ToFaDigits(s: string): string { seq(|s|, i requires 0 <= i < |s| => PersianDigit(s[i])) }

  function Pad2(n: nat): string { if |NatText(n)| < 2 then "0" + NatText(n) else NatText(n) }

  function Slashed(d: Date): string { NatText(d.year) + "/" + Pad2(d.month) + "/" + Pad2(d.day) }

  function GregorianToJalali(cal: Calendar, day: int): string {
    var p := cal.parts(day);
    if p.year == 0 || p.month == 0 || p.day == 0 then "" else ToFaDigits(Slashed(p))
  }

  function Separator(c: char): char { if c == '.' || c == '-' then '/' else c }

  function Cleaned(value: string): string {
    var s := Trim(NormalizeDigits(value));
    seq(|s|, i requires 0 <= i < |s| => Separator(s[i]))
  }

  function Fields(s: string): (r: seq<string>)
    ensures |r| >= 1
  {
    if s == "" then [""]
    else
      var rest := Fields(s[1..]);
      if s[0] == '/' then [""] + rest else [[s[0]] + rest[0]] + rest[1..]
  }

  predicate DigitField(s: string, least: nat, most: nat) { AllDigits(s) && least <= |s| <= most }

  /** The three numbers of `d{3,4}/d{1,2}/d{1,2}`, if they make a date in range. */
  function Parse(value: string): Option<Date> {
    var f := Fields(Cleaned(value));
    if |f| != 3 || !DigitField(f[0], 3, 4) || !DigitField(f[1], 1, 2) || !DigitField(f[2], 1, 2) then None
    else
      var d := Date(ParseNat(f[0]), ParseNat(f[1]), ParseNat(f[2]));
      if !InRange(d.year) || d.month < 1 || d.month > 12 || d.day < 1 || d.day > 31 then None else Some(d)
  }

  /** The search: the first day of the window with exactly the requested parts, if there is one. */
  ghost predicate Finds(cal: Calendar, value: string, r: Option<int>) {
    match Parse(value)
    case None => r == None
    case Some(date) =>
      match r
      case None => forall d :: cal.first(date.year) <= d <= cal.last(date.year) ==> cal.parts(d) != date
      case Some(day) =>
        && cal.first(date.year) <= day <= cal.last(date.year)
        && cal.parts(day) == date
        && forall d :: cal.first(date.year) <= d < day ==> cal.parts(d) != date
  }

  method JalaliToGregorian(cal: Calendar, value: string) returns (r: Option<int>)
    ensures Finds(cal, value, r)
  {
    var parsed := Parse(value);
    if parsed.None? { return None; }
    var date := parsed.value;
    var day := cal.first(date.year);
    while day <= cal.last(date.year)
      invariant cal.first(date.year) <= day
      invariant forall d :: cal.first(date.year) <= d < day ==> cal.parts(d) != date
      decreases cal.last(date.year) - day
    {
      if cal.parts(day) == date { return Some(day); }
      day := day + 1;
    }
    r := None;
  }

  // ----- Printing and parsing are inverse -----

  lemma YearText(n: nat)
    requires InRange(n)
    ensures |NatText(n)| == 4
  {
    assert |NatText(n / 1000)| == 1;
    assert |NatText(n / 100)| == 2 by { assert n / 100 / 10 == n / 1000; }
    assert |NatText(n / 10)| == 3 by { assert n / 10 / 10 == n / 100; }
  }

  lemma Pad2Parses(n: nat)
    requires n <= 99
    ensures AllDigits(Pad2(n)) && |Pad2(n)| == 2 && ParseNat(Pad2(n)) == n
  {
    NatTextParses(n);
    if n < 10 {
      var s := Pad2(n);
      assert s[..1] == "0" && ParseNat("0") == 0;
    } else {
      assert |NatText(n / 10)| == 1;
    }
  }

  lemma DigitsNormalize(s: string)
    ensures NormalizeDigits(ToFaDigits(s)) == NormalizeDigits(s)
  {
    assert forall c: char :: IsDigit(c) ==> NormalDigit(PersianDigit(c)) == c == NormalDigit(c);
  }

  lemma {:induction false} FieldsOf(x: string, rest: string)
    requires AllDigits(x)
    ensures Fields(x + "/" + rest) == [x] + Fields(rest)
    ensures Fields(x) == [x]
  {
    var s := x + "/" + rest;
    if x == "" {
      assert s[1..] == rest;
    } else {
      assert s[0] == x[0] && s[1..] == x[1..] + "/" + rest;
      FieldsOf(x[1..], rest);
      assert [x[0]] + x[1..] == x;
    }
  }

  predicate DigitOrSlash(c: char) { IsDigit(c) || c == '/' }

  lemma PlainStays(s: string)
    requires forall i :: 0 <= i < |s| ==> DigitOrSlash(s[i])
    ensures Cleaned(ToFaDigits(s)) == s
  {
    DigitsNormalize(s);
    assert NormalizeDigits(s) == s;
    assert Trimmed(s);
    TrimmedStays(s);
  }

  lemma PrintedParses(d: Date)
    requires InRange(d.year) && 1 <= d.month <= 12 && 1 <= d.day <= 31
    ensures Parse(ToFaDigits(Slashed(d))) == Some(d)
  {
    var y, m, dd := NatText(d.year), Pad2(d.month), Pad2(d.day);
    NatTextParses(d.year);
    YearText(d.year);
    Pad2Parses(d.month);
    Pad2Parses(d.day);
    var s := Slashed(d);
    forall i | 0 <= i < |s| ensures DigitOrSlash(s[i]) { }
    PlainStays(s);
    ThreeFields(y, m, dd);
  }

  /** A date in range is printed in ten characters: four, two and two Persian digits with slashes. */
  lemma PrintedShape(d: Date)
    requires InRange(d.year) && 1 <= d.month <= 12 && 1 <= d.day <= 31
    ensures var text := ToFaDigits(Slashed(d));
      && |text| == 10 && text[4] == text[7] == '/'
      && forall i :: 0 <= i < 10 && i != 4 && i != 7 ==> 0x06F0 <= text[i] as int <= 0x06F9
  {
    var y, m, dd := NatText(d.year), Pad2(d.month), Pad2(d.day);
    NatTextParses(d.year);
    YearText(d.year);
    Pad2Parses(d.month);
    Pad2Parses(d.day);
    forall i | 0 <= i < 10 && i != 4 && i != 7 ensures IsDigit(Slashed(d)[i]) {
      assert Slashed(d)[i] == if i < 4 then y[i] else if i < 7 then m[i - 5] else dd[i - 8];
    }
  }

  /** `c` is a way to write the digit or separator `plain`: Latin, Persian and Arabic digits; slash,
      dot and dash. */
  predicate Writes(c: char, plain: char) {
    if plain == '/' then c == '/' || c == '.' || c == '-'
    else
      var d := plain as int - '0' as int;
      c == plain || c as int == 0x06F0 + d || c as int == 0x0660 + d
  }

  ghost predicate WrittenAs(text: string, plain: string) {
    |text| == |plain| && forall i :: 0 <= i < |text| ==> Writes(text[i], plain[i])
  }

  /** A date typed with any digits and separators, padded or not, is understood as those numbers, and
      refused exactly when they are out of range. */
  lemma AnyWritingParses(text: string, y: string, m: string, d: string)
    requires DigitField(y, 3, 4) && DigitField(m, 1, 2) && DigitField(d, 1, 2)
    requires WrittenAs(text, y + "/" + m + "/" + d)
    ensures Parse(text) ==
      if 1200 <= ParseNat(y) <= 1700 && 1 <= ParseNat(m) <= 12 && 1 <= ParseNat(d) <= 31
      then Some(Date(ParseNat(y), ParseNat(m), ParseNat(d))) else None
  {
    var plain := y + "/" + m + "/" + d;
    forall i | 0 <= i < |plain| ensures DigitOrSlash(plain[i]) { }
    CleanedIsPlain(text, plain);
    ThreeFields(y, m, d);
    assert [y, m, d][0] == y && [y, m, d][1] == m && [y, m, d][2] == d;
  }

  lemma ThreeFields(y: string, m: string, d: string)
    requires AllDigits(y) && AllDigits(m) && AllDigits(d)
    ensures Fields(y + "/" + m + "/" + d) == [y, m, d]
  {
    assert y + "/" + m + "/" + d == y + "/" + (m + "/" + d);
    FieldsOf(y, m + "/" + d);
    FieldsOf(m, d);
    FieldsOf(d, "");
  }

  lemma CleanedIsPlain(text: string, plain: string)
    requires WrittenAs(text, plain) && forall i :: 0 <= i < |plain| ==> DigitOrSlash(plain[i])
    ensures Cleaned(text) == plain
  {
    var s := NormalizeDigits(text);
    forall i | 0 <= i < |s| ensures Separator(s[i]) == plain[i] && !IsSpace(s[i]) {
      assert Writes(text[i], plain[i]) && DigitOrSlash(plain[i]);
    }
    TrimmedStays(s);
  }

  /** Any result the search may return for the printed date of a day is that day. */
  lemma JalaliRoundTrip(cal: Calendar, day: int, r: Option<int>)
    requires Proper(cal) && 1200 <= cal.parts(day).year <= 1700
    requires Finds(cal, GregorianToJalali(cal, day), r)
    ensures r == Some(day)
  {
    PrintedParses(cal.parts(day));
  }
}
