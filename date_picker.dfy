/** The date-range picker: the `YYYY-MM-DD` and display formats, the month shift, the quick
    presets, the two-click selection with its ordered apply, the Monday-first month grid and
    the day highlighting. "Today" is a parameter; calendar arithmetic is that of the
    Calendar module. */
module DatePicker {
  import opened JsText
  import opened JsNumber
  import opened Calendar

  /** A range of `YYYY-MM-DD` strings, as the picker receives and emits it. */
  datatype DateRange = DateRange(start: string, end: string)

  // ---------------------------------------------------------------------------
  // Formats
  // ---------------------------------------------------------------------------

  /** `String(n).padStart(2, '0')`. */
  function TwoDigits(n: nat): string {
    PadStart2(NatToString(n))
  }

  /** `formatStr`: the full year, then the month and the day padded to two digits. */
  function FormatStr(d: Date): string {
    IntToString(d.year) + "-" + TwoDigits(d.month) + "-" + TwoDigits(d.day)
  }

  /** What `formatStr` gives for an invalid `Date`: every part reads "NaN". */
  const InvalidDateText := "NaN-NaN-NaN"

  /** `parts[i]`, undefined past the end. */
  function Part(parts: seq<string>, i: nat): Option<string> {
    if i < |parts| then Some(parts[i]) else None
  }

  /** `${parseInt(x)}`: the integer read from the front of `x`, "NaN" when there is none
      (also for an undefined `x`). */
  function ShowParsedInt(x: Option<string>): string {
    if x.None? then "NaN"
    else
      var v := ParseIntPrefix(x.value, false);
      if v.None? then "NaN" else IntToString(v.value)
  }

  /** `formatDisplay`: '' for an empty string, otherwise `Y年M月D日` from the dash-separated
      parts, the month and the day read as integers. */
  function FormatDisplay(s: string): string {
    if s == "" then ""
    else
      var parts := Split(s, '-');
      parts[0] + "年" + ShowParsedInt(Part(parts, 1)) + "月" + ShowParsedInt(Part(parts, 2)) + "日"
  }

  lemma DigitsHaveNoDash(n: nat)
    ensures '-' !in NatToString(n) && '-' !in TwoDigits(n)
    ensures AllDigits(NatToString(n)) && AllDigits(TwoDigits(n)) && TwoDigits(n) != ""
  {
    var s, t := NatToString(n), TwoDigits(n);
    assert forall i :: 0 <= i < |t| ==> t[i] == '0' || t[i] == s[i - (|t| - |s|)];
  }

  /** The two-digit form reads back as the number, with or without a radix. */
  lemma TwoDigitsParse(n: nat, radixTen: bool)
    ensures ParseIntPrefix(TwoDigits(n), radixTen) == Some(n)
  {
    var s := NatToString(n);
    DecimalValueOfNatToString(n);
    if n < 10 {
      assert TwoDigits(n) == "0" + s;
      DecimalValueLeadingZero(s);
      ParseIntOfDigits("0" + s, radixTen);
    } else {
      assert TwoDigits(n) == s;
      ParseIntOfNatToString(n, radixTen);
    }
  }

  /** Three dash-free pieces joined by dashes split back into those pieces. */
  lemma SplitThree(x: string, y: string, z: string)
    requires '-' !in x && '-' !in y && '-' !in z
    ensures Split(x + "-" + y + "-" + z, '-') == [x, y, z]
  {
    var parts := [x, y, z];
    assert parts[1..][1..] == [z];
    assert Join(parts[1..], '-') == y + "-" + z;
    assert Join(parts, '-') == x + "-" + (y + "-" + z);
    assert x + "-" + y + "-" + z == x + "-" + (y + "-" + z);
    SplitJoin(parts, '-');
  }

  /** A formatted date with a year of at least 0 splits into its three numeric parts. */
  lemma FormatStrParts(d: Date)
    requires d.year >= 0
    ensures Split(FormatStr(d), '-') == [NatToString(d.year), TwoDigits(d.month), TwoDigits(d.day)]
  {
    DigitsHaveNoDash(d.year);
    DigitsHaveNoDash(d.month);
    DigitsHaveNoDash(d.day);
    SplitThree(NatToString(d.year), TwoDigits(d.month), TwoDigits(d.day));
  }

  /** Displaying a formatted date drops the leading zeros of the month and the day. */
  lemma DisplayOfFormatted(d: Date)
    requires d.year >= 0
    ensures FormatDisplay(FormatStr(d))
         == NatToString(d.year) + "年" + NatToString(d.month) + "月" + NatToString(d.day) + "日"
  {
    FormatStrParts(d);
    TwoDigitsParse(d.month, false);
    TwoDigitsParse(d.day, false);
  }

  // ---------------------------------------------------------------------------
  // String order of formatted dates
  // ---------------------------------------------------------------------------

  lemma NatToStringInjective(a: nat, b: nat)
    ensures NatToString(a) == NatToString(b) <==> a == b
  {
    DecimalValueOfNatToString(a);
    DecimalValueOfNatToString(b);
  }

  /** One more character at the end, for strings of one length. */
  lemma StrLessSnoc(x: string, y: string, c: char, e: char)
    requires |x| == |y|
    ensures StrLess(x + [c], y + [e]) <==> StrLess(x, y) || (x == y && CodeUnitKey(c) < CodeUnitKey(e))
  {
    StrLessEqualLengthPrefix(x, y, [c], [e]);
    assert StrLess([c], [e]) <==> c != e && CodeUnitKey(c) < CodeUnitKey(e) by {
      assert [c][1..] == [] && [e][1..] == [];
    }
  }

  lemma NatToStringStep(n: nat)
    requires n >= 10
    ensures NatToString(n) == NatToString(n / 10) + [DigitChar(n % 10)]
    ensures |NatToString(n)| == |NatToString(n / 10)| + 1
  {
  }

  /** Decimal strings of one length compare as their numbers. */
  lemma {:induction false} DigitsOrder(a: nat, b: nat)
    requires |NatToString(a)| == |NatToString(b)|
    ensures StrLess(NatToString(a), NatToString(b)) <==> a < b
    decreases a
  {
    if a < 10 || b < 10 {
      if a >= 10 { NatToStringStep(a); }
      if b >= 10 { NatToStringStep(b); }
      assert a < 10 && b < 10;
      assert NatToString(a) == [] + [DigitChar(a)] && NatToString(b) == [] + [DigitChar(b)];
      StrLessSnoc([], [], DigitChar(a), DigitChar(b));
    } else {
      NatToStringStep(a);
      NatToStringStep(b);
      StrLessSnoc(NatToString(a / 10), NatToString(b / 10), DigitChar(a % 10), DigitChar(b % 10));
      DigitsOrder(a / 10, b / 10);
      NatToStringInjective(a / 10, b / 10);
    }
  }

  lemma NatToStringLength(n: nat)
    ensures n < 10 ==> |NatToString(n)| == 1
    ensures 10 <= n < 100 ==> |NatToString(n)| == 2
    ensures 1000 <= n < 10000 ==> |NatToString(n)| == 4
  {
    if 10 <= n < 100 {
      NatToStringStep(n);
    } else if 1000 <= n < 10000 {
      var m1 := n / 10;
      var m2 := m1 / 10;
      assert 100 <= m1 < 1000 && 10 <= m2 < 100 && m2 / 10 < 10;
      NatToStringStep(n);
      NatToStringStep(m1);
      NatToStringStep(m2);
    }
  }

  /** Two-digit forms of numbers below 100 compare as the numbers. */
  lemma TwoDigitsOrder(a: nat, b: nat)
    requires a < 100 && b < 100
    ensures |TwoDigits(a)| == 2
    ensures StrLess(TwoDigits(a), TwoDigits(b)) <==> a < b
  {
    NatToStringLength(a);
    NatToStringLength(b);
    var s, t := NatToString(a), NatToString(b);
    if a < 10 && b < 10 {
      StrLessCommonPrefix("0", s, t);
      DigitsOrder(a, b);
    } else if a >= 10 && b >= 10 {
      DigitsOrder(a, b);
    } else if a < 10 {
      assert TwoDigits(b) == t && t[0] != '0' && IsDigit(t[0]);
      assert TwoDigits(a)[0] == '0';
    } else {
      assert TwoDigits(a) == s && s[0] != '0' && IsDigit(s[0]);
      assert TwoDigits(b)[0] == '0';
    }
  }

  /** Dash-joined triples whose pieces have matching lengths compare piece by piece. */
  lemma ThreePartOrder(x: string, y: string, z: string, u: string, v: string, w: string)
    requires |x| == |u| && |y| == |v|
    ensures StrLess(x + "-" + y + "-" + z, u + "-" + v + "-" + w)
        <==> StrLess(x, u) || (x == u && (StrLess(y, v) || (y == v && StrLess(z, w))))
  {
    assert x + "-" + y + "-" + z == x + ("-" + (y + ("-" + z)));
    assert u + "-" + v + "-" + w == u + ("-" + (v + ("-" + w)));
    StrLessEqualLengthPrefix(x, u, "-" + (y + ("-" + z)), "-" + (v + ("-" + w)));
    StrLessCommonPrefix("-", y + ("-" + z), v + ("-" + w));
    StrLessEqualLengthPrefix(y, v, "-" + z, "-" + w);
    StrLessCommonPrefix("-", z, w);
  }

  /** For four-digit years, comparing formatted dates as strings (as the picker does)
      compares the dates. */
  lemma FormatStrOrder(a: Date, b: Date)
    requires Valid(a) && Valid(b) && 1000 <= a.year <= 9999 && 1000 <= b.year <= 9999
    ensures StrLess(FormatStr(a), FormatStr(b)) <==> Before(a, b)
    ensures FormatStr(a) == FormatStr(b) <==> a == b
  {
    NatToStringLength(a.year);
    NatToStringLength(b.year);
    TwoDigitsOrder(a.month, b.month);
    TwoDigitsOrder(a.day, b.day);
    DigitsOrder(a.year, b.year);
    NatToStringInjective(a.year, b.year);
    TwoDigitsInjective(a.month, b.month);
    TwoDigitsInjective(a.day, b.day);
    ThreePartOrder(NatToString(a.year), TwoDigits(a.month), TwoDigits(a.day),
                   NatToString(b.year), TwoDigits(b.month), TwoDigits(b.day));
    if FormatStr(a) == FormatStr(b) {
      FormatStrParts(a);
      FormatStrParts(b);
    }
  }

  lemma TwoDigitsInjective(a: nat, b: nat)
    ensures TwoDigits(a) == TwoDigits(b) <==> a == b
  {
    TwoDigitsParse(a, true);
    TwoDigitsParse(b, true);
  }

  // ---------------------------------------------------------------------------
  // The month shift
  // ---------------------------------------------------------------------------

  /** The year and the month number `handleShift` reads from the range start, when both
      parse. */
  function StartYearMonth(start: string): Option<(int, int)> {
    var parts := Split(start, '-');
    var y := ParseIntPrefix(parts[0], true);
    var m := if |parts| > 1 then ParseIntPrefix(parts[1], true) else None;
    if y.Some? && m.Some? then Some((y.value, m.value)) else None
  }

  /** `handleShift`: the first and last day of the month before (-1) or after (+1) the
      month of the range start; every part reads "NaN" when the start does not parse. */
  function ShiftMonth(start: string, direction: int): DateRange
    requires direction == -1 || direction == 1
  {
    var ym := StartYearMonth(start);
    if ym.None? then DateRange(InvalidDateText, InvalidDateText)
    else ShiftFrom(ym.value.0, ym.value.1, direction)
  }

  /** The shift from a parsed year and month number: the target's first day, then day 0 of
      the month after it, both built with `new Date`. */
  function ShiftFrom(year: int, month: int, direction: int): DateRange {
    var targetStart := MakeDate(year, month - 1 + direction, 1);
    var targetEnd := MakeDate(targetStart.year, (targetStart.month - 1) + 1, 0);
    DateRange(FormatStr(targetStart), FormatStr(targetEnd))
  }

  /** `new Date(y, m - 1, 1)` for a month number 1-12 is the first of that month. */
  lemma MonthStartOfMonth(y: int, m: nat)
    requires 1 <= m <= 12
    ensures MonthStart(y, m - 1) == Date(y, m, 1)
  {
    var total := y * 12 + m - 1;
    assert total == 12 * y + (m - 1);
  }

  /** The dates behind the shift: the first of the neighbouring month, and day 0 of the
      month after it. */
  lemma ShiftDates(year: int, month: int, direction: int)
    ensures var t := MonthStart(FullYear(year), month - 1 + direction);
      MakeDate(year, month - 1 + direction, 1) == t
      && (!(0 <= t.year <= 99) ==> MakeDate(t.year, (t.month - 1) + 1, 0) == t.(day := DaysInMonth(t.year, t.month)))
  {
    var t := MonthStart(FullYear(year), month - 1 + direction);
    MakeDateInMonth(year, month - 1 + direction, 1);
    if !(0 <= t.year <= 99) {
      MonthStartOfMonth(t.year, t.month);
      MakeDateMonthEnd(t.year, t.month - 1);
    }
  }

  /** The shift lands on the neighbouring month of the start's month and spans it from its
      first to its last day, unless that month falls in years 0-99 (see the next lemmas). */
  lemma ShiftFromSpansMonth(year: int, month: int, direction: int)
    ensures var t := MonthStart(FullYear(year), month - 1 + direction);
      t.year * 12 + t.month == FullYear(year) * 12 + month + direction
      && (!(0 <= t.year <= 99) ==>
            ShiftFrom(year, month, direction) == DateRange(FormatStr(t), FormatStr(t.(day := DaysInMonth(t.year, t.month)))))
  {
    var t := MonthStart(FullYear(year), month - 1 + direction);
    if !(0 <= t.year <= 99) {
      ShiftFromIs(year, month, direction, t);
    }
  }

  lemma ShiftFromIs(year: int, month: int, direction: int, t: Date)
    requires t == MonthStart(FullYear(year), month - 1 + direction) && !(0 <= t.year <= 99)
    ensures ShiftFrom(year, month, direction) == DateRange(FormatStr(t), FormatStr(t.(day := DaysInMonth(t.year, t.month))))
  {
    ShiftDates(year, month, direction);
  }

  lemma StartOfFormatted(d: Date)
    requires Valid(d) && d.year >= 0
    ensures StartYearMonth(FormatStr(d)) == Some((d.year, d.month as int))
  {
    FormatStrParts(d);
    ParseIntOfNatToString(d.year, true);
    TwoDigitsParse(d.month, true);
  }

  /** From a formatted start with a four-digit year, the shift gives exactly the first and
      last day of the neighbouring month. */
  lemma ShiftOfFormatted(d: Date, direction: int)
    requires Valid(d) && 1000 <= d.year <= 9999
    requires direction == -1 || direction == 1
    ensures var t := MonthStart(d.year, d.month - 1 + direction);
      t.year * 12 + t.month == d.year * 12 + d.month + direction
      && ShiftMonth(FormatStr(d), direction) == DateRange(FormatStr(t), FormatStr(t.(day := DaysInMonth(t.year, t.month))))
  {
    var t := MonthStart(d.year, d.month - 1 + direction);
    ShiftOfFormattedIs(d, direction, t);
  }

  lemma ShiftOfFormattedIs(d: Date, direction: int, t: Date)
    requires Valid(d) && 1000 <= d.year <= 9999
    requires direction == -1 || direction == 1
    requires t == MonthStart(d.year, d.month - 1 + direction)
    ensures ShiftMonth(FormatStr(d), direction) == DateRange(FormatStr(t), FormatStr(t.(day := DaysInMonth(t.year, t.month))))
  {
    ShiftMonthOfFormatted(d, direction);
    assert FullYear(d.year) == d.year;
    MonthStartNear(d.year, d.month - 1 + direction);
    ShiftFromIs(d.year, d.month, direction, t);
  }

  lemma ShiftMonthOfFormatted(d: Date, direction: int)
    requires Valid(d) && d.year >= 0
    requires direction == -1 || direction == 1
    ensures ShiftMonth(FormatStr(d), direction) == ShiftFrom(d.year, d.month, direction)
  {
    StartOfFormatted(d);
    ShiftMonthOfParsed(FormatStr(d), d.year, d.month, direction);
  }

  lemma ShiftMonthOfParsed(start: string, year: int, month: int, direction: int)
    requires direction == -1 || direction == 1
    requires StartYearMonth(start) == Some((year, month))
    ensures ShiftMonth(start, direction) == ShiftFrom(year, month, direction)
  {
  }

  /** A target month in years 0-99 has its end built from a two-digit year, which
      `new Date` reads as 19xx: going back from January of year 100 ends in 1999. */
  lemma ShiftFromTwoDigitYear()
    ensures ShiftFrom(100, 1, -1) == DateRange("99-12-01", "1999-12-31")
  {
    TwoDigitYearDates();
    TwoDigitYearFormats();
  }

  lemma TwoDigitYearDates()
    ensures MakeDate(100, -1, 1) == Date(99, 12, 1)
    ensures MakeDate(99, 12, 0) == Date(1999, 12, 31)
  {
    assert MonthStart(100, -1) == Date(99, 12, 1);
    assert MonthStart(1999, 12) == Date(2000, 1, 1);
    assert MakeDate(99, 12, 0) == PrevDay(Date(2000, 1, 1));
  }

  lemma TwoDigitYearFormats()
    ensures FormatStr(Date(99, 12, 1)) == "99-12-01"
    ensures FormatStr(Date(1999, 12, 31)) == "1999-12-31"
  {
    NatToStringStep(99);
    NatToStringStep(12);
    NatToStringStep(1999);
    NatToStringStep(199);
    NatToStringStep(19);
    NatToStringStep(31);
  }

  /** The start of 15 January of year 100, as `formatStr` writes it, reads as year 100,
      month 1, so the shift back from it ends in 1999. */
  lemma ShiftMonthTwoDigitYear()
    ensures ShiftMonth(FormatStr(Date(100, 1, 15)), -1) == DateRange("99-12-01", "1999-12-31")
  {
    ShiftMonthOfFormatted(Date(100, 1, 15), -1);
    ShiftFromTwoDigitYear();
  }

  // ---------------------------------------------------------------------------
  // Presets
  // ---------------------------------------------------------------------------

  /** The preset buttons: today, yesterday, the past n days ending today, this month and
      last month. */
  datatype PresetRange = Today | Yesterday | PastDays(n: nat) | ThisMonth | LastMonth

  datatype DatePreset = DatePreset(caption: string, range: PresetRange)

  const Presets: seq<DatePreset> := [
    DatePreset("今天", Today),
    DatePreset("昨天", Yesterday),
    DatePreset("過去 7 天", PastDays(7)),
    DatePreset("過去 14 天", PastDays(14)),
    DatePreset("過去 30 天", PastDays(30)),
    DatePreset("本月", ThisMonth),
    DatePreset("上個月", LastMonth)
  ]

  /** The first and last date of a preset, given today's date. */
  function PresetDates(p: PresetRange, today: Date): (r: (Date, Date))
    requires Valid(today)
    ensures Valid(r.0) && Valid(r.1)
  {
    match p
    case Today => (today, today)
    case Yesterday => var y := AddDays(today, -1); (y, y)
    case PastDays(n) => (AddDays(today, -(n - 1)), today)
    case ThisMonth =>
      (MakeDate(today.year, today.month - 1, 1), MakeDate(today.year, (today.month - 1) + 1, 0))
    case LastMonth =>
      (MakeDate(today.year, (today.month - 1) - 1, 1), MakeDate(today.year, today.month - 1, 0))
  }

  /** `getRange()` of a preset. */
  function PresetRangeOf(p: PresetRange, today: Date): DateRange
    requires Valid(today)
  {
    var (s, e) := PresetDates(p, today);
    DateRange(FormatStr(s), FormatStr(e))
  }

  /** "Past n days" covers n days, today included; yesterday is the day before today. */
  lemma PastDaysSpan(n: nat, today: Date)
    requires Valid(today) && n >= 1
    ensures var (s, e) := PresetDates(PastDays(n), today);
      e == today && DayNumber(e) - DayNumber(s) == n - 1
    ensures var (s, e) := PresetDates(Yesterday, today);
      s == e && DayNumber(s) == DayNumber(today) - 1
  {
    AddDaysNumber(today, -(n - 1));
    AddDaysNumber(today, -1);
  }

  /** This month runs from its first to its last day (for years outside 0-99, which
      `new Date` would read as 19xx). */
  lemma ThisMonthRange(today: Date)
    requires Valid(today) && !(0 <= today.year <= 99)
    ensures PresetDates(ThisMonth, today)
         == (today.(day := 1), today.(day := DaysInMonth(today.year, today.month)))
  {
    MonthStartOfMonth(today.year, today.month);
    MakeDateInMonth(today.year, today.month - 1, 1);
    MakeDateMonthEnd(today.year, today.month - 1);
  }

  /** Last month runs from the first to the last day of the month before today's. */
  lemma LastMonthRange(today: Date)
    requires Valid(today) && !(0 <= today.year <= 99)
    ensures var (s, e) := PresetDates(LastMonth, today);
      s.day == 1 && e == s.(day := DaysInMonth(s.year, s.month))
      && s.year * 12 + s.month + 1 == today.year * 12 + today.month
  {
    MakeDateInMonth(today.year, today.month - 2, 1);
    MakeDateMonthEnd(today.year, today.month - 2);
  }

  // ---------------------------------------------------------------------------
  // Selection
  // ---------------------------------------------------------------------------

  /** The two ends in order: the later string last (`handleApply`). */
  function Ordered(a: string, b: string): (r: DateRange)
    ensures !StrLess(r.end, r.start)
    ensures multiset{r.start, r.end} == multiset{a, b}
  {
    StrLessAsymmetric(a, b);
    StrLessTotal(a, b);
    if StrLess(b, a) then DateRange(b, a) else DateRange(a, b)
  }

  /** How a day button is drawn: the selected ends, and the days strictly between them. */
  datatype DayMark = DayMark(selected: bool, inRange: bool)

  function MarkOf(dateStr: string, tempStart: Option<string>, tempEnd: Option<string>): (m: DayMark)
    ensures m.inRange <==> Truthy(tempStart) && Truthy(tempEnd)
                           && StrLess(tempStart.value, dateStr) && StrLess(dateStr, tempEnd.value)
    ensures m.selected <==> Truthy(tempStart)
                            && (dateStr == tempStart.value || (Truthy(tempEnd) && dateStr == tempEnd.value))
    ensures !(m.selected && m.inRange)
  {
    if Truthy(tempStart) && Truthy(tempEnd) then
      StrLessIrreflexive(dateStr);
      DayMark(dateStr == tempStart.value || dateStr == tempEnd.value,
              StrLess(tempStart.value, dateStr) && StrLess(dateStr, tempEnd.value))
    else if Truthy(tempStart) then DayMark(dateStr == tempStart.value, false)
    else DayMark(false, false)
  }

  /** The picker's pending selection, before it is applied. */
  class RangeSelection {
    var tempStart: Option<string>
    var tempEnd: Option<string>
    var isOpen: bool

    constructor(value: DateRange)
      ensures tempStart == Some(value.start) && tempEnd == Some(value.end) && !isOpen
    {
      tempStart := Some(value.start);
      tempEnd := Some(value.end);
      isOpen := false;
    }

    /** `handleDateClick`: a click starts a new selection unless only its start is set;
        then it completes the selection, the earlier date first. */
    method ClickDate(dateStr: string)
      modifies this
      ensures !Truthy(old(tempStart)) || Truthy(old(tempEnd)) ==> tempStart == Some(dateStr) && tempEnd.None?
      ensures Truthy(old(tempStart)) && !Truthy(old(tempEnd)) ==>
        if StrLess(dateStr, old(tempStart).value) then tempStart == Some(dateStr) && tempEnd == old(tempStart)
        else tempStart == old(tempStart) && tempEnd == Some(dateStr)
      ensures tempStart.Some? && (tempEnd.Some? ==> !StrLess(tempEnd.value, tempStart.value))
      ensures isOpen == old(isOpen)
    {
      if !Truthy(tempStart) || (Truthy(tempStart) && Truthy(tempEnd)) {
        tempStart := Some(dateStr);
        tempEnd := None;
      } else {
        if StrLess(dateStr, tempStart.value) {
          StrLessAsymmetric(dateStr, tempStart.value);
          tempEnd := tempStart;
          tempStart := Some(dateStr);
        } else {
          tempEnd := Some(dateStr);
        }
      }
    }

    /** The effect that re-runs whenever the range shown or the open state changes: the
        pending ends are reset to the range shown, whatever was being selected. */
    method ValueChanged(value: DateRange)
      modifies this
      ensures tempStart == Some(value.start) && tempEnd == Some(value.end)
      ensures isOpen == old(isOpen)
    {
      tempStart := Some(value.start);
      tempEnd := Some(value.end);
    }

    /** Opening or closing the picker: the trigger button, cancel, a preset, and the
        outside-click handler (which resets the pending ends itself). Each flips the open
        state or changes the range shown, so the reset effect follows it. */
    method SetOpen(value: DateRange, open: bool)
      modifies this
      ensures isOpen == open
      ensures tempStart == Some(value.start) && tempEnd == Some(value.end)
    {
      isOpen := open;
      ValueChanged(value);
    }

    /** `handleApply`: with both ends set, emits them in order and closes the picker;
        otherwise emits nothing and changes nothing. */
    method Apply() returns (emitted: Option<DateRange>)
      modifies this
      ensures emitted.Some? <==> Truthy(tempStart) && Truthy(tempEnd)
      ensures emitted.Some? ==> !StrLess(emitted.value.end, emitted.value.start)
                                && multiset{emitted.value.start, emitted.value.end}
                                   == multiset{tempStart.value, tempEnd.value}
      ensures isOpen == (if emitted.Some? then false else old(isOpen))
      ensures tempStart == old(tempStart) && tempEnd == old(tempEnd)
    {
      if Truthy(tempStart) && Truthy(tempEnd) {
        emitted := Some(Ordered(tempStart.value, tempEnd.value));
        isOpen := false;
      } else {
        emitted := None;
      }
    }
  }

  // ---------------------------------------------------------------------------
  // The month grid
  // ---------------------------------------------------------------------------

  /** Monday-first column of a `getDay()` weekday: Monday 0 through Sunday 6. */
  function MondayFirst(weekday: nat): (c: nat)
    requires weekday < 7
    ensures c < 7 && (c + 1) % 7 == weekday
  {
    if weekday == 0 then 6 else weekday - 1
  }

  /** Cell `k` of the month grid whose first day is `s` and whose first `lead` cells are
      blank. */
  function GridCell(s: Date, lead: nat, k: nat): Option<string> {
    if k < lead then None else Some(FormatStr(s.(day := k - lead + 1)))
  }

  /** The day list of `renderCalendarMonth`: a blank per weekday before the first of the
      month, counted from Monday, then every day of the month in order. */
  method MonthGrid(year: int, monthIndex: int) returns (days: seq<Option<string>>)
    ensures var s := MonthStart(FullYear(year), monthIndex); var lead := MondayFirst(Weekday(s));
      |days| == lead + DaysInMonth(s.year, s.month)
      && forall k :: 0 <= k < |days| ==> days[k] == GridCell(s, lead, k)
  {
    var startOfMonth := MakeDate(year, monthIndex, 1);
    var endOfMonth := MakeDate(year, monthIndex + 1, 0);
    ghost var s := MonthStart(FullYear(year), monthIndex);
    MakeDateInMonth(year, monthIndex, 1);
    MakeDateMonthEnd(year, monthIndex);
    var daysInMonth := endOfMonth.day;
    var startDay := Weekday(startOfMonth);
    var adjustedStartDay := if startDay == 0 then 6 else startDay - 1;
    assert startOfMonth == s && daysInMonth == DaysInMonth(s.year, s.month);
    assert adjustedStartDay == MondayFirst(Weekday(s));
    days := [];
    var i := 0;
    while i < adjustedStartDay
      invariant 0 <= i <= adjustedStartDay
      invariant |days| == i && forall k :: 0 <= k < i ==> days[k] == GridCell(s, adjustedStartDay, k)
    {
      GridAppend(days, s, adjustedStartDay, None);
      days := days + [None];
      i := i + 1;
    }
    i := 1;
    while i <= daysInMonth
      invariant 1 <= i <= daysInMonth + 1
      invariant |days| == adjustedStartDay + i - 1
      invariant forall k :: 0 <= k < |days| ==> days[k] == GridCell(s, adjustedStartDay, k)
    {
      var d := MakeDate(year, monthIndex, i);
      MakeDateInMonth(year, monthIndex, i);
      GridAppend(days, s, adjustedStartDay, Some(FormatStr(d)));
      days := days + [Some(FormatStr(d))];
      i := i + 1;
    }
  }

  lemma GridAppend(days: seq<Option<string>>, s: Date, lead: nat, cell: Option<string>)
    requires forall k :: 0 <= k < |days| ==> days[k] == GridCell(s, lead, k)
    requires cell == GridCell(s, lead, |days|)
    ensures forall k :: 0 <= k < |days| + 1 ==> (days + [cell])[k] == GridCell(s, lead, k)
  {
  }

  /** The grid's days ascend both as dates and, for four-digit years, as the strings the
      selection compares. */
  lemma MonthGridAscending(s: Date, i: nat, j: nat)
    requires Valid(s) && 1 <= i < j <= DaysInMonth(s.year, s.month)
    ensures DayNumber(s.(day := i)) < DayNumber(s.(day := j))
    ensures 1000 <= s.year <= 9999 ==> StrLess(FormatStr(s.(day := i)), FormatStr(s.(day := j)))
  {
    if 1000 <= s.year <= 9999 {
      FormatStrOrder(s.(day := i), s.(day := j));
    }
  }
}
