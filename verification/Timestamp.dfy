/**
 Stored timestamps: fixed-width UTC strings whose byte order is the order of the instants, and
 which decode to the instant they encode.
 */
module Timestamp {
  import opened Core
  import opened StoreModel
  import Decimal
  import Lex

  // ---------- Fixed-width numbers ----------

  function Pow10(w: nat): (p: nat)
    ensures p > 0
  {
    if w == 0 then 1 else 10 * Pow10(w - 1)
  }

  /** The last `w` decimal digits of n, zero-padded. */
  function Digits(n: nat, w: nat): (s: string)
    ensures |s| == w
  {
    if w == 0 then "" else Digits(n / 10, w - 1) + [Decimal.Digit(n % 10)]
  }

  function DigitValue(c: char): nat { if '0' <= c <= '9' then (c - '0') as nat else 0 }

  function Number(s: string): nat {
    if s == "" then 0 else 10 * Number(s[..|s| - 1]) + DigitValue(s[|s| - 1])
  }

  predicate AllDigits(s: string) { forall i :: 0 <= i < |s| ==> '0' <= s[i] <= '9' }

  lemma DigitRoundTrip(d: nat)
    requires d < 10
    ensures '0' <= Decimal.Digit(d) <= '9' && DigitValue(Decimal.Digit(d)) == d
  {
  }

  lemma {:induction false} NumberOfDigits(n: nat, w: nat)
    requires n < Pow10(w)
    ensures Number(Digits(n, w)) == n && AllDigits(Digits(n, w))
  {
    if w == 0 {
    } else {
      DigitRoundTrip(n % 10);
      NumberOfDigits(n / 10, w - 1);
      hide Decimal.Digit, DigitValue;
      var s := Digits(n, w);
      assert s[..w - 1] == Digits(n / 10, w - 1) && s[w - 1] == Decimal.Digit(n % 10);
    }
  }

  /** Equal widths: the text order is the numeric order. */
  lemma {:induction false} DigitsOrder(m: nat, n: nat, w: nat)
    requires m < Pow10(w) && n < Pow10(w)
    ensures Lex.Less(Digits(m, w), Digits(n, w)) <==> m < n
    ensures Digits(m, w) == Digits(n, w) <==> m == n
  {
    NumberOfDigits(m, w);
    NumberOfDigits(n, w);
    if w == 0 {
    } else {
      DigitsOrder(m / 10, n / 10, w - 1);
      LastDigitOrder(m % 10, n % 10);
      hide Lex.Less, Decimal.Digit, Number, AllDigits;
      var p, q := Digits(m / 10, w - 1), Digits(n / 10, w - 1);
      var x, y := [Decimal.Digit(m % 10)], [Decimal.Digit(n % 10)];
      if p == q { Lex.SharedPrefix(p, x, y); } else { Lex.DecidedByPrefix(p, q, x, y); }
    }
  }

  lemma LastDigitOrder(d: nat, e: nat)
    requires d < 10 && e < 10
    ensures Lex.Less([Decimal.Digit(d)], [Decimal.Digit(e)]) <==> d < e
  {
  }

  /** A numeric field followed by more text is compared field first. */
  lemma FieldOrder(m: nat, n: nat, w: nat, x: string, y: string)
    requires m < Pow10(w) && n < Pow10(w)
    ensures Lex.Less(Digits(m, w) + x, Digits(n, w) + y) <==> m < n || (m == n && Lex.Less(x, y))
  {
    DigitsOrder(m, n, w);
    if m == n {
      Lex.SharedPrefix(Digits(m, w), x, y);
    } else {
      Lex.DecidedByPrefix(Digits(m, w), Digits(n, w), x, y);
    }
  }

  // ---------- The calendar ----------

  predicate IsLeap(y: nat) { y % 4 == 0 && (y % 100 != 0 || y % 400 == 0) }

  function DaysInMonth(y: nat, m: nat): nat {
    if m == 2 then (if IsLeap(y) then 29 else 28)
    else if m == 4 || m == 6 || m == 9 || m == 11 then 30
    else 31
  }

  /** Days from the first day of year 0 to the first day of month m of year y. */
  function MonthStart(y: nat, m: nat): nat
    requires 1 <= m <= 13
    decreases y, m
  {
    if m > 1 then MonthStart(y, m - 1) + DaysInMonth(y, m - 1)
    else if y > 0 then MonthStart(y - 1, 13)
    else 0
  }

  datatype Date = Date(year: nat, month: nat, day: nat) {
    predicate Valid() { 1 <= month <= 12 && 1 <= day <= DaysInMonth(year, month) }
  }

  function DayNumber(d: Date): nat
    requires d.Valid()
  {
    MonthStart(d.year, d.month) + d.day - 1
  }

  function NextDate(d: Date): Date
    requires d.Valid()
  {
    if d.day < DaysInMonth(d.year, d.month) then Date(d.year, d.month, d.day + 1)
    else if d.month < 12 then Date(d.year, d.month + 1, 1)
    else Date(d.year + 1, 1, 1)
  }

  lemma NextDay(d: Date)
    requires d.Valid()
    ensures NextDate(d).Valid() && DayNumber(NextDate(d)) == DayNumber(d) + 1
  {
    assert d.month == 12 ==> MonthStart(d.year + 1, 1) == MonthStart(d.year, 13);
    assert d.month < 12 ==>
      MonthStart(d.year, d.month + 1) == MonthStart(d.year, d.month) + DaysInMonth(d.year, d.month);
  }

  /** The date a number of days after the first day of year 0. */
  function DateOf(n: nat): (d: Date)
    ensures d.Valid() && DayNumber(d) == n
  {
    if n == 0 then Date(0, 1, 1)
    else
      var p := DateOf(n - 1);
      NextDay(p);
      NextDate(p)
  }

  // ---------- The calendar is the Gregorian one ----------

  /** The days of each month, and the days before it, in a common year. */
  const MONTH_LENGTHS := [31, 28, 31, 30, 31, 30, 31, 31, 30, 31, 30, 31]
  const DAYS_BEFORE := [0, 31, 59, 90, 120, 151, 181, 212, 243, 273, 304, 334]

  predicate Leap(y: nat) { y % 4 == 0 && (y % 100 != 0 || y % 400 == 0) }

  lemma {:induction false} MonthTable(y: nat, m: nat)
    requires 1 <= m <= 12
    ensures DaysInMonth(y, m) == MONTH_LENGTHS[m - 1] + (if Leap(y) && m == 2 then 1 else 0)
    ensures MonthStart(y, m) == MonthStart(y, 1) + DAYS_BEFORE[m - 1] + (if Leap(y) && m > 2 then 1 else 0)
  {
    assert IsLeap(y) == Leap(y);
    hide IsLeap, Leap;
    if m > 1 {
      MonthTable(y, m - 1);
      assert MonthStart(y, m) == MonthStart(y, m - 1) + DaysInMonth(y, m - 1);
      hide MonthStart, DaysInMonth;
    } else {
    }
  }

  /** Leap years before year y. */
  function Leaps(y: nat): int { (y + 3) / 4 - (y + 99) / 100 + (y + 399) / 400 }

  lemma LeapsGrow(y: nat)
    ensures Leaps(y + 1) == Leaps(y) + (if Leap(y) then 1 else 0)
  {
    assert (y + 4) / 4 == (y + 3) / 4 + (if y % 4 == 0 then 1 else 0);
    assert (y + 100) / 100 == (y + 99) / 100 + (if y % 100 == 0 then 1 else 0);
    assert (y + 400) / 400 == (y + 399) / 400 + (if y % 400 == 0 then 1 else 0);
  }

  /** Years have 365 days; every fourth one more, but for the centuries that 400 does not divide. */
  lemma {:induction false} YearTable(y: nat)
    ensures MonthStart(y, 1) == 365 * y + Leaps(y)
  {
    if y > 0 {
      YearTable(y - 1);
      MonthTable(y - 1, 12);
      LeapsGrow(y - 1);
      assert MonthStart(y, 1) == MonthStart(y - 1, 13) == MonthStart(y - 1, 12) + DaysInMonth(y - 1, 12);
      hide MonthStart, DaysInMonth, Leaps, Leap;
    } else {
    }
  }

  /** The instant of a reading, by the rules of the Gregorian calendar alone. */
  lemma InstantIsGregorian(c: Civil)
    requires c.Valid()
    ensures var y, m := c.date.year, c.date.month;
      var leap := y % 4 == 0 && (y % 100 != 0 || y % 400 == 0);
      && 1 <= m <= 12 && 1 <= c.date.day <= MONTH_LENGTHS[m - 1] + (if leap && m == 2 then 1 else 0)
      && var days := 365 * y + (y + 3) / 4 - (y + 99) / 100 + (y + 399) / 400
                     + DAYS_BEFORE[m - 1] + (if leap && m > 2 then 1 else 0) + c.date.day - 1;
         InstantOf(c) == (((days * 24 + c.hour) * 60 + c.minute) * 60 + c.second) * 1_000_000_000 + c.nano
  {
    hide MonthStart, DaysInMonth;
    MonthTable(c.date.year, c.date.month);
    YearTable(c.date.year);
    assert NANOS_PER_DAY == 24 * 60 * 60 * 1_000_000_000;
  }

  predicate DateBefore(a: Date, b: Date) {
    a.year < b.year || (a.year == b.year && (a.month < b.month || (a.month == b.month && a.day < b.day)))
  }

  lemma {:induction false} MonthsGrow(y: nat, m: nat, m': nat)
    requires 1 <= m <= m' <= 13
    ensures MonthStart(y, m) + 28 * (m' - m) <= MonthStart(y, m')
    decreases m' - m
  {
    if m == m' {
    } else {
      MonthsGrow(y, m, m' - 1);
    }
  }

  lemma MonthFits(y: nat, m: nat, m': nat)
    requires 1 <= m < m' <= 13
    ensures MonthStart(y, m) + DaysInMonth(y, m) <= MonthStart(y, m')
  {
    MonthsGrow(y, m + 1, m');
  }

  lemma {:induction false} YearsGrow(y: nat, y': nat)
    requires y <= y'
    ensures MonthStart(y, 1) <= MonthStart(y', 1)
    ensures y < y' ==> MonthStart(y, 13) <= MonthStart(y', 1)
    decreases y' - y
  {
    if y == y' {
    } else {
      YearsGrow(y, y' - 1);
      MonthsGrow(y' - 1, 1, 13);
    }
  }

  lemma DatesGrow(a: Date, b: Date)
    requires a.Valid() && b.Valid() && DateBefore(a, b)
    ensures DayNumber(a) < DayNumber(b)
  {
    if a.year < b.year {
      MonthFits(a.year, a.month, 13);
      YearsGrow(a.year, b.year);
      MonthsGrow(b.year, 1, b.month);
    } else if a.month < b.month {
      MonthFits(a.year, a.month, b.month);
    }
  }

  /** Calendar order is day order. */
  lemma DateOrder(a: Date, b: Date)
    requires a.Valid() && b.Valid()
    ensures DateBefore(a, b) <==> DayNumber(a) < DayNumber(b)
    ensures a == b <==> DayNumber(a) == DayNumber(b)
  {
    if DateBefore(a, b) { DatesGrow(a, b); }
    else if DateBefore(b, a) { DatesGrow(b, a); }
  }

  // ---------- Instants ----------

  const NANOS_PER_SECOND: nat := 1_000_000_000
  const NANOS_PER_DAY: nat := 86_400 * NANOS_PER_SECOND

  /** A UTC reading of the clock. */
  datatype Civil = Civil(date: Date, hour: nat, minute: nat, second: nat, nano: nat) {
    predicate Valid() {
      date.Valid() && hour < 24 && minute < 60 && second < 60 && nano < NANOS_PER_SECOND
    }
  }

  function InDay(c: Civil): nat {
    ((c.hour * 60 + c.minute) * 60 + c.second) * NANOS_PER_SECOND + c.nano
  }

  /** Nanoseconds since the start of year 0. */
  function InstantOf(c: Civil): nat
    requires c.Valid()
  {
    DayNumber(c.date) * NANOS_PER_DAY + InDay(c)
  }

  lemma SplitSeconds(s: nat)
    requires s < 86_400
    ensures s / 3600 < 24 && ((s / 3600) * 60 + s / 60 % 60) * 60 + s % 60 == s
  {
    var m := s / 60;
    assert s / 3600 == m / 60;
  }

  lemma SplitDay(r: nat)
    requires r < NANOS_PER_DAY
    ensures r / NANOS_PER_SECOND < 86_400
    ensures (r / NANOS_PER_SECOND) * NANOS_PER_SECOND + r % NANOS_PER_SECOND == r
  {
  }

  function CivilOf(t: nat): (c: Civil)
    ensures c.Valid() && InstantOf(c) == t
  {
    var d, r := t / NANOS_PER_DAY, t % NANOS_PER_DAY;
    var s := r / NANOS_PER_SECOND;
    assert d * NANOS_PER_DAY + r == t;
    SplitDay(r);
    SplitSeconds(s);
    Civil(DateOf(d), s / 3600, s / 60 % 60, s % 60, r % NANOS_PER_SECOND)
  }

  predicate ClockBefore(a: Civil, b: Civil) {
    a.hour < b.hour || (a.hour == b.hour && (a.minute < b.minute || (a.minute == b.minute
      && (a.second < b.second || (a.second == b.second && a.nano < b.nano)))))
  }

  predicate CivilBefore(a: Civil, b: Civil) {
    DateBefore(a.date, b.date) || (a.date == b.date && ClockBefore(a, b))
  }

  lemma InDayOrder(a: Civil, b: Civil)
    requires a.Valid() && b.Valid()
    ensures InDay(a) < NANOS_PER_DAY
    ensures ClockBefore(a, b) <==> InDay(a) < InDay(b)
  {
  }

  lemma DaysThenNanos(d: nat, r: nat, d': nat, r': nat)
    requires r < NANOS_PER_DAY && r' < NANOS_PER_DAY
    ensures d * NANOS_PER_DAY + r < d' * NANOS_PER_DAY + r' <==> d < d' || (d == d' && r < r')
  {
  }

  /** Reading order is instant order. */
  lemma CivilOrder(a: Civil, b: Civil)
    requires a.Valid() && b.Valid()
    ensures CivilBefore(a, b) <==> InstantOf(a) < InstantOf(b)
  {
    DateOrder(a.date, b.date);
    InDayOrder(a, b);
    InDayOrder(b, a);
    DaysThenNanos(DayNumber(a.date), InDay(a), DayNumber(b.date), InDay(b));
  }

  // ---------- The encoding ----------

  /** Four digits, more when the year needs them. */
  function YearText(y: nat): string {
    if y < 10_000 then Digits(y, 4) else Decimal.FormatNat(y)
  }

  function ClockText(c: Civil): string {
    Digits(c.hour, 2) + (":" + (Digits(c.minute, 2) +
      (":" + (Digits(c.second, 2) + ("." + (Digits(c.nano, 9) + "Z"))))))
  }

  function Format(c: Civil): string {
    YearText(c.date.year) + ("-" + (Digits(c.date.month, 2) + ("-" + (Digits(c.date.day, 2) + ("T" + ClockText(c))))))
  }

  function Ts(t: nat): string { Format(CivilOf(t)) }

  /** The last instant of year 9999 is before this one. */
  function Limit(): nat { MonthStart(10_000, 1) * NANOS_PER_DAY }

  lemma YearBelow(t: nat, y: nat)
    requires t < MonthStart(y, 1) * NANOS_PER_DAY
    ensures CivilOf(t).date.year < y
  {
    var c := CivilOf(t);
    InDayOrder(c, c);
    DaysThenNanos(DayNumber(c.date), InDay(c), MonthStart(y, 1), 0);
    hide InstantOf, InDay;
    MonthsGrow(c.date.year, 1, c.date.month);
    if y <= c.date.year { YearsGrow(y, c.date.year); }
  }

  lemma YearInRange(t: nat)
    requires t < Limit()
    ensures CivilOf(t).date.year < 10_000
  {
    hide MonthStart;
    YearBelow(t, 10_000);
  }

  lemma TwoDigits()
    ensures Pow10(2) == 100 && Pow10(4) == 10_000 && Pow10(9) == NANOS_PER_SECOND
  {
    assert Pow10(3) == 1000 && Pow10(5) == 100_000 && Pow10(7) == 10_000_000;
  }

  lemma SameFirst(c: char, x: string, y: string)
    ensures Lex.Less([c] + x, [c] + y) <==> Lex.Less(x, y)
  {
    Lex.SharedPrefix([c], x, y);
  }

  lemma ClockTextOrder(a: Civil, b: Civil)
    requires a.Valid() && b.Valid()
    ensures Lex.Less(ClockText(a), ClockText(b)) <==> ClockBefore(a, b)
    ensures |ClockText(a)| == 19
  {
    TwoDigits();
    hide Lex.Less, Digits, Pow10;
    var a4, b4 := Digits(a.nano, 9) + "Z", Digits(b.nano, 9) + "Z";
    var a3, b3 := Digits(a.second, 2) + ("." + a4), Digits(b.second, 2) + ("." + b4);
    var a2, b2 := Digits(a.minute, 2) + (":" + a3), Digits(b.minute, 2) + (":" + b3);
    Lex.Irreflexive("Z");
    FieldOrder(a.nano, b.nano, 9, "Z", "Z");
    SameFirst('.', a4, b4);
    FieldOrder(a.second, b.second, 2, "." + a4, "." + b4);
    SameFirst(':', a3, b3);
    FieldOrder(a.minute, b.minute, 2, ":" + a3, ":" + b3);
    SameFirst(':', a2, b2);
    FieldOrder(a.hour, b.hour, 2, ":" + a2, ":" + b2);
  }

  lemma FormatOrder(a: Civil, b: Civil)
    requires a.Valid() && b.Valid() && a.date.year < 10_000 && b.date.year < 10_000
    ensures Lex.Less(Format(a), Format(b)) <==> CivilBefore(a, b)
  {
    TwoDigits();
    ClockTextOrder(a, b);
    hide Lex.Less, Digits, Pow10, ClockText;
    var a2, b2 := Digits(a.date.day, 2) + ("T" + ClockText(a)), Digits(b.date.day, 2) + ("T" + ClockText(b));
    var a1, b1 := Digits(a.date.month, 2) + ("-" + a2), Digits(b.date.month, 2) + ("-" + b2);
    SameFirst('T', ClockText(a), ClockText(b));
    FieldOrder(a.date.day, b.date.day, 2, "T" + ClockText(a), "T" + ClockText(b));
    SameFirst('-', a2, b2);
    FieldOrder(a.date.month, b.date.month, 2, "-" + a2, "-" + b2);
    SameFirst('-', a1, b1);
    FieldOrder(a.date.year, b.date.year, 4, "-" + a1, "-" + b1);
  }

  /** Through the year 9999, stored strings compare as the instants they stand for. */
  lemma TextOrderIsTimeOrder(t: nat, u: nat)
    requires t < Limit() && u < Limit()
    ensures Lex.Less(Ts(t), Ts(u)) <==> t < u
    ensures |Ts(t)| == 30
  {
    YearInRange(t);
    YearInRange(u);
    FormatOrder(CivilOf(t), CivilOf(u));
    CivilOrder(CivilOf(t), CivilOf(u));
    ClockTextOrder(CivilOf(t), CivilOf(u));
  }

  const LAST_DAY := Civil(Date(9999, 12, 31), 0, 0, 0, 0)
  const YEAR_10000 := Civil(Date(10_000, 1, 1), 0, 0, 0, 0)

  lemma FiveDigitYearText()
    ensures Lex.Less(Format(YEAR_10000), Format(LAST_DAY))
  {
    assert Decimal.FormatNat(10)[0] == '1';
    assert Decimal.FormatNat(100)[0] == '1';
    assert Decimal.FormatNat(1000)[0] == '1';
    assert YearText(10_000)[0] == '1';
    assert Digits(9, 1)[0] == '9';
    assert Digits(99, 2)[0] == '9';
    assert Digits(999, 3)[0] == '9';
    assert YearText(9999)[0] == '9';
    assert Format(YEAR_10000)[0] == '1' && Format(LAST_DAY)[0] == '9';
  }

  /** Two readings of one instant are the same. */
  lemma ReadingIsUnique(c: Civil)
    requires c.Valid()
    ensures CivilOf(InstantOf(c)) == c
  {
    var d := CivilOf(InstantOf(c));
    CivilOrder(c, d);
    CivilOrder(d, c);
    hide InstantOf, CivilOf;
  }

  lemma EpochFields()
    ensures Digits(1970, 4) == "1970" && Digits(1, 2) == "01" && Digits(0, 2) == "00" && Digits(0, 9) == "000000000"
  {
    assert Digits(19, 2) == "19";
    assert Digits(197, 3) == "197";
    assert Digits(0, 3) == "000";
    assert Digits(0, 6) == "000000";
  }

  lemma EpochReading()
    ensures var c := Civil(Date(1970, 1, 1), 0, 0, 0, 0);
      c.Valid() && InstantOf(c) == 719_528 * 86_400 * 1_000_000_000
  {
    InstantIsGregorian(Civil(Date(1970, 1, 1), 0, 0, 0, 0));
    hide InstantOf;
  }

  lemma MidnightText(c: Civil)
    requires c.hour == c.minute == c.second == c.nano == 0
    ensures ClockText(c) == "00:00:" + ("00." + ("0000000" + "00Z"))
  {
    hide Digits;
    EpochFields();
    assert "00" + (":" + ("00" + (":" + ("00" + ("." + ("000000000" + "Z")))))) ==
      "00:00:" + ("00." + ("0000000" + "00Z"));
  }

  lemma EpochDateText(k: string)
    ensures "1970" + ("-" + ("01" + ("-" + ("01" + ("T" + k))))) == "1970-" + ("01-01T" + k)
  {
  }

  /** The stored string of 1 January 1970, which is day 719528. */
  lemma EpochText()
    ensures Ts(719_528 * 86_400 * 1_000_000_000) == "1970-" + ("01-01T" + ("00:00:" + ("00." + ("0000000" + "00Z"))))
  {
    var c := Civil(Date(1970, 1, 1), 0, 0, 0, 0);
    EpochReading();
    hide MonthStart, InstantOf, CivilOf, Digits, ClockText;
    ReadingIsUnique(c);
    EpochFields();
    MidnightText(c);
    EpochDateText(ClockText(c));
  }

  lemma YearStarts(y: nat)
    ensures var c := Civil(Date(y, 1, 1), 0, 0, 0, 0); c.Valid() && InstantOf(c) == MonthStart(y, 1) * NANOS_PER_DAY
  {
  }

  /** Beyond it they do not: the first instant of year 10000 sorts before the last day of 9999. */
  lemma FiveDigitYearsSortWrong()
    ensures LAST_DAY.Valid() && InstantOf(LAST_DAY) < Limit() && Lex.Less(Ts(Limit()), Ts(InstantOf(LAST_DAY)))
  {
    YearStarts(10_000);
    assert LAST_DAY.Valid();
    CivilOrder(LAST_DAY, YEAR_10000);
    hide MonthStart, InstantOf, CivilOf, Format;
    ReadingIsUnique(LAST_DAY);
    ReadingIsUnique(YEAR_10000);
    FiveDigitYearText();
  }

  /** Stored strings sort as instants below a bound if and only if the bound is at most the start of year 10000. */
  lemma TextOrderIffFourDigitYears(b: nat)
    ensures (forall t: nat, u: nat :: t < b && u < b ==> (Lex.Less(Ts(t), Ts(u)) <==> t < u)) <==> b <= Limit()
  {
    hide Limit, Ts, Lex.Less;
    if b <= Limit() {
      forall t: nat, u: nat | t < b && u < b ensures Lex.Less(Ts(t), Ts(u)) <==> t < u {
        TextOrderIsTimeOrder(t, u);
      }
    } else {
      FiveDigitYearsSortWrong();
    }
  }

  // ---------- Decoding ----------

  const ZERO_TIME := Civil(Date(1, 1, 1), 0, 0, 0, 0)

  /** Reads the fixed-width form; `None` for anything else. */
  function ReadFields(s: string): Option<Civil> {
    if |s| == 30 && s[4] == '-' && s[7] == '-' && s[10] == 'T'
       && s[13] == ':' && s[16] == ':' && s[19] == '.' && s[29] == 'Z'
       && AllDigits(s[..4]) && AllDigits(s[5..7]) && AllDigits(s[8..10]) && AllDigits(s[11..13])
       && AllDigits(s[14..16]) && AllDigits(s[17..19]) && AllDigits(s[20..29])
    then Some(Civil(Date(Number(s[..4]), Number(s[5..7]), Number(s[8..10])),
                    Number(s[11..13]), Number(s[14..16]), Number(s[17..19]), Number(s[20..29])))
    else None
  }

  /** Malformed text decodes to the zero time, never to an error. */
  function ParseTs(s: string): nat {
    var f := ReadFields(s);
    if f.Some? && f.value.Valid() then InstantOf(f.value) else InstantOf(ZERO_TIME)
  }

  lemma ClockShape(c: Civil)
    requires c.Valid()
    ensures var s := ClockText(c);
      && |s| == 19 && s[2] == ':' && s[5] == ':' && s[8] == '.' && s[18] == 'Z'
      && s[..2] == Digits(c.hour, 2) && s[3..5] == Digits(c.minute, 2) && s[6..8] == Digits(c.second, 2)
      && s[9..18] == Digits(c.nano, 9)
  {
    hide Digits;
    var s := ClockText(c);
    assert s[..2] == Digits(c.hour, 2);
    assert s[3..5] == Digits(c.minute, 2);
    assert s[6..8] == Digits(c.second, 2);
    assert s[9..18] == Digits(c.nano, 9);
  }

  lemma FormatShape(c: Civil)
    requires c.Valid() && c.date.year < 10_000
    ensures var s := Format(c);
      && |s| == 30 && s[4] == '-' && s[7] == '-' && s[10] == 'T' && s[11..] == ClockText(c)
      && s[..4] == Digits(c.date.year, 4) && s[5..7] == Digits(c.date.month, 2) && s[8..10] == Digits(c.date.day, 2)
  {
    ClockShape(c);
    hide Digits, ClockText;
    Pieces(YearText(c.date.year), Digits(c.date.month, 2), Digits(c.date.day, 2), ClockText(c));
  }

  lemma Pieces(y: string, m: string, d: string, k: string)
    requires |y| == 4 && |m| == 2 && |d| == 2 && |k| == 19
    ensures var s := y + ("-" + (m + ("-" + (d + ("T" + k)))));
      && |s| == 30 && s[4] == '-' && s[7] == '-' && s[10] == 'T' && s[11..] == k
      && s[..4] == y && s[5..7] == m && s[8..10] == d
  {
    var s := y + ("-" + (m + ("-" + (d + ("T" + k)))));
    assert s[..4] == y;
    assert s[5..7] == m;
    assert s[8..10] == d;
    assert s[11..] == k;
  }

  lemma ClockPieces(s: string, k: string)
    requires |s| == 30 && |k| == 19 && s[11..] == k
    ensures s[11..13] == k[..2] && s[14..16] == k[3..5] && s[17..19] == k[6..8] && s[20..29] == k[9..18]
    ensures s[13] == k[2] && s[16] == k[5] && s[19] == k[8] && s[29] == k[18]
  {
    assert forall i :: 11 <= i < 30 ==> s[i] == s[11..][i - 11];
  }

  lemma FieldsRead(c: Civil)
    requires c.Valid() && c.date.year < 10_000
    ensures Number(Digits(c.date.year, 4)) == c.date.year && AllDigits(Digits(c.date.year, 4))
    ensures Number(Digits(c.date.month, 2)) == c.date.month && AllDigits(Digits(c.date.month, 2))
    ensures Number(Digits(c.date.day, 2)) == c.date.day && AllDigits(Digits(c.date.day, 2))
    ensures Number(Digits(c.hour, 2)) == c.hour && AllDigits(Digits(c.hour, 2))
    ensures Number(Digits(c.minute, 2)) == c.minute && AllDigits(Digits(c.minute, 2))
    ensures Number(Digits(c.second, 2)) == c.second && AllDigits(Digits(c.second, 2))
    ensures Number(Digits(c.nano, 9)) == c.nano && AllDigits(Digits(c.nano, 9))
  {
    TwoDigits();
    hide Digits, Number, AllDigits, Pow10;
    NumberOfDigits(c.date.year, 4);
    NumberOfDigits(c.date.month, 2);
    NumberOfDigits(c.date.day, 2);
    NumberOfDigits(c.hour, 2);
    NumberOfDigits(c.minute, 2);
    NumberOfDigits(c.second, 2);
    NumberOfDigits(c.nano, 9);
  }

  lemma ReadsBack(c: Civil)
    requires c.Valid() && c.date.year < 10_000
    ensures ReadFields(Format(c)) == Some(c)
  {
    hide Digits, Number, AllDigits, Format, ClockText;
    FormatShape(c);
    ClockShape(c);
    ClockPieces(Format(c), ClockText(c));
    FieldsRead(c);
  }

  /** Decoding inverts encoding. */
  lemma RoundTrip(t: nat)
    requires t < Limit()
    ensures ParseTs(Ts(t)) == t
  {
    YearInRange(t);
    ReadsBack(CivilOf(t));
  }

  /** The expiry test of the rule query, on stored strings, is the rule's own test on instants. */
  lemma ExpiryTestAgrees(r: Rule, now: nat)
    requires now < Limit() && (r.expiresAt.Some? ==> 0 <= r.expiresAt.value < Limit())
    ensures r.Active(now) <==> !r.consumed && (r.expiresAt.None? || Lex.Less(Ts(now), Ts(r.expiresAt.value)))
  {
    if r.expiresAt.Some? { TextOrderIsTimeOrder(now, r.expiresAt.value); }
  }

  lemma SameText(t: nat, u: nat)
    requires t < Limit() && u < Limit()
    ensures Ts(t) == Ts(u) <==> t == u
  {
    TextOrderIsTimeOrder(t, u);
    TextOrderIsTimeOrder(u, t);
    Lex.Irreflexive(Ts(t));
    hide Ts, Lex.Less;
  }

  /** ORDER BY created_at, id on stored strings is the queue order on instants. */
  lemma QueueOrderAgrees(a: Continuation, b: Continuation)
    requires 0 <= a.createdAt < Limit() && 0 <= b.createdAt < Limit()
    ensures Before(a, b) <==>
      Lex.Less(Ts(a.createdAt), Ts(b.createdAt)) || (Ts(a.createdAt) == Ts(b.createdAt) && Lex.Less(a.id, b.id))
  {
    hide Ts, Lex.Less;
    TextOrderIsTimeOrder(a.createdAt, b.createdAt);
    SameText(a.createdAt, b.createdAt);
  }

  /** The sweep's three cut-offs, compared as strings, are its cut-offs on instants. */
  lemma CutOffsAgree(db: Db, now: Instant, p: RetentionPolicy, c: Continuation, s: string, e: string)
    requires 0 <= c.updatedAt < Limit() && 0 <= now - p.continuationAge < Limit()
    requires s in db.sessions && 0 <= db.sessions[s].updatedAt < Limit() && 0 <= now - p.sessionIdle < Limit()
    requires e in db.events && 0 <= db.events[e].timestamp < Limit() && 0 <= now - p.eventAge < Limit()
    ensures RowExpired(c, now, p) <==> c.state.Terminal() && Lex.Less(Ts(c.updatedAt), Ts(now - p.continuationAge))
    ensures SessionExpired(db, s, now, p) <==>
      && Lex.Less(Ts(db.sessions[s].updatedAt), Ts(now - p.sessionIdle))
      && !db.sessions[s].state.SessionRunning? && !Armed(db.rules, s, now)
    ensures e !in SweepDb(db, now, p).events <==> Lex.Less(Ts(db.events[e].timestamp), Ts(now - p.eventAge))
  {
    hide Ts, Lex.Less, Armed;
    TextOrderIsTimeOrder(c.updatedAt, now - p.continuationAge);
    TextOrderIsTimeOrder(db.sessions[s].updatedAt, now - p.sessionIdle);
    TextOrderIsTimeOrder(db.events[e].timestamp, now - p.eventAge);
  }
}
