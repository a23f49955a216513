/** UTC instants, their ISO 8601 text, and why comparing the text compares the
    time. Python leaves the fraction out when it is zero, so section 5.1 of
    RFC 3339, which orders texts of equal fraction width, does not cover it. */
module Timestamps {
  import opened Arithmetic
  import opened Models
  import Text

  datatype Instant = Instant(year: nat, month: nat, day: nat, hour: nat, minute: nat, second: nat, micro: nat)

  // ----- the calendar

  predicate IsLeap(y: nat) {
    y % 4 == 0 && (y % 100 != 0 || y % 400 == 0)
  }

  function DaysInMonth(y: nat, m: nat): nat {
    if m == 2 then (if IsLeap(y) then 29 else 28)
    else if m == 4 || m == 6 || m == 9 || m == 11 then 30
    else 31
  }

  function DaysInYear(y: nat): nat {
    if IsLeap(y) then 366 else 365
  }

  /** Days before the first of January of year y, counted from year 1. */
  function DaysBeforeYear(y: nat): nat
    requires y >= 1
  {
    var p := y - 1;
    p * 365 + p / 4 - p / 100 + p / 400
  }

  function DaysBeforeMonth(y: nat, m: nat): nat
    requires m >= 1
  {
    if m == 1 then 0 else DaysBeforeMonth(y, m - 1) + DaysInMonth(y, m - 1)
  }

  predicate Valid(t: Instant) {
    && 1 <= t.year <= 9999
    && 1 <= t.month <= 12
    && 1 <= t.day <= DaysInMonth(t.year, t.month)
    && t.hour < 24 && t.minute < 60 && t.second < 60 && t.micro < 1_000_000
  }

  function Ordinal(t: Instant): nat
    requires Valid(t)
  {
    DaysBeforeYear(t.year) + DaysBeforeMonth(t.year, t.month) + t.day
  }

  function MicroOfDay(t: Instant): nat {
    ((t.hour * 60 + t.minute) * 60 + t.second) * 1_000_000 + t.micro
  }

  const DAY: nat := 86_400_000_000

  /** The position of an instant on the time line, in microseconds. */
  function Micros(t: Instant): nat
    requires Valid(t)
  {
    Ordinal(t) * DAY + MicroOfDay(t)
  }

  // ----- order of the fields

  predicate TimeBefore(a: Instant, b: Instant) {
    || a.hour < b.hour
    || (a.hour == b.hour && (a.minute < b.minute
    || (a.minute == b.minute && (a.second < b.second
    || (a.second == b.second && a.micro < b.micro)))))
  }

  /** Field by field, most significant first. */
  predicate Before(a: Instant, b: Instant) {
    || a.year < b.year
    || (a.year == b.year && (a.month < b.month
    || (a.month == b.month && (a.day < b.day
    || (a.day == b.day && TimeBefore(a, b))))))
  }

  lemma NextMultiple(y: nat, q: nat, r: nat, d: nat)
    requires y >= 1 && d >= 2 && y - 1 == q * d + r && r < d
    ensures y % d == 0 <==> r == d - 1
    ensures y / d == if r == d - 1 then q + 1 else q
  {
    assert y == (y / d) * d + y % d;
    if r == d - 1 {
      assert (q + 1) * d == q * d + d;
      DivisionIsUnique(d, y / d, y % d, q + 1, 0);
    } else {
      DivisionIsUnique(d, y / d, y % d, q, r + 1);
    }
  }

  lemma MultipleOf(y: nat, d: nat, k: nat, e: nat)
    requires e > 0 && y == d * k && d % e == 0
    ensures y % e == 0
  {
    var c := d / e;
    assert d == c * e;
    assert y == (c * k) * e by { assert d * k == c * e * k; }
    assert y == (y / e) * e + y % e;
    DivisionIsUnique(e, y / e, y % e, c * k, 0);
  }

  lemma CenturiesDivide(y: nat)
    ensures y % 100 == 0 ==> y % 4 == 0
    ensures y % 400 == 0 ==> y % 100 == 0
  {
    if y % 100 == 0 { MultipleOf(y, 100, y / 100, 4); }
    if y % 400 == 0 { MultipleOf(y, 400, y / 400, 100); }
  }

  lemma NextYear(y: nat)
    requires y >= 1
    ensures DaysBeforeYear(y + 1) == DaysBeforeYear(y) + DaysInYear(y)
  {
    var p := y - 1;
    NextMultiple(y, p / 4, p % 4, 4);
    NextMultiple(y, p / 100, p % 100, 100);
    NextMultiple(y, p / 400, p % 400, 400);
    CenturiesDivide(y);
  }

  lemma {:induction false} YearsGrow(y: nat, z: nat)
    requires 1 <= y < z
    ensures DaysBeforeYear(y) + DaysInYear(y) <= DaysBeforeYear(z)
    decreases z - y
  {
    NextYear(y);
    if y + 1 < z { YearsGrow(y + 1, z); }
  }

  lemma {:induction false} MonthsGrow(y: nat, m: nat, n: nat)
    requires 1 <= m < n
    ensures DaysBeforeMonth(y, m) + DaysInMonth(y, m) <= DaysBeforeMonth(y, n)
    decreases n
  {
    if m < n - 1 { MonthsGrow(y, m, n - 1); }
  }

  lemma YearHasItsMonths(y: nat)
    ensures DaysBeforeMonth(y, 13) == DaysInYear(y)
  {
    var feb := DaysInMonth(y, 2);
    assert DaysBeforeMonth(y, 2) == 31 && DaysBeforeMonth(y, 3) == 31 + feb;
    assert DaysBeforeMonth(y, 4) == 62 + feb && DaysBeforeMonth(y, 5) == 92 + feb;
    assert DaysBeforeMonth(y, 6) == 123 + feb && DaysBeforeMonth(y, 7) == 153 + feb;
    assert DaysBeforeMonth(y, 8) == 184 + feb && DaysBeforeMonth(y, 9) == 215 + feb;
    assert DaysBeforeMonth(y, 10) == 245 + feb && DaysBeforeMonth(y, 11) == 276 + feb;
    assert DaysBeforeMonth(y, 12) == 306 + feb;
  }

  lemma DayOfYear(t: Instant)
    requires Valid(t)
    ensures 1 <= DaysBeforeMonth(t.year, t.month) + t.day <= DaysInYear(t.year)
  {
    YearHasItsMonths(t.year);
    if t.month < 12 { MonthsGrow(t.year, t.month, 13); }
  }

  lemma OrdinalOrder(a: Instant, b: Instant)
    requires Valid(a) && Valid(b)
    requires a.year < b.year || (a.year == b.year && (a.month < b.month || (a.month == b.month && a.day < b.day)))
    ensures Ordinal(a) < Ordinal(b)
  {
    DayOfYear(a);
    DayOfYear(b);
    if a.year < b.year {
      YearsGrow(a.year, b.year);
    } else if a.month < b.month {
      MonthsGrow(a.year, a.month, b.month);
    }
  }

  lemma BeforeImpliesEarlier(a: Instant, b: Instant)
    requires Valid(a) && Valid(b) && Before(a, b)
    ensures Micros(a) < Micros(b)
  {
    assert MicroOfDay(a) < DAY && MicroOfDay(b) < DAY;
    if a.year == b.year && a.month == b.month && a.day == b.day {
      assert MicroOfDay(a) < MicroOfDay(b);
    } else {
      OrdinalOrder(a, b);
    }
  }

  /** Field order is chronological order. */
  lemma BeforeIsEarlier(a: Instant, b: Instant)
    requires Valid(a) && Valid(b)
    ensures Before(a, b) <==> Micros(a) < Micros(b)
  {
    if Before(a, b) {
      BeforeImpliesEarlier(a, b);
    } else if Before(b, a) {
      BeforeImpliesEarlier(b, a);
    } else {
      assert a == b;
    }
  }

  // ----- back from the time line

  function YearFrom(day: nat, y: nat): (r: nat)
    requires y >= 1 && 1 <= day <= DaysBeforeYear(y + 1)
    ensures 1 <= r <= y && DaysBeforeYear(r) < day <= DaysBeforeYear(r) + DaysInYear(r)
    decreases y
  {
    NextYear(y);
    if DaysBeforeYear(y) < day then y else YearFrom(day, y - 1)
  }

  function MonthFrom(y: nat, day: nat, m: nat): (r: nat)
    requires m >= 1 && 1 <= day <= DaysBeforeMonth(y, m) + DaysInMonth(y, m)
    ensures 1 <= r <= m && DaysBeforeMonth(y, r) < day <= DaysBeforeMonth(y, r) + DaysInMonth(y, r)
    decreases m
  {
    if DaysBeforeMonth(y, m) < day then m else MonthFrom(y, day, m - 1)
  }

  const LAST_DAY: nat := DaysBeforeYear(10000)

  predicate OnCalendar(n: int) {
    DAY <= n < (LAST_DAY + 1) * DAY
  }

  datatype Date = Date(year: nat, month: nat, day: nat)

  function DateFrom(n: nat): (d: Date)
    requires 1 <= n <= LAST_DAY
    ensures 1 <= d.year <= 9999 && 1 <= d.month <= 12 && 1 <= d.day <= DaysInMonth(d.year, d.month)
    ensures DaysBeforeYear(d.year) + DaysBeforeMonth(d.year, d.month) + d.day == n
  {
    var y := YearFrom(n, 9999);
    YearHasItsMonths(y);
    var m := MonthFrom(y, n - DaysBeforeYear(y), 12);
    Date(y, m, n - DaysBeforeYear(y) - DaysBeforeMonth(y, m))
  }

  datatype Time = Time(hour: nat, minute: nat, second: nat, micro: nat)

  function TimeFrom(n: nat): (t: Time)
    requires n < DAY
    ensures t.hour < 24 && t.minute < 60 && t.second < 60 && t.micro < 1_000_000
    ensures ((t.hour * 60 + t.minute) * 60 + t.second) * 1_000_000 + t.micro == n
  {
    var seconds := n / 1_000_000;
    var minutes := seconds / 60;
    Time(minutes / 60, minutes % 60, seconds % 60, n % 1_000_000)
  }

  lemma DayAndRest(n: nat)
    requires OnCalendar(n)
    ensures 1 <= n / DAY <= LAST_DAY && n % DAY < DAY && (n / DAY) * DAY + n % DAY == n
  {}

  /** The instant at a position of the time line. */
  function FromMicros(n: nat): (t: Instant)
    requires OnCalendar(n)
    ensures Valid(t) && Micros(t) == n
  {
    DayAndRest(n);
    var date, time := DateFrom(n / DAY), TimeFrom(n % DAY);
    Instant(date.year, date.month, date.day, time.hour, time.minute, time.second, time.micro)
  }

  // ----- printing

  function Digit(d: nat): char
    requires d < 10
  {
    "0123456789"[d]
  }

  function Pow10(w: nat): nat {
    if w == 0 then 1 else 10 * Pow10(w - 1)
  }

  /** The last w decimal digits of n. */
  function Digits(n: nat, w: nat): (s: string)
    ensures |s| == w
  {
    if w == 0 then "" else Digits(n / 10, w - 1) + [Digit(n % 10)]
  }

  function Fraction(micro: nat): string {
    if micro == 0 then "" else "." + Digits(micro, 6)
  }

  function Clock(t: Instant): string {
    Digits(t.hour, 2) + (":" + (Digits(t.minute, 2) + (":" + (Digits(t.second, 2) + (Fraction(t.micro) + "+00:00")))))
  }

  /** `datetime.isoformat()` of a UTC instant. */
  function Iso(t: Instant): string {
    Digits(t.year, 4) + ("-" + (Digits(t.month, 2) + ("-" + (Digits(t.day, 2) + ("T" + Clock(t))))))
  }

  // ----- text order is time order

  lemma {:induction false} DigitsOrder(a: nat, b: nat, w: nat)
    requires a < Pow10(w) && b < Pow10(w)
    ensures Text.Less(Digits(a, w), Digits(b, w)) <==> a < b
    ensures Digits(a, w) == Digits(b, w) <==> a == b
  {
    if w > 0 {
      DigitsOrder(a / 10, b / 10, w - 1);
      var x, y := [Digit(a % 10)], [Digit(b % 10)];
      Text.LessConcat(Digits(a / 10, w - 1), x, Digits(b / 10, w - 1), y);
      assert Text.Less(x, y) <==> a % 10 < b % 10;
      assert Digits(a, w)[..w - 1] == Digits(a / 10, w - 1) && Digits(b, w)[..w - 1] == Digits(b / 10, w - 1);
      assert Digits(a, w)[w - 1] == Digit(a % 10) && Digits(b, w)[w - 1] == Digit(b % 10);
    }
  }

  lemma FieldOrder(a: nat, x: string, b: nat, y: string, w: nat)
    requires a < Pow10(w) && b < Pow10(w)
    ensures Text.Less(Digits(a, w) + x, Digits(b, w) + y) <==> a < b || (a == b && Text.Less(x, y))
  {
    DigitsOrder(a, b, w);
    Text.LessConcat(Digits(a, w), x, Digits(b, w), y);
  }

  lemma SeparatorOrder(c: char, x: string, y: string)
    ensures Text.Less([c] + x, [c] + y) <==> Text.Less(x, y)
  {
    Text.LessConcat([c], x, [c], y);
    Text.LessIrreflexive([c]);
  }

  lemma Widths()
    ensures Pow10(2) == 100 && Pow10(4) == 10_000 && Pow10(6) == 1_000_000
  {
    assert Pow10(2) == 10 * Pow10(1);
    assert Pow10(4) == 10 * Pow10(3) && Pow10(3) == 10 * Pow10(2);
    assert Pow10(6) == 10 * Pow10(5) && Pow10(5) == 10 * Pow10(4);
  }

  /** Where one fraction is left out, '+' meets '.', and '+' is the smaller. */
  lemma FractionOrder(a: nat, b: nat)
    requires a < 1_000_000 && b < 1_000_000
    ensures Text.Less(Fraction(a) + "+00:00", Fraction(b) + "+00:00") <==> a < b
  {
    hide Digits, Pow10, Text.Less;
    var zone := "+00:00";
    Text.LessIrreflexive(zone);
    assert "" + zone == zone;
    if a > 0 && b > 0 {
      Widths();
      assert Fraction(a) + zone == "." + (Digits(a, 6) + zone);
      assert Fraction(b) + zone == "." + (Digits(b, 6) + zone);
      SeparatorOrder('.', Digits(a, 6) + zone, Digits(b, 6) + zone);
      FieldOrder(a, zone, b, zone, 6);
    } else if a > 0 || b > 0 {
      HeadOrder(Fraction(a) + zone, Fraction(b) + zone);
    }
  }

  lemma HeadOrder(x: string, y: string)
    requires x != "" && y != "" && x[0] != y[0]
    ensures Text.Less(x, y) <==> x[0] < y[0]
  {}

  lemma ClockOrder(a: Instant, b: Instant)
    requires Valid(a) && Valid(b)
    ensures Text.Less(Clock(a), Clock(b)) <==> TimeBefore(a, b)
  {
    Widths();
    var fa, fb := Fraction(a.micro) + "+00:00", Fraction(b.micro) + "+00:00";
    FractionOrder(a.micro, b.micro);
    FieldOrder(a.second, fa, b.second, fb, 2);
    var sa, sb := Digits(a.second, 2) + fa, Digits(b.second, 2) + fb;
    SeparatorOrder(':', sa, sb);
    FieldOrder(a.minute, ":" + sa, b.minute, ":" + sb, 2);
    var ma, mb := Digits(a.minute, 2) + (":" + sa), Digits(b.minute, 2) + (":" + sb);
    SeparatorOrder(':', ma, mb);
    FieldOrder(a.hour, ":" + ma, b.hour, ":" + mb, 2);
  }

  lemma IsoOrder(a: Instant, b: Instant)
    requires Valid(a) && Valid(b)
    ensures Text.Less(Iso(a), Iso(b)) <==> Before(a, b)
  {
    hide Text.Less, Clock, Digits, TimeBefore;
    Widths();
    ClockOrder(a, b);
    SeparatorOrder('T', Clock(a), Clock(b));
    FieldOrder(a.day, "T" + Clock(a), b.day, "T" + Clock(b), 2);
    var da, db := Digits(a.day, 2) + ("T" + Clock(a)), Digits(b.day, 2) + ("T" + Clock(b));
    SeparatorOrder('-', da, db);
    FieldOrder(a.month, "-" + da, b.month, "-" + db, 2);
    var ma, mb := Digits(a.month, 2) + ("-" + da), Digits(b.month, 2) + ("-" + db);
    SeparatorOrder('-', ma, mb);
    FieldOrder(a.year, "-" + ma, b.year, "-" + mb, 4);
  }

  /** Binary comparison of two stored timestamps is comparison of their times. */
  lemma TextOrderIsTimeOrder(a: Instant, b: Instant)
    requires Valid(a) && Valid(b)
    ensures Text.Less(Iso(a), Iso(b)) <==> Micros(a) < Micros(b)
  {
    IsoOrder(a, b);
    BeforeIsEarlier(a, b);
  }

  // ----- parsing

  function DigitValue(c: char): Option<nat> {
    if '0' <= c <= '9' then Some((c - '0') as nat) else None
  }

  function Number(s: string): Option<nat> {
    if s == "" then Some(0)
    else
      var front, last := Number(s[..|s| - 1]), DigitValue(s[|s| - 1]);
      if front.Some? && last.Some? then Some(front.value * 10 + last.value) else None
  }

  function ParseFields(s: string, micro: Option<nat>): Option<Instant>
    requires |s| >= 19
  {
    var y, mo, d := Number(s[..4]), Number(s[5..7]), Number(s[8..10]);
    var h, mi, sec := Number(s[11..13]), Number(s[14..16]), Number(s[17..19]);
    if s[4] == '-' && s[7] == '-' && s[10] == 'T' && s[13] == ':' && s[16] == ':'
       && y.Some? && mo.Some? && d.Some? && h.Some? && mi.Some? && sec.Some? && micro.Some?
    then
      var t := Instant(y.value, mo.value, d.value, h.value, mi.value, sec.value, micro.value);
      if Valid(t) then Some(t) else None
    else None
  }

  /** `datetime.fromisoformat` on the two shapes that `isoformat` prints in UTC. */
  function ParseIso(s: string): Option<Instant> {
    if |s| == 25 && s[19..] == "+00:00" then ParseFields(s, Some(0))
    else if |s| == 32 && s[19] == '.' && s[26..] == "+00:00" then ParseFields(s, Number(s[20..26]))
    else None
  }

  lemma {:induction false} NumberOfDigits(n: nat, w: nat)
    requires n < Pow10(w)
    ensures Number(Digits(n, w)) == Some(n)
  {
    if w > 0 {
      var s := Digits(n, w);
      assert s[..|s| - 1] == Digits(n / 10, w - 1) && s[|s| - 1] == Digit(n % 10);
      NumberOfDigits(n / 10, w - 1);
    }
  }

  lemma IsoLayout(t: Instant)
    requires Valid(t)
    ensures var s := Iso(t);
            && |s| == (if t.micro == 0 then 25 else 32)
            && s[..4] == Digits(t.year, 4) && s[4] == '-' && s[5..7] == Digits(t.month, 2) && s[7] == '-'
            && s[8..10] == Digits(t.day, 2) && s[10] == 'T'
            && s[11..] == Clock(t)
  {}

  lemma ClockLayout(t: Instant)
    ensures var s := Clock(t);
            && |s| == (if t.micro == 0 then 14 else 21)
            && s[..2] == Digits(t.hour, 2) && s[2] == ':' && s[3..5] == Digits(t.minute, 2) && s[5] == ':'
            && s[6..8] == Digits(t.second, 2) && s[8..] == Fraction(t.micro) + "+00:00"
  {}

  /** The first nineteen characters and what they read as. */
  lemma FieldsOfIso(t: Instant)
    requires Valid(t)
    ensures |Iso(t)| >= 25 && ParseFields(Iso(t), Some(t.micro)) == Some(t)
    ensures Iso(t)[19..] == Fraction(t.micro) + "+00:00"
  {
    hide Clock, Iso, Fraction, Digits, Number;
    Widths();
    IsoLayout(t);
    ClockLayout(t);
    var s, c := Iso(t), Clock(t);
    assert s[11..13] == c[..2] && s[13] == c[2] && s[14..16] == c[3..5] && s[16] == c[5] && s[17..19] == c[6..8];
    assert s[19..] == c[8..];
    NumberOfDigits(t.year, 4);
    NumberOfDigits(t.month, 2);
    NumberOfDigits(t.day, 2);
    NumberOfDigits(t.hour, 2);
    NumberOfDigits(t.minute, 2);
    NumberOfDigits(t.second, 2);
  }

  /** Parsing a printed timestamp gives the instant back. */
  lemma ParseUndoesPrint(t: Instant)
    requires Valid(t)
    ensures ParseIso(Iso(t)) == Some(t)
  {
    hide ParseFields, Iso, Number, Digits;
    Widths();
    IsoLayout(t);
    FieldsOfIso(t);
    var s := Iso(t);
    var tail := s[19..];
    if t.micro > 0 {
      NumberOfDigits(t.micro, 6);
      assert tail == "." + Digits(t.micro, 6) + "+00:00";
      assert s[19] == tail[0] && s[20..26] == tail[1..7] && s[26..] == tail[7..];
    }
  }
}
