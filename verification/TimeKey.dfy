/**
 Stored timestamps and the key they are filtered and sorted by: RFC 3339 text of
 varying width, a SQL expression that pads it, and the order of both
 (internal/storage/sqlite.go).
 */
module TimeKey {
  import opened Text

  // ---------- instants ----------

  /** A UTC instant by its calendar fields, to the nanosecond. */
  datatype Instant = Instant(year: nat, month: nat, day: nat, hour: nat, minute: nat, second: nat, nano: nat)

  predicate Leap(year: nat) {
    year % 4 == 0 && (year % 100 != 0 || year % 400 == 0)
  }

  function DaysInMonth(year: nat, month: nat): nat {
    if month == 2 then (if Leap(year) then 29 else 28)
    else if month == 4 || month == 6 || month == 9 || month == 11 then 30
    else 31
  }

  predicate Valid(i: Instant) {
    && i.year <= 9999 && 1 <= i.month <= 12 && 1 <= i.day <= DaysInMonth(i.year, i.month)
    && i.hour < 24 && i.minute < 60 && i.second < 60 && i.nano < 1_000_000_000
  }

  function DaysBeforeYear(year: nat): nat {
    if year == 0 then 0 else DaysBeforeYear(year - 1) + DaysInYear(year - 1)
  }

  function DaysInYear(year: nat): nat {
    if Leap(year) then 366 else 365
  }

  /** Days in the months 1..month-1. */
  function DaysBeforeMonth(year: nat, month: nat): nat {
    if month <= 1 then 0 else DaysBeforeMonth(year, month - 1) + DaysInMonth(year, month - 1)
  }

  /** The day's place in the calendar, counted from the first day of year 0. */
  function DayNumber(i: Instant): nat
    requires i.day >= 1
  {
    DaysBeforeYear(i.year) + DaysBeforeMonth(i.year, i.month) + i.day - 1
  }

  function Clock(i: Instant): nat {
    ((i.hour * 60 + i.minute) * 60 + i.second) * 1_000_000_000 + i.nano
  }

  const NANOS_PER_DAY := 86_400_000_000_000

  /** Elapsed nanoseconds: the order of real time. */
  function Nanos(i: Instant): nat
    requires i.day >= 1
  {
    DayNumber(i) * NANOS_PER_DAY + Clock(i)
  }

  // ---------- calendar order is time order ----------

  predicate SameDay(a: Instant, b: Instant) {
    a.year == b.year && a.month == b.month && a.day == b.day
  }

  predicate EarlierDay(a: Instant, b: Instant) {
    || a.year < b.year
    || (a.year == b.year && a.month < b.month)
    || (a.year == b.year && a.month == b.month && a.day < b.day)
  }

  predicate SameSecond(a: Instant, b: Instant) {
    SameDay(a, b) && a.hour == b.hour && a.minute == b.minute && a.second == b.second
  }

  predicate EarlierSecond(a: Instant, b: Instant) {
    || EarlierDay(a, b)
    || (SameDay(a, b) && a.hour < b.hour)
    || (SameDay(a, b) && a.hour == b.hour && a.minute < b.minute)
    || (SameDay(a, b) && a.hour == b.hour && a.minute == b.minute && a.second < b.second)
  }

  lemma {:induction false} MonthsAdvance(year: nat, m: nat, n: nat)
    requires 1 <= m < n <= 13
    ensures DaysBeforeMonth(year, m) + DaysInMonth(year, m) <= DaysBeforeMonth(year, n)
  {
    if m == n - 1 {
    } else {
      MonthsAdvance(year, m, n - 1);
    }
  }

  lemma {:induction false} YearsAdvance(y: nat, z: nat)
    requires y < z
    ensures DaysBeforeYear(y) + DaysInYear(y) <= DaysBeforeYear(z)
  {
    if y == z - 1 {
    } else {
      YearsAdvance(y, z - 1);
    }
  }

  lemma TwelveMonths(year: nat)
    ensures DaysBeforeMonth(year, 13) == DaysInYear(year)
  {
    var february := DaysInMonth(year, 2);
    assert DaysBeforeMonth(year, 2) == 31;
    assert DaysBeforeMonth(year, 3) == 31 + february;
    assert DaysBeforeMonth(year, 5) == 92 + february;
    assert DaysBeforeMonth(year, 7) == 153 + february;
    assert DaysBeforeMonth(year, 9) == 215 + february;
    assert DaysBeforeMonth(year, 11) == 276 + february;
  }

  /** The days before a year, with a leap day every fourth year, but for centuries, but for every
      fourth of those, and months of 31, 30 and 28 days as the calendar has them. */
  lemma {:induction false} CalendarCounts(year: nat, month: nat)
    requires 1 <= month <= 12
    ensures DaysBeforeYear(year) == 365 * year + (year + 3) / 4 - (year + 99) / 100 + (year + 399) / 400
    ensures DaysInMonth(year, month)
            == [31, 28, 31, 30, 31, 30, 31, 31, 30, 31, 30, 31][month - 1]
               + if month == 2 && Leap(year) then 1 else 0
  {
    if year == 0 {
    } else {
      CalendarCounts(year - 1, month);
      LeapDays(year - 1);
    }
  }

  lemma LeapDays(y: nat)
    ensures ((y + 4) / 4 - (y + 3) / 4) - ((y + 100) / 100 - (y + 99) / 100) + ((y + 400) / 400 - (y + 399) / 400)
            == if Leap(y) then 1 else 0
  {
    EveryFourth(y);
    EveryHundredth(y);
    EveryFourHundredth(y);
    CenturiesAreFourths(y);
  }

  lemma CenturiesAreFourths(y: nat)
    ensures y % 400 == 0 ==> y % 100 == 0
    ensures y % 100 == 0 ==> y % 4 == 0
  {
    if y % 400 == 0 {
      assert y == 100 * (4 * (y / 400));
      Hundreds(4 * (y / 400), y);
    }
    if y % 100 == 0 {
      assert y == 4 * (25 * (y / 100));
      Fours(25 * (y / 100), y);
    }
  }

  lemma EveryFourth(y: nat)
    ensures (y + 4) / 4 - (y + 3) / 4 == if y % 4 == 0 then 1 else 0
  {
  }

  lemma EveryHundredth(y: nat)
    ensures (y + 100) / 100 - (y + 99) / 100 == if y % 100 == 0 then 1 else 0
  {
  }

  lemma EveryFourHundredth(y: nat)
    ensures (y + 400) / 400 - (y + 399) / 400 == if y % 400 == 0 then 1 else 0
  {
  }

  lemma Hundreds(k: nat, y: nat)
    requires y == 100 * k
    ensures y % 100 == 0
  {
  }

  lemma Fours(k: nat, y: nat)
    requires y == 4 * k
    ensures y % 4 == 0
  {
  }

  lemma {:induction false} EarlierDayCounts(a: Instant, b: Instant)
    requires Valid(a) && Valid(b) && EarlierDay(a, b)
    ensures DayNumber(a) < DayNumber(b)
  {
    if a.year < b.year {
      YearsAdvance(a.year, b.year);
      TwelveMonths(a.year);
      MonthsAdvance(a.year, a.month, 13);
    } else if a.month < b.month {
      MonthsAdvance(a.year, a.month, b.month);
    }
  }

  predicate Earlier(a: Instant, b: Instant) {
    EarlierSecond(a, b) || (SameSecond(a, b) && a.nano < b.nano)
  }

  /** Comparing the calendar fields compares real time. */
  lemma {:induction false} EarlierIsBefore(a: Instant, b: Instant)
    requires Valid(a) && Valid(b)
    ensures Earlier(a, b) <==> Nanos(a) < Nanos(b)
    ensures a == b <==> Nanos(a) == Nanos(b)
  {
    assert Clock(a) < NANOS_PER_DAY && Clock(b) < NANOS_PER_DAY;
    if EarlierDay(a, b) {
      EarlierDayCounts(a, b);
    } else if EarlierDay(b, a) {
      EarlierDayCounts(b, a);
    } else {
      assert SameDay(a, b);
    }
  }

  // ---------- fixed-width numerals ----------

  function Digits(n: nat, width: nat): (s: string)
    ensures |s| == width && AllDigits(s)
  {
    if width == 0 then [] else Digits(n / 10, width - 1) + [DigitChar(n % 10)]
  }

  lemma {:induction false} DigitsValue(n: nat, width: nat)
    requires n < Pow10(width)
    ensures Decimal(Digits(n, width)) == n
  {
    if width == 0 {
    } else {
      TenthFits(n, width);
      DigitsValue(n / 10, width - 1);
      DecimalAppend(Digits(n / 10, width - 1), DigitChar(n % 10));
    }
  }

  lemma TenthFits(n: nat, width: nat)
    requires 0 < width && n < Pow10(width)
    ensures n / 10 < Pow10(width - 1)
  {
  }

  lemma {:induction false} DecimalAppend(s: string, c: char)
    requires AllDigits(s) && '0' <= c <= '9'
    ensures Decimal(s + [c]) == Decimal(s) * 10 + (c as int - '0' as int)
  {
    assert (s + [c])[..|s|] == s;
  }

  lemma {:induction false} DigitsOrder(a: nat, b: nat, width: nat)
    requires a < Pow10(width) && b < Pow10(width)
    ensures LexLess(Digits(a, width), Digits(b, width)) <==> a < b
    ensures Digits(a, width) == Digits(b, width) <==> a == b
  {
    DigitsValue(a, width);
    DigitsValue(b, width);
    DecimalOrder(Digits(a, width), Digits(b, width));
  }

  /** A numeral decides the order of what it starts, unless it is the same. */
  lemma {:induction false} Field(a: nat, b: nat, width: nat, x: string, y: string)
    requires a < Pow10(width) && b < Pow10(width)
    ensures LexLess(Digits(a, width) + x, Digits(b, width) + y) <==> a < b || (a == b && LexLess(x, y))
    ensures Digits(a, width) + x == Digits(b, width) + y <==> a == b && x == y
  {
    var p, q := Digits(a, width), Digits(b, width);
    DigitsOrder(a, b, width);
    assert (p + x)[..width] == p && (q + y)[..width] == q;
    assert (p + x)[width..] == x && (q + y)[width..] == y;
    if a == b {
      LexPrefix(p, x, y);
    } else {
      LexExtend(p, q, x, y);
    }
  }

  lemma {:induction false} Separated(c: char, x: string, y: string)
    ensures LexLess([c] + x, [c] + y) <==> LexLess(x, y)
    ensures [c] + x == [c] + y <==> x == y
  {
    LexPrefix([c], x, y);
    assert ([c] + x)[1..] == x && ([c] + y)[1..] == y;
  }

  // ---------- timestamps as text (section 5.6 of RFC 3339) ----------

  function AfterMinute(i: Instant): string {
    Digits(i.minute, 2) + ([':'] + Digits(i.second, 2))
  }

  function AfterHour(i: Instant): string {
    Digits(i.hour, 2) + ([':'] + AfterMinute(i))
  }

  function AfterDay(i: Instant): string {
    Digits(i.day, 2) + (['T'] + AfterHour(i))
  }

  function AfterMonth(i: Instant): string {
    Digits(i.month, 2) + (['-'] + AfterDay(i))
  }

  /** The first 19 characters of every form: the instant to the second. */
  function Stamp(i: Instant): (s: string)
    ensures |s| == 19
  {
    Digits(i.year, 4) + (['-'] + AfterMonth(i))
  }

  /** The fixed-width layout the query bounds are printed in. */
  function Fixed(i: Instant): string {
    Stamp(i) + (['.'] + (Digits(i.nano, 9) + ['Z']))
  }

  /** A fraction without its trailing zeros. */
  function Stripped(s: string): (r: string)
    ensures r <= s
    ensures r != [] ==> r[|r| - 1] != '0'
  {
    if s != [] && s[|s| - 1] == '0' then Stripped(s[..|s| - 1]) else s
  }

  function Fraction(i: Instant): string {
    Stripped(Digits(i.nano, 9))
  }

  function Suffix(fraction: string): string {
    if fraction == [] then ['Z'] else ['.'] + (fraction + ['Z'])
  }

  /** The form rows are stored in: RFC3339Nano drops trailing zeros, and the point
      with them when the fraction is zero. */
  function Stored(i: Instant): string {
    Stamp(i) + Suffix(Fraction(i))
  }

  lemma {:induction false} StampParts(i: Instant)
    ensures var s := Stamp(i);
            && s[..4] == Digits(i.year, 4) && s[4] == '-' && s[5..7] == Digits(i.month, 2) && s[7] == '-'
            && s[8..10] == Digits(i.day, 2) && s[10] == 'T'
    ensures var s := Stamp(i);
            && s[11..13] == Digits(i.hour, 2) && s[13] == ':' && s[14..16] == Digits(i.minute, 2) && s[16] == ':'
            && s[17..19] == Digits(i.second, 2)
  {
    assert Stamp(i)[11..19] == AfterHour(i);
    assert AfterHour(i)[..2] == Digits(i.hour, 2) && AfterHour(i)[3..5] == Digits(i.minute, 2);
    assert AfterHour(i)[6..8] == Digits(i.second, 2);
  }

  /** The text of digits that stand for a number. */
  ghost predicate Reads(s: string, n: nat) {
    AllDigits(s) && Decimal(s) == n
  }

  lemma {:induction false} DigitsRead(n: nat, width: nat)
    requires n < Pow10(width)
    ensures Reads(Digits(n, width), n)
  {
    DigitsValue(n, width);
  }

  /** Stored text is read as its instant: year, month and day with hyphens, a T, hour, minute and
      second with colons, and after these a Z, or if the second is not whole, between a point and
      the Z, its fraction, which ends in no zero. */
  lemma {:induction false} StoredReads(i: Instant)
    requires Valid(i)
    ensures |Stored(i)| >= 20 && Stored(i)[..19] == Stamp(i)
    ensures var s := Stamp(i);
            && Reads(s[..4], i.year) && s[4] == '-' && Reads(s[5..7], i.month) && s[7] == '-'
            && Reads(s[8..10], i.day) && s[10] == 'T'
            && Reads(s[11..13], i.hour) && s[13] == ':' && Reads(s[14..16], i.minute) && s[16] == ':'
            && Reads(s[17..19], i.second)
    ensures var tail := Stored(i)[19..];
            if i.nano == 0 then tail == "Z"
            else exists f :: tail == "." + f + "Z" && f != "" && f[|f| - 1] != '0' && |f| <= 9
                             && Reads(f + Zeros(9 - |f|), i.nano)
  {
    StampReads(i);
    FractionReads(i);
    assert Stored(i)[..19] == Stamp(i) && Stored(i)[19..] == Suffix(Fraction(i));
    assert Fraction(i) != [] ==> Suffix(Fraction(i)) == "." + Fraction(i) + "Z";
  }

  lemma {:induction false} StampReads(i: Instant)
    requires Valid(i)
    ensures var s := Stamp(i);
            && Reads(s[..4], i.year) && s[4] == '-' && Reads(s[5..7], i.month) && s[7] == '-'
            && Reads(s[8..10], i.day) && s[10] == 'T'
            && Reads(s[11..13], i.hour) && s[13] == ':' && Reads(s[14..16], i.minute) && s[16] == ':'
            && Reads(s[17..19], i.second)
  {
    PowersOfTen();
    StampParts(i);
    DigitsRead(i.year, 4);
    DigitsRead(i.month, 2);
    DigitsRead(i.day, 2);
    DigitsRead(i.hour, 2);
    DigitsRead(i.minute, 2);
    DigitsRead(i.second, 2);
  }

  lemma {:induction false} FractionReads(i: Instant)
    requires Valid(i)
    ensures var f := Fraction(i);
            && |f| <= 9 && Reads(f + Zeros(9 - |f|), i.nano) && (i.nano == 0 <==> f == [])
  {
    PowersOfTen();
    DigitsRead(i.nano, 9);
    StrippedPads(Digits(i.nano, 9));
    ZerosAreZero(9);
    DigitsOfZero(9);
    assert Fraction(i) == [] ==> Fraction(i) + Zeros(9) == Zeros(9);
  }

  lemma {:induction false} ZerosAreZero(n: nat)
    ensures AllDigits(Zeros(n)) && Decimal(Zeros(n)) == 0
  {
    if n == 0 {
    } else {
      ZerosAreZero(n - 1);
      assert Zeros(n)[..n - 1] == Zeros(n - 1);
    }
  }

  /** Zero in any width is zeros, of which stripping leaves nothing. */
  lemma {:induction false} DigitsOfZero(width: nat)
    ensures Stripped(Digits(0, width)) == []
  {
    if width == 0 {
    } else {
      DigitsOfZero(width - 1);
      var s := Digits(0, width);
      assert s[|s| - 1] == '0' && s[..|s| - 1] == Digits(0, width - 1);
    }
  }

  // ---------- the SQL key ----------

  /** SQLite's substr for a start of at least one: a negative length takes the
      characters before the start. */
  function Substr(s: string, start: int, length: int): string
    requires start >= 1
  {
    var lo := if length >= 0 then start - 1 else if start - 1 + length < 0 then 0 else start - 1 + length;
    var hi := if length >= 0 then start - 1 + length else start - 1;
    s[Clamp(lo, |s|)..Clamp(hi, |s|)]
  }

  function Clamp(n: int, most: nat): (r: nat)
    requires n >= 0
    ensures r == if n <= most then n else most
  {
    if n <= most then n else most
  }

  function Zeros(n: nat): (s: string)
    ensures |s| == n && forall k :: 0 <= k < n ==> s[k] == '0'
  {
    seq(n, _ => '0')
  }

  /** The expression rows are filtered and sorted by. */
  function SqlKey(created: string): string {
    var fraction := if Substr(created, 20, 1) == ['.'] then Substr(created, 21, |created| - 21) else [];
    Substr(created, 1, 19) + (['.'] + (Substr(fraction + Zeros(9), 1, 9) + ['Z']))
  }

  lemma {:induction false} StrippedPads(s: string)
    ensures |Stripped(s)| <= |s| && Stripped(s) + Zeros(|s| - |Stripped(s)|) == s
  {
    if s == [] || s[|s| - 1] != '0' {
    } else {
      var t := s[..|s| - 1];
      StrippedPads(t);
      assert Zeros(|s| - |Stripped(s)|) == Zeros(|t| - |Stripped(t)|) + ['0'];
      assert s == t + ['0'];
    }
  }

  /** The key of a stored row is the fixed-width form of the instant it was stored for. */
  lemma {:induction false} KeyOfStored(i: Instant)
    ensures SqlKey(Stored(i)) == Fixed(i)
  {
    var created, f := Stored(i), Fraction(i);
    StrippedPads(Digits(i.nano, 9));
    assert Substr(created, 1, 19) == Stamp(i);
    if f == [] {
      assert created[19] == 'Z' && Substr(created, 20, 1)[0] == 'Z';
      assert Substr([] + Zeros(9), 1, 9) == Zeros(9);
    } else {
      assert created[19] == '.' && Substr(created, 20, 1) == [created[19]];
      assert Substr(created, 21, |created| - 21) == f;
      assert Substr(f + Zeros(9), 1, 9) == f + Zeros(9 - |f|);
    }
  }

  // ---------- byte order ----------

  lemma PowersOfTen()
    ensures Pow10(2) == 100 && Pow10(4) == 10_000 && Pow10(9) == 1_000_000_000
  {
    assert Pow10(3) == 1000;
    assert Pow10(6) == 1000 * Pow10(3);
    assert Pow10(9) == 1000 * Pow10(6);
  }

  lemma {:induction false} TimeOrder(a: Instant, b: Instant)
    requires Valid(a) && Valid(b)
    ensures LexLess(AfterHour(a), AfterHour(b)) <==>
              a.hour < b.hour
              || (a.hour == b.hour && (a.minute < b.minute || (a.minute == b.minute && a.second < b.second)))
    ensures AfterHour(a) == AfterHour(b) <==> a.hour == b.hour && a.minute == b.minute && a.second == b.second
  {
    PowersOfTen();
    Field(a.hour, b.hour, 2, [':'] + AfterMinute(a), [':'] + AfterMinute(b));
    Separated(':', AfterMinute(a), AfterMinute(b));
    Field(a.minute, b.minute, 2, [':'] + Digits(a.second, 2), [':'] + Digits(b.second, 2));
    Separated(':', Digits(a.second, 2), Digits(b.second, 2));
    DigitsOrder(a.second, b.second, 2);
  }

  lemma {:induction false} StampOrder(a: Instant, b: Instant)
    requires Valid(a) && Valid(b)
    ensures LexLess(Stamp(a), Stamp(b)) <==> EarlierSecond(a, b)
    ensures Stamp(a) == Stamp(b) <==> SameSecond(a, b)
  {
    PowersOfTen();
    Field(a.year, b.year, 4, ['-'] + AfterMonth(a), ['-'] + AfterMonth(b));
    Separated('-', AfterMonth(a), AfterMonth(b));
    Field(a.month, b.month, 2, ['-'] + AfterDay(a), ['-'] + AfterDay(b));
    Separated('-', AfterDay(a), AfterDay(b));
    Field(a.day, b.day, 2, ['T'] + AfterHour(a), ['T'] + AfterHour(b));
    Separated('T', AfterHour(a), AfterHour(b));
    TimeOrder(a, b);
  }

  /** What follows the stamp decides only within one second. */
  lemma {:induction false} StampedOrder(a: Instant, b: Instant, x: string, y: string)
    requires Valid(a) && Valid(b)
    ensures LexLess(Stamp(a) + x, Stamp(b) + y) <==> EarlierSecond(a, b) || (SameSecond(a, b) && LexLess(x, y))
  {
    StampOrder(a, b);
    if Stamp(a) == Stamp(b) {
      LexTotal(Stamp(a), Stamp(b));
      LexPrefix(Stamp(a), x, y);
    } else {
      LexExtend(Stamp(a), Stamp(b), x, y);
    }
  }

  /** Byte order of keys is time order. */
  lemma {:induction false} KeyOrderIsTime(a: Instant, b: Instant)
    requires Valid(a) && Valid(b)
    ensures LexLess(SqlKey(Stored(a)), SqlKey(Stored(b))) <==> Nanos(a) < Nanos(b)
    ensures SqlKey(Stored(a)) == SqlKey(Stored(b)) <==> a == b
  {
    KeyOfStored(a);
    KeyOfStored(b);
    PowersOfTen();
    StampedOrder(a, b, ['.'] + (Digits(a.nano, 9) + ['Z']), ['.'] + (Digits(b.nano, 9) + ['Z']));
    Separated('.', Digits(a.nano, 9) + ['Z'], Digits(b.nano, 9) + ['Z']);
    Field(a.nano, b.nano, 9, ['Z'], ['Z']);
    LexTotal(['Z'], ['Z']);
    EarlierIsBefore(a, b);
    EarlierIsBefore(b, a);
    LexTotal(Fixed(a), Fixed(b));
    if a != b && Fixed(a) == Fixed(b) {
      FixedDetermines(a, b);
    }
  }

  lemma {:induction false} FixedDetermines(a: Instant, b: Instant)
    requires Valid(a) && Valid(b) && Fixed(a) == Fixed(b)
    ensures a == b
  {
    PowersOfTen();
    FixedParts(a);
    FixedParts(b);
    StampOrder(a, b);
    DigitsOrder(a.nano, b.nano, 9);
  }

  lemma {:induction false} FixedParts(a: Instant)
    ensures |Fixed(a)| >= 29 && Fixed(a)[..19] == Stamp(a) && Fixed(a)[20..29] == Digits(a.nano, 9)
  {
  }

  // ---------- the From/To filter ----------

  /** The row condition of a cost query; a zero bound adds none. */
  predicate InWindow(created: string, from: Option<Instant>, to: Option<Instant>) {
    && (from.Some? ==> !LexLess(SqlKey(created), Fixed(from.value)))
    && (to.Some? ==> !LexLess(Fixed(to.value), SqlKey(created)))
  }

  /** The filter keeps exactly the rows recorded between the bounds, both included. */
  lemma {:induction false} FilterIsExact(i: Instant, from: Option<Instant>, to: Option<Instant>)
    requires Valid(i) && (from.Some? ==> Valid(from.value)) && (to.Some? ==> Valid(to.value))
    ensures InWindow(Stored(i), from, to) <==>
              (from.Some? ==> Nanos(from.value) <= Nanos(i)) && (to.Some? ==> Nanos(i) <= Nanos(to.value))
  {
    if from.Some? {
      KeyOrderIsTime(i, from.value);
      KeyOfStored(from.value);
    }
    if to.Some? {
      KeyOrderIsTime(to.value, i);
      KeyOfStored(to.value);
    }
  }

  // ---------- why a key is needed ----------

  /** Within one second, where the stored text alone goes wrong: one fraction starts
      the other, and the shorter one ends in a letter above every digit. */
  predicate FractionNested(a: Instant, b: Instant) {
    SameSecond(a, b) && a.nano != b.nano && (Fraction(a) <= Fraction(b) || Fraction(b) <= Fraction(a))
  }

  lemma {:induction false} StrippedOrder(s: string, t: string)
    requires |s| == |t| && AllDigits(s) && AllDigits(t) && s != t
    ensures Stripped(s) != Stripped(t)
    ensures LexLess(s, t) <==> LexLess(Stripped(s), Stripped(t))
  {
    var f, g := Stripped(s), Stripped(t);
    StrippedPads(s);
    StrippedPads(t);
    if f <= g {
      NestedOrder(s, t);
    } else if g <= f {
      NestedOrder(t, s);
      LexTotal(s, t);
      LexTotal(f, g);
    } else {
      assert s == f + s[|f|..] && t == g + t[|g|..];
      DivergeBefore(f, g, s[|f|..], t[|g|..]);
    }
  }

  lemma {:induction false} NestedOrder(s: string, t: string)
    requires |s| == |t| && AllDigits(t) && s != t
    requires Stripped(s) <= Stripped(t)
    ensures LexLess(s, t) && LexLess(Stripped(s), Stripped(t)) && Stripped(s) != Stripped(t)
  {
    var f, g := Stripped(s), Stripped(t);
    StrippedPads(s);
    StrippedPads(t);
    PrefixIsLess(f, g);
    PaddedIsLess(f, Zeros(|s| - |f|), t);
  }

  /** A number padded with zeros comes before any other of its width it starts. */
  lemma {:induction false} PaddedIsLess(f: string, z: string, t: string)
    requires f <= t && |f| + |z| == |t| && AllDigits(t) && f + z != t
    requires forall k :: 0 <= k < |z| ==> z[k] == '0'
    ensures LexLess(f + z, t)
  {
    assert t == f + t[|f|..];
    ZerosAreLeast(z, t[|f|..]);
    LexPrefix(f, z, t[|f|..]);
  }

  lemma {:induction false} ZerosAreLeast(z: string, t: string)
    requires |z| == |t| && AllDigits(t) && z != t
    requires forall k :: 0 <= k < |z| ==> z[k] == '0'
    ensures LexLess(z, t)
  {
    if z[0] != t[0] {
    } else {
      assert z == [z[0]] + z[1..] && t == [t[0]] + t[1..];
      ZerosAreLeast(z[1..], t[1..]);
    }
  }

  /** Strings that differ inside both keep their order whatever follows. */
  lemma {:induction false} DivergeBefore(f: string, g: string, x: string, y: string)
    requires !(f <= g) && !(g <= f)
    ensures LexLess(f + x, g + y) <==> LexLess(f, g)
  {
    assert (f + x)[1..] == f[1..] + x && (g + y)[1..] == g[1..] + y;
    if f[0] != g[0] {
    } else {
      assert f == [f[0]] + f[1..] && g == [g[0]] + g[1..];
      DivergeBefore(f[1..], g[1..], x, y);
    }
  }

  /** Two suffixes compare like their fractions, except that a fraction sorts after
      every longer one it starts. */
  lemma {:induction false} SuffixOrder(f: string, g: string)
    requires AllDigits(f) && AllDigits(g) && f != g
    ensures LexLess(Suffix(f), Suffix(g)) <==> if f <= g then false else if g <= f then true else LexLess(f, g)
  {
    if f != [] && g != [] {
      Separated('.', f + ['Z'], g + ['Z']);
      if f <= g {
        assert g + ['Z'] == f + (g[|f|..] + ['Z']);
        LexPrefix(f, ['Z'], g[|f|..] + ['Z']);
      } else if g <= f {
        assert f + ['Z'] == g + (f[|g|..] + ['Z']);
        LexPrefix(g, f[|g|..] + ['Z'], ['Z']);
      } else {
        DivergeBefore(f, g, ['Z'], ['Z']);
      }
    }
  }

  lemma {:induction false} PrefixIsLess(f: string, g: string)
    requires f <= g && f != g
    ensures LexLess(f, g)
  {
    assert f + [] == f && g == f + g[|f|..];
    LexPrefix(f, [], g[|f|..]);
  }

  /** Comparing stored text directly orders two instants rightly exactly when neither
      fraction of the same second starts the other. */
  lemma {:induction false} RawOrderIsTime(a: Instant, b: Instant)
    requires Valid(a) && Valid(b)
    ensures (LexLess(Stored(a), Stored(b)) <==> Nanos(a) < Nanos(b)) <==> !FractionNested(a, b)
  {
    EarlierIsBefore(a, b);
    StampedOrder(a, b, Suffix(Fraction(a)), Suffix(Fraction(b)));
    if SameSecond(a, b) {
      if a.nano == b.nano {
        LexTotal(Suffix(Fraction(a)), Suffix(Fraction(b)));
      } else {
        PowersOfTen();
        DigitsOrder(a.nano, b.nano, 9);
        StrippedOrder(Digits(a.nano, 9), Digits(b.nano, 9));
        FractionIsDigits(a);
        FractionIsDigits(b);
        SuffixOrder(Fraction(a), Fraction(b));
        if Fraction(a) <= Fraction(b) {
          PrefixIsLess(Fraction(a), Fraction(b));
        } else if Fraction(b) <= Fraction(a) {
          PrefixIsLess(Fraction(b), Fraction(a));
          LexTotal(Fraction(a), Fraction(b));
        }
      }
    }
  }

  lemma {:induction false} FractionIsDigits(i: Instant)
    ensures AllDigits(Fraction(i))
  {
    assert Fraction(i) == Digits(i.nano, 9)[..|Fraction(i)|];
  }

  lemma {:induction false} WholeSecondHasNoFraction(i: Instant)
    requires i.nano == 0
    ensures Fraction(i) == []
  {
    NoughtStrips(9);
  }

  lemma {:induction false} NoughtStrips(width: nat)
    ensures Stripped(Digits(0, width)) == []
  {
    if width == 0 {
    } else {
      NoughtStrips(width - 1);
      assert Digits(0, width)[..width - 1] == Digits(0, width - 1);
    }
  }

  /** Half a second past noon sorts before noon. */
  lemma {:induction false} NoonSortsLate()
    ensures var noon := Instant(2026, 1, 1, 12, 0, 0, 0);
            var later := noon.(nano := 500_000_000);
            && Valid(noon) && Valid(later) && Nanos(noon) < Nanos(later)
            && LexLess(Stored(later), Stored(noon)) && !LexLess(Stored(noon), Stored(later))
  {
    var noon := Instant(2026, 1, 1, 12, 0, 0, 0);
    var later := noon.(nano := 500_000_000);
    WholeSecondHasNoFraction(noon);
    EarlierIsBefore(noon, later);
    RawOrderIsTime(noon, later);
    StampOrder(noon, later);
    LexTotal(Stored(noon), Stored(later));
    StoredDiffer(noon, later);
  }

  lemma {:induction false} StoredDiffer(a: Instant, b: Instant)
    requires Valid(a) && Valid(b) && a != b
    ensures Stored(a) != Stored(b)
  {
    KeyOfStored(a);
    KeyOfStored(b);
    if Fixed(a) == Fixed(b) {
      FixedDetermines(a, b);
    }
  }
}
