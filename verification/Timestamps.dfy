/**
 The order of timestamps: conditions are sorted by comparing RFC 3339 strings, not instants.
 */
module Timestamps {
  /** String comparison of Go: lexicographic, a proper prefix is smaller. */
  predicate Less(a: string, b: string) {
    |b| > 0 && (|a| == 0 || a[0] < b[0] || (a[0] == b[0] && Less(a[1..], b[1..])))
  }

  lemma {:induction false} NotLessTransitive(a: string, b: string, c: string)
    requires !Less(a, b) && !Less(b, c)
    ensures !Less(a, c)
  {
    if |a| > 0 && |b| > 0 && |c| > 0 && a[0] == b[0] == c[0] {
      NotLessTransitive(a[1..], b[1..], c[1..]);
    }
  }

  lemma {:induction false} LessAsymmetric(a: string, b: string)
    requires Less(a, b)
    ensures !Less(b, a)
  {
    if |a| > 0 && a[0] == b[0] {
      LessAsymmetric(a[1..], b[1..]);
    }
  }

  /** Behind parts of equal length the comparison looks at those parts first. */
  lemma {:induction false} LessConcat(x: string, y: string, u: string, v: string)
    requires |x| == |y|
    ensures Less(x + u, y + v) <==> Less(x, y) || (x == y && Less(u, v))
  {
    if |x| == 0 {
      assert x + u == u && y + v == v;
    } else {
      assert (x + u)[1..] == x[1..] + u && (y + v)[1..] == y[1..] + v;
      LessConcat(x[1..], y[1..], u, v);
      assert x == [x[0]] + x[1..] && y == [y[0]] + y[1..];
    }
  }

  datatype Clock = Clock(year: nat, month: nat, day: nat, hour: nat, minute: nat, second: nat)

  predicate InRange(c: Clock) {
    c.year < 10000 && c.month < 100 && c.day < 100 && c.hour < 100 && c.minute < 100 && c.second < 100
  }

  function Digit(n: nat): char
    requires n < 10
  {
    '0' + n as char
  }

  function Two(n: nat): string
    requires n < 100
  {
    [Digit(n / 10), Digit(n % 10)]
  }

  function Four(n: nat): string
    requires n < 10000
  {
    Two(n / 100) + Two(n % 100)
  }

  function TimeOfDay(c: Clock, offset: string): string
    requires InRange(c)
  {
    Two(c.hour) + (":" + (Two(c.minute) + (":" + (Two(c.second) + offset))))
  }

  /** The RFC 3339 layout of section 5.6 with the offset as its last part. */
  function Stamp(c: Clock, offset: string): string
    requires InRange(c)
  {
    Four(c.year) + ("-" + (Two(c.month) + ("-" + (Two(c.day) + ("T" + TimeOfDay(c, offset))))))
  }

  predicate Earlier(a: Clock, b: Clock) {
    || a.year < b.year
    || (a.year == b.year &&
        (|| a.month < b.month
         || (a.month == b.month &&
             (|| a.day < b.day
              || (a.day == b.day &&
                  (|| a.hour < b.hour
                   || (a.hour == b.hour &&
                       (|| a.minute < b.minute
                        || (a.minute == b.minute && a.second < b.second)))))))))
  }

  lemma OneOrder(m: nat, n: nat)
    requires m < 10 && n < 10
    ensures Less([Digit(m)], [Digit(n)]) <==> m < n
    ensures [Digit(m)] == [Digit(n)] <==> m == n
  {
    assert [Digit(m)][1..] == [] && [Digit(n)][1..] == [];
    assert [Digit(m)][0] == Digit(m) && [Digit(n)][0] == Digit(n);
  }

  lemma TwoOrder(m: nat, n: nat, u: string, v: string)
    requires m < 100 && n < 100
    ensures Less(Two(m) + u, Two(n) + v) <==> m < n || (m == n && Less(u, v))
  {
    LessConcat(Two(m), Two(n), u, v);
    LessConcat([Digit(m / 10)], [Digit(n / 10)], [Digit(m % 10)], [Digit(n % 10)]);
    OneOrder(m / 10, n / 10);
    OneOrder(m % 10, n % 10);
    assert Two(m) == [Digit(m / 10)] + [Digit(m % 10)] && Two(n) == [Digit(n / 10)] + [Digit(n % 10)];
    assert m == m / 10 * 10 + m % 10 && n == n / 10 * 10 + n % 10;
  }

  lemma FourOrder(m: nat, n: nat, u: string, v: string)
    requires m < 10000 && n < 10000
    ensures Less(Four(m) + u, Four(n) + v) <==> m < n || (m == n && Less(u, v))
  {
    assert Four(m) + u == Two(m / 100) + (Two(m % 100) + u);
    assert Four(n) + v == Two(n / 100) + (Two(n % 100) + v);
    TwoOrder(m / 100, n / 100, Two(m % 100) + u, Two(n % 100) + v);
    TwoOrder(m % 100, n % 100, u, v);
  }

  lemma SeparatorOrder(sep: string, u: string, v: string)
    requires |sep| == 1
    ensures Less(sep + u, sep + v) <==> Less(u, v)
  {
    LessConcat(sep, sep, u, v);
    assert !Less(sep[1..], sep[1..]);
  }

  lemma {:induction false} NotLessItself(s: string)
    ensures !Less(s, s)
  {
    if |s| > 0 {
      NotLessItself(s[1..]);
    }
  }

  lemma TimeOrder(a: Clock, b: Clock, oa: string, ob: string)
    requires InRange(a) && InRange(b)
    ensures Less(TimeOfDay(a, oa), TimeOfDay(b, ob)) <==>
              a.hour < b.hour || (a.hour == b.hour &&
                (a.minute < b.minute || (a.minute == b.minute &&
                  (a.second < b.second || (a.second == b.second && Less(oa, ob))))))
  {
    var sa, sb := Two(a.second) + oa, Two(b.second) + ob;
    TwoOrder(a.second, b.second, oa, ob);
    SeparatorOrder(":", sa, sb);
    var ma, mb := Two(a.minute) + (":" + sa), Two(b.minute) + (":" + sb);
    TwoOrder(a.minute, b.minute, ":" + sa, ":" + sb);
    SeparatorOrder(":", ma, mb);
    TwoOrder(a.hour, b.hour, ":" + ma, ":" + mb);
  }

  /** The string order is the order of the clock readings; only equal readings look at the offset. */
  lemma StampOrder(a: Clock, b: Clock, oa: string, ob: string)
    requires InRange(a) && InRange(b)
    ensures Less(Stamp(a, oa), Stamp(b, ob)) <==> Earlier(a, b) || (a == b && Less(oa, ob))
  {
    var ta, tb := TimeOfDay(a, oa), TimeOfDay(b, ob);
    TimeOrder(a, b, oa, ob);
    SeparatorOrder("T", ta, tb);
    var da, db := Two(a.day) + ("T" + ta), Two(b.day) + ("T" + tb);
    TwoOrder(a.day, b.day, "T" + ta, "T" + tb);
    SeparatorOrder("-", da, db);
    var ma, mb := Two(a.month) + ("-" + da), Two(b.month) + ("-" + db);
    TwoOrder(a.month, b.month, "-" + da, "-" + db);
    SeparatorOrder("-", ma, mb);
    FourOrder(a.year, b.year, "-" + ma, "-" + mb);
  }

  // ---------- Readings and instants ----------

  predicate LeapYear(year: nat) {
    year % 4 == 0 && (year % 100 != 0 || year % 400 == 0)
  }

  function DaysIn(year: nat, month: nat): nat {
    if month == 2 then (if LeapYear(year) then 29 else 28)
    else if month in {4, 6, 9, 11} then 30
    else 31
  }

  function YearLength(year: nat): nat {
    if LeapYear(year) then 366 else 365
  }

  predicate OnCalendar(c: Clock) {
    c.year < 10000 && 1 <= c.month <= 12 && 1 <= c.day <= DaysIn(c.year, c.month) &&
    c.hour < 24 && c.minute < 60 && c.second < 60
  }

  function DaysBeforeYear(year: nat): nat {
    if year == 0 then 0 else DaysBeforeYear(year - 1) + YearLength(year - 1)
  }

  function DaysBeforeMonth(year: nat, month: nat): nat {
    if month <= 1 then 0 else DaysBeforeMonth(year, month - 1) + DaysIn(year, month - 1)
  }

  function DayNumber(c: Clock): int {
    DaysBeforeYear(c.year) + DaysBeforeMonth(c.year, c.month) + c.day
  }

  /** Seconds on the local clock. */
  function LocalSeconds(c: Clock): int {
    ((DayNumber(c) * 24 + c.hour) * 60 + c.minute) * 60 + c.second
  }

  /** The instant of a reading taken `offset` minutes east of UTC. */
  function Instant(c: Clock, offset: int): int {
    LocalSeconds(c) - offset * 60
  }

  lemma {:induction false} MonthsGrow(year: nat, month: nat, later: nat)
    requires 1 <= month < later
    ensures DaysBeforeMonth(year, month) + DaysIn(year, month) <= DaysBeforeMonth(year, later)
  {
    if month + 1 < later {
      MonthsGrow(year, month, later - 1);
    }
  }

  lemma {:induction false} YearsGrow(year: nat, later: nat)
    requires year < later
    ensures DaysBeforeYear(year) + YearLength(year) <= DaysBeforeYear(later)
  {
    if year + 1 < later {
      YearsGrow(year, later - 1);
    }
  }

  lemma MonthsFillTheYear(year: nat)
    ensures DaysBeforeMonth(year, 13) == YearLength(year)
  {
    var leap := if LeapYear(year) then 1 else 0;
    assert DaysBeforeMonth(year, 2) == 31;
    assert DaysBeforeMonth(year, 3) == 59 + leap;
    assert DaysBeforeMonth(year, 4) == 90 + leap;
    assert DaysBeforeMonth(year, 5) == 120 + leap;
    assert DaysBeforeMonth(year, 6) == 151 + leap;
    assert DaysBeforeMonth(year, 7) == 181 + leap;
    assert DaysBeforeMonth(year, 8) == 212 + leap;
    assert DaysBeforeMonth(year, 9) == 243 + leap;
    assert DaysBeforeMonth(year, 10) == 273 + leap;
    assert DaysBeforeMonth(year, 11) == 304 + leap;
    assert DaysBeforeMonth(year, 12) == 334 + leap;
  }

  /** The reading one second later, with the carries of the Gregorian calendar. */
  function Next(c: Clock): Clock {
    if c.second < 59 then c.(second := c.second + 1)
    else if c.minute < 59 then c.(second := 0, minute := c.minute + 1)
    else if c.hour < 23 then c.(second := 0, minute := 0, hour := c.hour + 1)
    else if c.day < DaysIn(c.year, c.month) then Clock(c.year, c.month, c.day + 1, 0, 0, 0)
    else if c.month < 12 then Clock(c.year, c.month + 1, 1, 0, 0, 0)
    else Clock(c.year + 1, 1, 1, 0, 0, 0)
  }

  /** Every reading is followed by one on the calendar, whose instant is one second later. */
  lemma ClockTicks(c: Clock, offset: int)
    requires OnCalendar(c) && Next(c).year < 10000
    ensures OnCalendar(Next(c)) && Instant(Next(c), offset) == Instant(c, offset) + 1
  {
    if Next(c).year > c.year {
      MonthsFillTheYear(c.year);
      assert DaysBeforeMonth(c.year, 13) == DaysBeforeMonth(c.year, 12) + DaysIn(c.year, 12);
    }
  }

  lemma DaysGrow(a: Clock, b: Clock)
    requires OnCalendar(a) && OnCalendar(b)
    requires a.year < b.year || (a.year == b.year && (a.month < b.month || (a.month == b.month && a.day < b.day)))
    ensures DayNumber(a) < DayNumber(b)
  {
    if a.year < b.year {
      YearsGrow(a.year, b.year);
      MonthsGrow(a.year, a.month, 13);
      MonthsFillTheYear(a.year);
    } else if a.month < b.month {
      MonthsGrow(a.year, a.month, b.month);
    }
  }

  /** The local clock orders its readings as the calendar does. */
  lemma EarlierIsLess(a: Clock, b: Clock)
    requires OnCalendar(a) && OnCalendar(b)
    ensures Earlier(a, b) <==> LocalSeconds(a) < LocalSeconds(b)
    ensures a == b || Earlier(a, b) || Earlier(b, a)
  {
    if a.year != b.year || a.month != b.month || a.day != b.day {
      if Earlier(a, b) {
        DaysGrow(a, b);
      } else {
        DaysGrow(b, a);
      }
    }
  }

  // ---------- Offsets ----------

  /** The offset as the layout "Z07:00" of the source prints it. */
  function OffsetText(offset: int): string
    requires -6000 < offset < 6000
  {
    if offset == 0 then "Z"
    else if offset > 0 then "+" + (Two(offset / 60) + (":" + Two(offset % 60)))
    else "-" + (Two(-offset / 60) + (":" + Two(-offset % 60)))
  }

  lemma MinutesOrder(m: nat, n: nat)
    requires m < 6000 && n < 6000
    ensures Less(Two(m / 60) + (":" + Two(m % 60)), Two(n / 60) + (":" + Two(n % 60))) <==> m < n
  {
    var u, v := Two(m % 60), Two(n % 60);
    TwoOrder(m / 60, n / 60, ":" + u, ":" + v);
    SeparatorOrder(":", u, v);
    assert u + "" == u && v + "" == v;
    TwoOrder(m % 60, n % 60, "", "");
    assert m == m / 60 * 60 + m % 60 && n == n / 60 * 60 + n % 60;
  }

  /** Offsets whose texts order equal readings as their instants are ordered. */
  predicate TextsFollowInstants(oa: int, ob: int) {
    oa == ob || (oa > 0 && ob <= 0) || (oa <= 0 && ob > 0) || (oa < 0 && ob < 0)
  }

  lemma TextOrder(oa: int, ob: int)
    requires -6000 < oa < 6000 && -6000 < ob < 6000
    ensures (Less(OffsetText(oa), OffsetText(ob)) <==> oa > ob) <==> TextsFollowInstants(oa, ob)
  {
    NotLessItself(OffsetText(oa));
    if oa > 0 && ob > 0 {
      var u, v := Two(oa / 60) + (":" + Two(oa % 60)), Two(ob / 60) + (":" + Two(ob % 60));
      SeparatorOrder("+", u, v);
      MinutesOrder(oa, ob);
    } else if oa < 0 && ob < 0 {
      var u, v := Two(-oa / 60) + (":" + Two(-oa % 60)), Two(-ob / 60) + (":" + Two(-ob % 60));
      SeparatorOrder("-", u, v);
      MinutesOrder(-oa, -ob);
    } else {
      assert OffsetText(oa)[0] == (if oa == 0 then 'Z' else if oa > 0 then '+' else '-');
      assert OffsetText(ob)[0] == (if ob == 0 then 'Z' else if ob > 0 then '+' else '-');
    }
  }

  /** Comparing the stamps tells which instant came first. */
  predicate OrderIsTrue(a: Clock, oa: int, b: Clock, ob: int)
    requires InRange(a) && InRange(b) && -6000 < oa < 6000 && -6000 < ob < 6000
  {
    Less(Stamp(a, OffsetText(oa)), Stamp(b, OffsetText(ob))) <==> Instant(a, oa) < Instant(b, ob)
  }

  /** The readings lie further apart than the offset moved, and for equal readings the offset texts happen to agree. */
  predicate FarApart(a: Clock, oa: int, b: Clock, ob: int) {
    if Earlier(a, b) then LocalSeconds(b) - LocalSeconds(a) > 60 * (ob - oa)
    else if Earlier(b, a) then LocalSeconds(a) - LocalSeconds(b) >= 60 * (oa - ob)
    else TextsFollowInstants(oa, ob)
  }

  /** Exactly when the string order of two stamps is the order of their instants. */
  lemma StringOrderIsTimeOrderIff(a: Clock, oa: int, b: Clock, ob: int)
    requires OnCalendar(a) && OnCalendar(b) && -6000 < oa < 6000 && -6000 < ob < 6000
    ensures OrderIsTrue(a, oa, b, ob) <==> FarApart(a, oa, b, ob)
  {
    StampOrder(a, b, OffsetText(oa), OffsetText(ob));
    EarlierIsLess(a, b);
    EarlierIsLess(b, a);
    TextOrder(oa, ob);
  }

  lemma OneOffsetIsFarApart(a: Clock, b: Clock, offset: int)
    requires OnCalendar(a) && OnCalendar(b)
    ensures FarApart(a, offset, b, offset)
  {
    EarlierIsLess(a, b);
    EarlierIsLess(b, a);
  }

  /** With one offset it always is. */
  lemma OneOffsetIsTrue(a: Clock, b: Clock, offset: int)
    requires OnCalendar(a) && OnCalendar(b) && -6000 < offset < 6000
    ensures OrderIsTrue(a, offset, b, offset)
  {
    OneOffsetIsFarApart(a, b, offset);
    StringOrderIsTimeOrderIff(a, offset, b, offset);
  }

  /** At the end of daylight saving time the reading that is 40 minutes older sorts as newer. */
  lemma OffsetsInvertTheOrder()
    ensures var before, after := Clock(2025, 10, 26, 2, 30, 0), Clock(2025, 10, 26, 2, 10, 0);
            Instant(before, 120) == Instant(after, 60) - 40 * 60 && !OrderIsTrue(after, 60, before, 120)
  {
    StringOrderIsTimeOrderIff(Clock(2025, 10, 26, 2, 10, 0), 60, Clock(2025, 10, 26, 2, 30, 0), 120);
  }

  function Value(digit: char): int {
    digit as int - '0' as int
  }

  lemma TwoIsDecimal(n: nat)
    requires n < 100
    ensures |Two(n)| == 2 && 0 <= Value(Two(n)[0]) < 10 && 0 <= Value(Two(n)[1]) < 10
    ensures 10 * Value(Two(n)[0]) + Value(Two(n)[1]) == n
  {
  }

  lemma TimeLayout(c: Clock, offset: string)
    requires InRange(c)
    ensures var s := TimeOfDay(c, offset);
            && |s| == 8 + |offset|
            && s[0..2] == Two(c.hour) && s[3..5] == Two(c.minute) && s[6..8] == Two(c.second)
            && s[8..] == offset && s[2] == ':' && s[5] == ':'
  {
  }

  /** `2006-01-02T15:04:05` and the offset behind it. */
  lemma Layout(c: Clock, offset: string)
    requires InRange(c)
    ensures var s := Stamp(c, offset);
            && |s| == 19 + |offset|
            && s[0..2] == Two(c.year / 100) && s[2..4] == Two(c.year % 100) && s[5..7] == Two(c.month)
            && s[8..10] == Two(c.day) && s[11..] == TimeOfDay(c, offset)
            && s[4] == '-' && s[7] == '-' && s[10] == 'T'
  {
    TimeLayout(c, offset);
  }

  /** `Z` for no offset, otherwise the sign and two times two digits. */
  lemma OffsetLayout(offset: int)
    requires -6000 < offset < 6000
    ensures var s := OffsetText(offset);
            if offset == 0 then s == "Z"
            else
              var minutes := if offset < 0 then -offset else offset;
              && |s| == 6 && s[0] == (if offset < 0 then '-' else '+') && s[3] == ':'
              && s[1..3] == Two(minutes / 60) && s[4..6] == Two(minutes % 60)
  {
  }

  /** The Gregorian calendar: a leap year every fourth year, except three times in four hundred years. */
  lemma LeapYearExamples()
    ensures LeapYear(2000) && LeapYear(2024) && !LeapYear(1900) && !LeapYear(2023)
    ensures DaysIn(2024, 2) == 29 && DaysIn(2023, 2) == 28
  {
  }
}
