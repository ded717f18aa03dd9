/**
 * The proleptic Gregorian calendar behind Go's time.AddDate, from year 1 on.
 * A date that overflows its month is normalised by counting days, as time.Date does.
 */
module Calendar {
  import opened Foundations

  datatype Period = OneTime | Monthly | Yearly

  predicate IsLeap(y: nat) {
    y % 4 == 0 && (y % 100 != 0 || y % 400 == 0)
  }

  function YearLength(y: nat): nat { if IsLeap(y) then 366 else 365 }

  function MonthLength(y: nat, m: nat): nat
    requires 1 <= m <= 12
  {
    if m == 2 then (if IsLeap(y) then 29 else 28)
    else if m == 4 || m == 6 || m == 9 || m == 11 then 30
    else 31
  }

  /** Days from 1 January of year 1 to 1 January of year y. */
  function DaysBeforeYear(y: nat): nat
    requires 1 <= y
  {
    if y == 1 then 0 else DaysBeforeYear(y - 1) + YearLength(y - 1)
  }

  /** Days from 1 January to the first day of month m; m == 13 gives the year's length. */
  function DaysBeforeMonth(y: nat, m: nat): nat
    requires 1 <= m <= 13
  {
    if m == 1 then 0 else DaysBeforeMonth(y, m - 1) + MonthLength(y, m - 1)
  }

  function YearAt(day: nat, y: nat): (r: nat)
    requires 1 <= y && DaysBeforeYear(y) <= day
    ensures y <= r && DaysBeforeYear(r) <= day < DaysBeforeYear(r + 1)
    decreases day - DaysBeforeYear(y)
  {
    if day < DaysBeforeYear(y + 1) then y else YearAt(day, y + 1)
  }

  lemma MonthsFillYear(y: nat)
    ensures DaysBeforeMonth(y, 13) == YearLength(y)
    ensures DaysBeforeMonth(y, 3) == 31 + MonthLength(y, 2)
  {
    assert DaysBeforeMonth(y, 2) == DaysBeforeMonth(y, 1) + 31;
    assert DaysBeforeMonth(y, 5) == DaysBeforeMonth(y, 3) + 61;
    assert DaysBeforeMonth(y, 7) == DaysBeforeMonth(y, 5) + 61;
    assert DaysBeforeMonth(y, 9) == DaysBeforeMonth(y, 7) + 62;
    assert DaysBeforeMonth(y, 11) == DaysBeforeMonth(y, 9) + 61;
    assert DaysBeforeMonth(y, 13) == DaysBeforeMonth(y, 11) + 61;
  }

  function MonthAt(y: nat, day: nat, m: nat): (r: nat)
    requires 1 <= m <= 12 && DaysBeforeMonth(y, m) <= day < YearLength(y)
    ensures m <= r <= 12 && DaysBeforeMonth(y, r) <= day < DaysBeforeMonth(y, r + 1)
    decreases 12 - m
  {
    if day < DaysBeforeMonth(y, m + 1) then m
    else
      MonthsFillYear(y);
      MonthAt(y, day, m + 1)
  }

  /** day counts from 0 and clock is the time of day. */
  datatype Civil = Civil(year: nat, month: nat, day: nat, clock: nat)

  function ToCivil(t: Micros): (c: Civil)
    ensures 1 <= c.year && 1 <= c.month <= 12
  {
    var days := t / DAY;
    var y := YearAt(days, 1);
    var inYear := days - DaysBeforeYear(y);
    var m := MonthAt(y, inYear, 1);
    Civil(y, m, inYear - DaysBeforeMonth(y, m), t % DAY)
  }

  /** The instant of a civil date whose month may be 13 and whose day may overflow its month. */
  function FromCivil(c: Civil): Micros
    requires 1 <= c.year && 1 <= c.month <= 13
  {
    (DaysBeforeYear(c.year) + DaysBeforeMonth(c.year, c.month) + c.day) * DAY + c.clock
  }

  lemma CivilRoundTrip(t: Micros)
    ensures FromCivil(ToCivil(t)) == t
  {
  }

  /** The calendar's years: 365 days and one more every fourth, but not every hundredth unless every four hundredth. */
  lemma {:induction false} YearsCounted(y: nat)
    requires 1 <= y
    ensures DaysBeforeYear(y) == 365 * (y - 1) + (y - 1) / 4 - (y - 1) / 100 + (y - 1) / 400
  {
    hide IsLeap;
    if y > 1 {
      YearsCounted(y - 1);
      LeapDays(y - 1);
    }
  }

  /** A year adds to each of the three counts exactly where it is a multiple. */
  lemma LeapDays(n: nat)
    requires 1 <= n
    ensures n / 4 - n / 100 + n / 400 - ((n - 1) / 4 - (n - 1) / 100 + (n - 1) / 400) == if IsLeap(n) then 1 else 0
  {
    NextQuotient(n, 4);
    NextQuotient(n, 100);
    NextQuotient(n, 400);
    HundredsAreFours(n);
  }

  lemma NextQuotient(n: nat, d: nat)
    requires 1 <= n && d in {4, 100, 400}
    ensures n / d == (n - 1) / d + if n % d == 0 then 1 else 0
  {
    if d == 4 {
    } else if d == 100 {
    } else {
    }
  }

  lemma HundredsAreFours(n: nat)
    ensures n % 100 == 0 ==> n % 4 == 0
    ensures n % 400 == 0 ==> n % 100 == 0
  {
    assert n == 100 * (n / 100) + n % 100;
    assert n == 400 * (n / 400) + n % 400;
  }

  const MONTH_STARTS: seq<nat> := [0, 31, 59, 90, 120, 151, 181, 212, 243, 273, 304, 334, 365]

  /** The days before each month of a common year; a leap year has one more from March on. */
  lemma {:induction false} MonthsCounted(y: nat, m: nat)
    requires 1 <= m <= 13
    ensures DaysBeforeMonth(y, m)
         == MONTH_STARTS[m - 1] + if m > 2 && y % 4 == 0 && (y % 100 != 0 || y % 400 == 0) then 1 else 0
  {
    if m > 1 { MonthsCounted(y, m - 1); }
  }

  /** A civil date names its day: the day of the month is one the month has, and counting back gives the instant. */
  lemma CivilMeaning(t: Micros)
    ensures var c := ToCivil(t);
            && 1 <= c.year && 1 <= c.month <= 12 && c.day < MonthLength(c.year, c.month) && c.clock < 86_400_000_000
            && t == (DaysBeforeYear(c.year) + DaysBeforeMonth(c.year, c.month) + c.day) * 86_400_000_000 + c.clock
  {
  }

  /** billing's termEndFor: one month or one year on, or no end for a one-time plan. */
  function TermEnd(period: Period, start: Micros): Option<Micros> {
    var c := ToCivil(start);
    match period
    case Monthly => Some(FromCivil(c.(month := c.month + 1)))
    case Yearly => Some(FromCivil(c.(year := c.year + 1)))
    case OneTime => None
  }

  /** The term end computed from a clock reading, as it is stored. */
  function StoredTermEnd(period: Period, start: Instant): Option<Micros> {
    var end := TermEnd(period, start.at);
    if end.None? then None else Some(Instant(end.value, start.nanos).Stored())
  }

  /** A monthly term is exactly the length of the month it starts in: 28 to 31 days. */
  lemma MonthlyTerm(start: Micros)
    ensures TermEnd(Monthly, start).Some?
    ensures var c := ToCivil(start);
            TermEnd(Monthly, start).value == start + MonthLength(c.year, c.month) * DAY
    ensures start + 28 * DAY <= TermEnd(Monthly, start).value <= start + 31 * DAY
  {
    CivilRoundTrip(start);
    var c := ToCivil(start);
    NextMonth(c);
    hide ToCivil, FromCivil;
  }

  lemma NextMonth(c: Civil)
    requires 1 <= c.year && 1 <= c.month <= 12
    ensures FromCivil(c.(month := c.month + 1)) == FromCivil(c) + MonthLength(c.year, c.month) * DAY
  {
  }

  lemma {:induction false} DaysBeforeMonthShift(y: nat, m: nat)
    requires 1 <= m <= 12
    ensures DaysBeforeMonth(y + 1, m) - DaysBeforeMonth(y, m)
         == if m <= 2 then 0 else MonthLength(y + 1, 2) - MonthLength(y, 2)
  {
    if m > 1 { DaysBeforeMonthShift(y, m - 1); }
  }

  /** A yearly term has 366 days when it spans a 29 February, else 365. */
  lemma YearlyTerm(start: Micros)
    ensures TermEnd(Yearly, start).Some?
    ensures var c := ToCivil(start);
            TermEnd(Yearly, start).value == start + YearLength(if c.month <= 2 then c.year else c.year + 1) * DAY
    ensures start + 365 * DAY <= TermEnd(Yearly, start).value <= start + 366 * DAY
  {
    CivilRoundTrip(start);
    var c := ToCivil(start);
    DaysBeforeMonthShift(c.year, c.month);
  }

  /** A term that ends at all ends after it starts; storing both ends keeps its length. */
  lemma TermEndsLater(period: Period, start: Instant)
    ensures StoredTermEnd(period, start).None? <==> period.OneTime?
    ensures TermEnd(period, start.at).None? <==> period.OneTime?
    ensures !period.OneTime? ==>
      0 < StoredTermEnd(period, start).value - start.Stored() == TermEnd(period, start.at).value - start.at
  {
    MonthlyTerm(start.at);
    YearlyTerm(start.at);
  }
}
