/** The date in backup names: the closed formula against a calendar stepped one day at a time. */
module Calendar {

  datatype Date = Date(year: nat, month: nat, day: nat)

  // ---------------------------------------------------------------- the calendar

  predicate Leap(year: nat) {
    year % 4 == 0 && (year % 100 != 0 || year % 400 == 0)
  }

  function MonthDays(year: nat, month: nat): nat {
    if month == 2 then (if Leap(year) then 29 else 28)
    else if month == 4 || month == 6 || month == 9 || month == 11 then 30
    else 31
  }

  predicate Valid(d: Date) {
    1 <= d.month <= 12 && 1 <= d.day <= MonthDays(d.year, d.month)
  }

  function NextDay(d: Date): Date {
    if d.day < MonthDays(d.year, d.month) then d.(day := d.day + 1)
    else if d.month < 12 then Date(d.year, d.month + 1, 1)
    else Date(d.year + 1, 1, 1)
  }

  /** The date `n` days after 1 January 1970, one day at a time. */
  function Stepped(n: nat): Date {
    if n == 0 then Date(1970, 1, 1) else NextDay(Stepped(n - 1))
  }

  // ---------------------------------------------------------------- the formula

  function YearOfEra(doe: nat): int {
    (doe - doe / 1460 + doe / 36524 - doe / 146096) / 365
  }

  /** Years begin in March: day `s` of the March year `y`. */
  function FromMarch(y: nat, s: nat): Date {
    var mp := (5 * s + 2) / 153;
    var day := s - (153 * mp + 2) / 5 + 1;
    var month := if mp < 10 then mp + 3 else mp - 9;
    Date(if month <= 2 then y + 1 else y, month, if day < 0 then 0 else day)
  }

  /** The March year and the day in it, for a day counted from 1 March of year 0. */
  function Split(z: nat): (r: (int, int)) {
    var era, doe := z / 146097, z % 146097;
    var yoe := YearOfEra(doe);
    (yoe + era * 400, doe - (365 * yoe + yoe / 4 - yoe / 100))
  }

  /** The civil part of `utc_timestamp`. */
  function CivilFromDays(days: nat): Date {
    var (y, s) := Split(days + 719468);
    if y < 0 || s < 0 then Date(0, 0, 0) else FromMarch(y, s)
  }

  // ---------------------------------------------------------------- years

  /** The days before March year `y`. */
  function Start(y: nat): int {
    365 * y + y / 4 - y / 100 + y / 400
  }

  function YearLength(y: nat): nat {
    if Leap(y + 1) then 366 else 365
  }

  function Tick(b: bool): nat {
    if b then 1 else 0
  }

  lemma Quotients(y: nat)
    ensures (y + 1) / 4 == y / 4 + Tick((y + 1) % 4 == 0)
    ensures (y + 1) / 100 == y / 100 + Tick((y + 1) % 100 == 0)
    ensures (y + 1) / 400 == y / 400 + Tick((y + 1) % 400 == 0)
  {
  }

  lemma Multiples(n: nat)
    ensures n % 100 == 0 ==> n % 4 == 0
    ensures n % 400 == 0 ==> n % 100 == 0
  {
    if n % 100 == 0 {
      assert n == 4 * (25 * (n / 100));
    }
    if n % 400 == 0 {
      assert n == 100 * (4 * (n / 400));
    }
  }

  lemma NextStart(y: nat)
    ensures Start(y + 1) == Start(y) + YearLength(y)
  {
    Quotients(y);
    Multiples(y + 1);
    var a, b, c := (y + 1) % 4 == 0, (y + 1) % 100 == 0, (y + 1) % 400 == 0;
    assert YearLength(y) == 365 + Tick(a) - Tick(b) + Tick(c);
  }

  lemma {:induction false} StartGrows(x: nat, y: nat)
    requires x < y
    ensures Start(x + 1) <= Start(y)
  {
    if x + 1 < y {
      StartGrows(x, y - 1);
      NextStart(y - 1);
    }
  }

  lemma SplitIsUnique(x: nat, s: nat, y: nat, t: nat)
    requires Start(x) + s == Start(y) + t && s < YearLength(x) && t < YearLength(y)
    ensures x == y && s == t
  {
    NextStart(x);
    NextStart(y);
    if x < y {
      StartGrows(x, y);
    } else if y < x {
      StartGrows(y, x);
    }
  }

  /** The formula's year of an era, for the day with the given century, leap cycle, year and day. */
  lemma YearOfEraIs(c: nat, q: nat, r: nat, s: nat, doe: nat)
    requires c <= 3 && q <= 24 && r <= 3 && doe == 36524 * c + 1461 * q + 365 * r + s
    requires s < 365 || (s == 365 && r == 3 && (q < 24 || c == 3))
    ensures YearOfEra(doe) == 100 * c + 4 * q + r
  {
    var x := 24 * c + q + 365 * r + s;
    assert doe == 1460 * (25 * c + q) + x;
    var late := if x < 1460 then 0 else 1;
    assert doe / 1460 == 25 * c + q + late;
    var last := if doe == 146096 then 1 else 0;
    assert doe / 36524 == c + last && doe / 146096 == last;
    assert 0 <= s - late < 365;
  }

  lemma EraSplits(doe: nat) returns (c: nat, q: nat, r: nat, s: nat)
    requires doe < 146097
    ensures c <= 3 && q <= 24 && r <= 3 && doe == 36524 * c + 1461 * q + 365 * r + s
    ensures s < 365 || (s == 365 && r == 3 && (q < 24 || c == 3))
  {
    c := if doe / 36524 < 3 then doe / 36524 else 3;
    var inCentury := doe - 36524 * c;
    q := inCentury / 1461;
    var inCycle := inCentury - 1461 * q;
    r := if inCycle / 365 < 3 then inCycle / 365 else 3;
    s := inCycle - 365 * r;
  }

  lemma YearParts(c: nat, q: nat, r: nat)
    requires c <= 3 && q <= 24 && r <= 3
    ensures
      var y := 100 * c + 4 * q + r;
      y / 4 == 25 * c + q && y / 100 == c && y < 400
  {
  }

  lemma ShiftBy4(era: nat, y: nat)
    ensures (era * 400 + y) / 4 == 100 * era + y / 4 && (era * 400 + y) % 4 == y % 4
  {
  }

  lemma ShiftBy100(era: nat, y: nat)
    ensures (era * 400 + y) / 100 == 4 * era + y / 100 && (era * 400 + y) % 100 == y % 100
  {
  }

  lemma ShiftBy400(era: nat, y: nat)
    ensures (era * 400 + y) / 400 == era + y / 400 && (era * 400 + y) % 400 == y % 400
  {
  }

  lemma EraStart(era: nat, y: nat)
    requires y < 400
    ensures Start(era * 400 + y) == 146097 * era + 365 * y + y / 4 - y / 100
  {
    ShiftBy4(era, y);
    ShiftBy100(era, y);
    ShiftBy400(era, y);
  }

  lemma EraLeaps(era: nat, y: nat)
    ensures YearLength(era * 400 + y) == YearLength(y)
  {
    ShiftBy4(era, y + 1);
    ShiftBy100(era, y + 1);
    ShiftBy400(era, y + 1);
  }

  lemma LastDayIsLeap(c: nat, q: nat, r: nat, s: nat)
    requires c <= 3 && q <= 24 && r <= 3
    requires s < 365 || (s == 365 && r == 3 && (q < 24 || c == 3))
    ensures s < YearLength(100 * c + 4 * q + r)
  {
    var n := 100 * c + 4 * q + r + 1;
    if s == 365 {
      assert n == 100 * c + 4 * (q + 1);
      assert n % 4 == 0;
      if q < 24 {
        assert n % 100 == 4 * (q + 1);
      } else {
        assert n == 400;
      }
    }
  }

  /** The formula names the one March year and day the count falls on. */
  lemma SplitIsRight(z: nat)
    ensures
      var (y, s) := Split(z);
      y >= 0 && 0 <= s < YearLength(y) && z == Start(y) + s
  {
    var era, doe := z / 146097, z % 146097;
    var c, q, r, s := EraSplits(doe);
    YearOfEraIs(c, q, r, s, doe);
    YearParts(c, q, r);
    EraStart(era, 100 * c + 4 * q + r);
    EraLeaps(era, 100 * c + 4 * q + r);
    LastDayIsLeap(c, q, r, s);
  }

  // ---------------------------------------------------------------- months

  /** Within a March year, months begin where the formula says. */
  lemma MonthIs(s: nat)
    requires s < 366
    ensures
      var mp := (5 * s + 2) / 153;
      mp <= 11 && (153 * mp + 2) / 5 <= s < (153 * (mp + 1) + 2) / 5
  {
  }

  lemma MarchDateIsValid(y: nat, s: nat)
    requires s < YearLength(y)
    ensures Valid(FromMarch(y, s))
  {
    MonthIs(s);
    var mp := (5 * s + 2) / 153;
    MonthLengths(y, mp);
  }

  /** The month at `mp`, and how long it is. */
  function MonthAt(mp: nat): nat {
    if mp < 10 then mp + 3 else mp - 9
  }

  function YearAt(y: nat, mp: nat): nat {
    if mp < 10 then y else y + 1
  }

  lemma MonthLengths(y: nat, mp: nat)
    requires mp <= 11
    ensures mp < 11 ==> MonthDays(YearAt(y, mp), MonthAt(mp)) == (153 * (mp + 1) + 2) / 5 - (153 * mp + 2) / 5
    ensures mp == 11 ==> MonthDays(YearAt(y, mp), MonthAt(mp)) == YearLength(y) - (153 * mp + 2) / 5
  {
  }

  lemma NextInYear(y: nat, s: nat)
    requires s + 1 < YearLength(y)
    ensures FromMarch(y, s + 1) == NextDay(FromMarch(y, s))
  {
    MonthIs(s);
    MonthIs(s + 1);
    var mp, mp' := (5 * s + 2) / 153, (5 * (s + 1) + 2) / 153;
    MonthLengths(y, mp);
    assert mp' == if s + 1 < (153 * (mp + 1) + 2) / 5 then mp else mp + 1;
  }

  lemma NextYear(y: nat)
    ensures FromMarch(y + 1, 0) == NextDay(FromMarch(y, YearLength(y) - 1))
  {
    MonthIs(YearLength(y) - 1);
    MonthLengths(y, 11);
  }

  // ---------------------------------------------------------------- the theorems

  lemma SplitAt(n: nat) returns (y: nat, s: nat)
    ensures CivilFromDays(n) == FromMarch(y, s) && s < YearLength(y) && n + 719468 == Start(y) + s
  {
    SplitIsRight(n + 719468);
    var (y', s') := Split(n + 719468);
    y, s := y', s';
  }

  lemma MarchSteps(y: nat, s: nat, y': nat, s': nat)
    requires s < YearLength(y) && s' < YearLength(y') && Start(y') + s' == Start(y) + s + 1
    ensures FromMarch(y', s') == NextDay(FromMarch(y, s))
  {
    if s + 1 < YearLength(y) {
      SplitIsUnique(y, s + 1, y', s');
      NextInYear(y, s);
    } else {
      NextStart(y);
      LeapYearsAreLonger(y + 1);
      SplitIsUnique(y + 1, 0, y', s');
      NextYear(y);
    }
  }

  lemma LeapYearsAreLonger(y: nat)
    ensures 0 < YearLength(y)
  {
  }

  /** One more day is the next date. */
  lemma CivilSteps(n: nat)
    ensures CivilFromDays(n + 1) == NextDay(CivilFromDays(n))
  {
    var y, s := SplitAt(n);
    var y', s' := SplitAt(n + 1);
    MarchSteps(y, s, y', s');
  }

  lemma EpochIsFirst()
    ensures CivilFromDays(0) == Date(1970, 1, 1)
  {
    var y, s := SplitAt(0);
    assert YearLength(1969) == 365 && Start(1969) == 719162;
    SplitIsUnique(1969, 306, y, s);
    assert (5 * 306 + 2) / 153 == 10 && (153 * 10 + 2) / 5 == 306;
  }

  lemma CivilIsValid(n: nat)
    ensures Valid(CivilFromDays(n))
  {
    var y, s := SplitAt(n);
    MarchDateIsValid(y, s);
  }

  /** A date for every day that starts at the epoch and goes on by one day each. */
  ghost predicate StepsFromEpoch(f: nat -> Date) {
    f(0) == Date(1970, 1, 1) && forall n: nat :: f(n + 1) == NextDay(f(n)) && Valid(f(n))
  }

  lemma {:induction false} OnlyOneCalendar(f: nat -> Date, n: nat)
    requires StepsFromEpoch(f)
    ensures f(n) == Stepped(n) && Valid(f(n))
  {
    if 0 < n {
      OnlyOneCalendar(f, n - 1);
      assert f(n - 1 + 1) == NextDay(f(n - 1));
    }
    assert f(n + 1) == NextDay(f(n));
  }

  lemma CivilStepsFromEpoch()
    ensures StepsFromEpoch(CivilFromDays)
  {
    EpochIsFirst();
    forall n: nat ensures CivilFromDays(n + 1) == NextDay(CivilFromDays(n)) && Valid(CivilFromDays(n)) {
      CivilSteps(n);
      CivilIsValid(n);
    }
  }

  /** The formula is the proleptic Gregorian calendar, and always gives a valid date. */
  lemma {:induction false} CivilIsStepped(n: nat)
    ensures CivilFromDays(n) == Stepped(n) && Valid(CivilFromDays(n))
  {
    CivilStepsFromEpoch();
    OnlyOneCalendar(CivilFromDays, n);
  }

  // ---------------------------------------------------------------- counting days

  function DaysBeforeMonth(year: nat, month: nat): nat {
    if month <= 1 then 0 else DaysBeforeMonth(year, month - 1) + MonthDays(year, month - 1)
  }

  function DaysBeforeYear(year: nat): int {
    if year == 0 then 0 else DaysBeforeYear(year - 1) + if Leap(year - 1) then 366 else 365
  }

  /** The days from 1 January 1970 to a date, counted year by year and month by month. */
  function DayCount(d: Date): int {
    DaysBeforeYear(d.year) + DaysBeforeMonth(d.year, d.month) + d.day - 1 - 719528
  }

  lemma NextDayCounts(d: Date)
    requires Valid(d)
    ensures DayCount(NextDay(d)) == DayCount(d) + 1
  {
    if d.day == MonthDays(d.year, d.month) && d.month == 12 {
      YearHasItsDays(d.year);
    }
  }

  lemma {:induction false} YearHasItsDays(year: nat)
    ensures DaysBeforeMonth(year, 12) + 31 == if Leap(year) then 366 else 365
  {
    assert DaysBeforeMonth(year, 2) == 31;
    assert DaysBeforeMonth(year, 4) == DaysBeforeMonth(year, 3) + 31;
    assert DaysBeforeMonth(year, 6) == DaysBeforeMonth(year, 5) + 31;
    assert DaysBeforeMonth(year, 8) == DaysBeforeMonth(year, 7) + 31;
    assert DaysBeforeMonth(year, 10) == DaysBeforeMonth(year, 9) + 30;
  }

  lemma {:induction false} DaysBeforeYearIs(year: nat)
    requires 0 < year
    ensures DaysBeforeYear(year) == Start(year - 1) + 366
  {
    if 1 < year {
      DaysBeforeYearIs(year - 1);
      NextStart(year - 2);
    }
  }

  lemma EpochCount()
    ensures DayCount(Date(1970, 1, 1)) == 0
  {
    DaysBeforeYearIs(1970);
    assert Start(1969) == 719162;
  }

  lemma {:induction false} StepsAreCounted(n: nat)
    ensures Valid(Stepped(n)) && DayCount(Stepped(n)) == n
  {
    if n == 0 {
      EpochCount();
    } else {
      StepsAreCounted(n - 1);
      NextIsValid(Stepped(n - 1));
      NextDayCounts(Stepped(n - 1));
    }
  }

  lemma NextIsValid(d: Date)
    requires Valid(d)
    ensures Valid(NextDay(d))
  {
  }

  /** Counting the days up to the date the formula gives returns the number it was given. */
  lemma DayCountInverts(n: nat)
    ensures DayCount(CivilFromDays(n)) == n
  {
    CivilIsStepped(n);
    StepsAreCounted(n);
  }
}
