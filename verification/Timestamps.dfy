/** The names of backups sort by time, as long as years have four digits. */
module Timestamps {
  import opened Calendar
  import opened InsertBatching
  import opened Texts

  datatype Stamp = Stamp(date: Date, hour: nat, minute: nat, second: nat)

  function StampOf(secs: nat): Stamp {
    var inDay := secs % 86400;
    Stamp(CivilFromDays(secs / 86400), inDay / 3600, inDay % 3600 / 60, inDay % 60)
  }

  function Digit(n: nat): byte
    requires n < 10
  {
    (48 + n) as byte
  }

  /** The letters between date and time and at the end. */
  const LETTER_T: Text := [84]
  const LETTER_Z: Text := [90]

  /** At least `width` decimal digits. */
  function Pad(n: nat, width: nat): Text {
    if n < 10 && width <= 1 then [Digit(n)]
    else Pad(n / 10, if width == 0 then 0 else width - 1) + [Digit(n % 10)]
  }

  function TimeText(hour: nat, minute: nat, second: nat): Text {
    Pad(hour, 2) + (Pad(minute, 2) + (Pad(second, 2) + LETTER_Z))
  }

  function StampText(t: Stamp): Text {
    Pad(t.date.year, 4) + (Pad(t.date.month, 2) + (Pad(t.date.day, 2) + (LETTER_T + TimeText(t.hour, t.minute, t.second))))
  }

  /** `utc_timestamp`. */
  function UtcTimestamp(secs: nat): Text {
    StampText(StampOf(secs))
  }

  // ---------------------------------------------------------------- order of strings

  /** Blocks of equal length compare by the first one that differs. */
  lemma {:induction false} EarlierBlockDecides(a: Text, b: Text, x: Text, y: Text)
    requires |a| == |b| && Less(a, b)
    ensures Less(a + x, b + y)
  {
    assert (a + x)[0] == a[0] && (b + y)[0] == b[0];
    assert (a + x)[1..] == a[1..] + x && (b + y)[1..] == b[1..] + y;
    if a[0] == b[0] {
      EarlierBlockDecides(a[1..], b[1..], x, y);
    }
  }

  lemma {:induction false} EqualBlockPasses(a: Text, x: Text, y: Text)
    requires Less(x, y)
    ensures Less(a + x, a + y)
  {
    if a == [] {
      assert a + x == x && a + y == y;
    } else {
      assert (a + x)[1..] == a[1..] + x && (a + y)[1..] == a[1..] + y;
      EqualBlockPasses(a[1..], x, y);
    }
  }

  function Power(w: nat): nat {
    if w == 0 then 1 else 10 * Power(w - 1)
  }

  lemma {:induction false} PadLength(n: nat, w: nat)
    requires 0 < w && n < Power(w)
    ensures |Pad(n, w)| == w
  {
    if 1 < w {
      PadLength(n / 10, w - 1);
    }
  }

  /** Padded numbers sort like numbers. */
  lemma {:induction false} PadOrder(n: nat, m: nat, w: nat)
    requires 0 < w && n < m < Power(w)
    ensures Less(Pad(n, w), Pad(m, w))
  {
    if 1 < w {
      PadLength(n / 10, w - 1);
      PadLength(m / 10, w - 1);
      if n / 10 < m / 10 {
        PadOrder(n / 10, m / 10, w - 1);
        EarlierBlockDecides(Pad(n / 10, w - 1), Pad(m / 10, w - 1), [Digit(n % 10)], [Digit(m % 10)]);
      } else {
        EqualBlockPasses(Pad(n / 10, w - 1), [Digit(n % 10)], [Digit(m % 10)]);
      }
    }
  }

  /** A number block and what follows it. */
  lemma {:induction false} BlockOrder(n: nat, m: nat, w: nat, x: Text, y: Text)
    requires 0 < w && n < Power(w) && m < Power(w)
    requires n < m || (n == m && Less(x, y))
    ensures Less(Pad(n, w) + x, Pad(m, w) + y)
  {
    if n < m {
      PadLength(n, w);
      PadLength(m, w);
      PadOrder(n, m, w);
      EarlierBlockDecides(Pad(n, w), Pad(m, w), x, y);
    } else {
      EqualBlockPasses(Pad(n, w), x, y);
    }
  }

  lemma Powers()
    ensures Power(2) == 100 && Power(4) == 10000
  {
    assert Power(2) == 10 * Power(1) && Power(3) == 10 * Power(2);
  }

  // ---------------------------------------------------------------- order of time

  predicate DateLess(a: Date, b: Date) {
    a.year < b.year || (a.year == b.year && (a.month < b.month || (a.month == b.month && a.day < b.day)))
  }

  lemma NextIsLater(d: Date)
    ensures DateLess(d, NextDay(d))
  {
  }

  lemma DateLessIsTransitive(a: Date, b: Date, c: Date)
    requires DateLess(a, b) && DateLess(b, c)
    ensures DateLess(a, c)
  {
  }

  lemma {:induction false} LaterDayIsLaterDate(m: nat, n: nat)
    requires m < n
    ensures DateLess(Stepped(m), Stepped(n))
  {
    NextIsLater(Stepped(n - 1));
    if m < n - 1 {
      LaterDayIsLaterDate(m, n - 1);
      DateLessIsTransitive(Stepped(m), Stepped(n - 1), Stepped(n));
    }
  }

  lemma TimeOrder(a: nat, b: nat)
    requires a < b < 86400
    ensures a / 3600 < b / 3600 || (a / 3600 == b / 3600 && (a % 3600 / 60 < b % 3600 / 60
              || (a % 3600 / 60 == b % 3600 / 60 && a % 60 < b % 60)))
  {
    var h, m, s := a / 3600, a % 3600 / 60, a % 60;
    assert a % 3600 % 60 == s && a == 3600 * h + 60 * m + s;
    var h', m', s' := b / 3600, b % 3600 / 60, b % 60;
    assert b % 3600 % 60 == s' && b == 3600 * h' + 60 * m' + s';
  }

  lemma TimeTextOrder(h: nat, m: nat, s: nat, h': nat, m': nat, s': nat)
    requires h < 24 && m < 60 && s < 60 && h' < 24 && m' < 60 && s' < 60
    requires h < h' || (h == h' && (m < m' || (m == m' && s < s')))
    ensures Less(TimeText(h, m, s), TimeText(h', m', s'))
  {
    Powers();
    if h == h' && m == m' {
      BlockOrder(s, s', 2, LETTER_Z, LETTER_Z);
    }
    if h == h' {
      BlockOrder(m, m', 2, Pad(s, 2) + LETTER_Z, Pad(s', 2) + LETTER_Z);
    }
    BlockOrder(h, h', 2, Pad(m, 2) + (Pad(s, 2) + LETTER_Z), Pad(m', 2) + (Pad(s', 2) + LETTER_Z));
  }

  /** Dates of four-digit years, each followed by a text. */
  lemma {:induction false} DateTextOrder(a: Date, b: Date, x: Text, y: Text)
    requires Valid(a) && Valid(b) && a.year < 10000 && b.year < 10000
    requires DateLess(a, b) || (a == b && Less(x, y))
    ensures Less(Pad(a.year, 4) + (Pad(a.month, 2) + (Pad(a.day, 2) + x)), Pad(b.year, 4) + (Pad(b.month, 2) + (Pad(b.day, 2) + y)))
  {
    Powers();
    if a.year == b.year && a.month == b.month {
      BlockOrder(a.day, b.day, 2, x, y);
    }
    if a.year == b.year {
      BlockOrder(a.month, b.month, 2, Pad(a.day, 2) + x, Pad(b.day, 2) + y);
    }
    BlockOrder(a.year, b.year, 4, Pad(a.month, 2) + (Pad(a.day, 2) + x), Pad(b.month, 2) + (Pad(b.day, 2) + y));
  }

  lemma SameDayOrder(a: nat, b: nat)
    requires a < b && a / 86400 == b / 86400
    ensures
      var s, t := StampOf(a), StampOf(b);
      Less(LETTER_T + TimeText(s.hour, s.minute, s.second), LETTER_T + TimeText(t.hour, t.minute, t.second))
  {
    var s, t := StampOf(a), StampOf(b);
    TimeOrder(a % 86400, b % 86400);
    TimeTextOrder(s.hour, s.minute, s.second, t.hour, t.minute, t.second);
    EqualBlockPasses(LETTER_T, TimeText(s.hour, s.minute, s.second), TimeText(t.hour, t.minute, t.second));
  }

  lemma EarlierSortsFirst(a: nat, b: nat)
    requires a < b && StampOf(a).date.year < 10000 && StampOf(b).date.year < 10000
    ensures Less(UtcTimestamp(a), UtcTimestamp(b))
  {
    var s, t := StampOf(a), StampOf(b);
    var x, y := LETTER_T + TimeText(s.hour, s.minute, s.second), LETTER_T + TimeText(t.hour, t.minute, t.second);
    CivilIsStepped(a / 86400);
    CivilIsStepped(b / 86400);
    if a / 86400 == b / 86400 {
      SameDayOrder(a, b);
    } else {
      LaterDayIsLaterDate(a / 86400, b / 86400);
    }
    DateTextOrder(s.date, t.date, x, y);
  }

  /** The first second of the year 10000. */
  const FIVE_DIGITS: nat := 253402300800

  lemma LastFourDigitDay()
    ensures CivilFromDays(2932896) == Date(9999, 12, 31) && CivilFromDays(2932897) == Date(10000, 1, 1)
  {
    var y, s := SplitAt(2932896);
    assert Start(9999) == 3652059 && YearLength(9999) == 366;
    SplitIsUnique(9999, 305, y, s);
    CivilSteps(2932896);
  }

  /** The first second of the year 10000 sorts before the one it follows. */
  lemma FiveDigitYearsSortFirst()
    ensures Less(UtcTimestamp(253402300800), UtcTimestamp(253402300799))
  {
    LastFourDigitDay();
    assert 253402300799 / 86400 == 2932896 && 253402300800 / 86400 == 2932897;
    YearDigits();
    var a, b := UtcTimestamp(253402300800), UtcTimestamp(253402300799);
    assert a[0] == Pad(10000, 4)[0] && b[0] == Pad(9999, 4)[0];
  }

  lemma YearDigits()
    ensures |Pad(10000, 4)| == 5 && Pad(10000, 4)[0] == 49 && |Pad(9999, 4)| == 4 && Pad(9999, 4)[0] == 57
  {
    assert Pad(1, 0) == [49];
    assert Pad(10, 1) == Pad(1, 0) + [48];
    assert Pad(100, 2) == Pad(10, 1) + [48];
    assert Pad(1000, 3) == Pad(100, 2) + [48];
    assert Pad(9, 1) == [57];
    assert Pad(99, 2) == Pad(9, 1) + [57];
    assert Pad(999, 3) == Pad(99, 2) + [57];
  }

  lemma DayOf(a: nat)
    ensures a / 86400 < 2932897 <==> a < FIVE_DIGITS
  {
  }

  lemma LastSteppedDay()
    ensures Stepped(2932896) == Date(9999, 12, 31) && Stepped(2932897) == Date(10000, 1, 1)
  {
    LastFourDigitDay();
    CivilIsStepped(2932896);
    CivilIsStepped(2932897);
  }

  lemma {:induction false} SteppedYears(day: nat)
    ensures Stepped(day).year < 10000 <==> day < 2932897
  {
    LastSteppedDay();
    if day < 2932896 {
      LaterDayIsLaterDate(day, 2932896);
    } else if 2932897 < day {
      LaterDayIsLaterDate(2932897, day);
    }
  }

  /** The year has four digits exactly before that second. */
  lemma ShortYears(a: nat)
    ensures StampOf(a).date.year < 10000 <==> a < FIVE_DIGITS
  {
    DayOf(a);
    CivilIsStepped(a / 86400);
    SteppedYears(a / 86400);
  }

  predicate SortedByTime(a: nat, b: nat) {
    Less(UtcTimestamp(a), UtcTimestamp(b)) <==> a < b
  }

  lemma NamesSortWhileShort(a: nat, b: nat)
    requires a < FIVE_DIGITS && b < FIVE_DIGITS
    ensures SortedByTime(a, b)
  {
    ShortYears(a);
    ShortYears(b);
    LessIsTotal(UtcTimestamp(a), UtcTimestamp(b));
    if a < b {
      EarlierSortsFirst(a, b);
    } else if b < a {
      EarlierSortsFirst(b, a);
    }
  }

  /** All names given before `bound` sort by time exactly when no year before it has five digits. */
  lemma NamesSortByTime(bound: nat)
    ensures (forall a: nat, b: nat :: a < bound && b < bound ==> SortedByTime(a, b)) <==> bound <= FIVE_DIGITS
  {
    if bound <= FIVE_DIGITS {
      forall a: nat, b: nat | a < bound && b < bound ensures SortedByTime(a, b) {
        NamesSortWhileShort(a, b);
      }
    } else {
      FiveDigitYearsSortFirst();
      assert !SortedByTime(253402300800, 253402300799);
    }
  }

  // ---------------------------------------------------------------- reading a name

  function Value(digit: byte): Option<nat> {
    if 48 <= digit <= 57 then Some(digit as nat - 48) else None
  }

  /** The number a decimal text stands for. */
  function Number(text: Text): Option<nat> {
    if text == [] then None
    else
      var n := |text| - 1;
      var last, before := Value(text[n]), if n == 0 then Some(0) else Number(text[..n]);
      if last.None? || before.None? then None else Some(10 * before.value + last.value)
  }

  /** The second a date and a time stand for, if all their parts are there. */
  function Instant(
    y: Option<nat>, mo: Option<nat>, d: Option<nat>, h: Option<nat>, mi: Option<nat>, s: Option<nat>): Option<int>
  {
    if y.None? || mo.None? || d.None? || h.None? || mi.None? || s.None? then None
    else Some(86400 * DayCount(Date(y.value, mo.value, d.value)) + 3600 * h.value + 60 * mi.value + s.value)
  }

  function Reading(year: Text, month: Text, day: Text, hour: Text, minute: Text, second: Text): Option<int> {
    Instant(Number(year), Number(month), Number(day), Number(hour), Number(minute), Number(second))
  }

  /** The second a name stands for: year, month and day, a `T`, hour, minute and second, a `Z`. */
  function SecondsOf(name: Text): Option<int> {
    if |name| < 13 then None
    else
      var k := |name| - 12;
      if name[k + 4..k + 5] != LETTER_T || name[k + 11..] != LETTER_Z then None
      else
        Reading(name[..k], name[k..k + 2], name[k + 2..k + 4], name[k + 5..k + 7], name[k + 7..k + 9], name[k + 9..k + 11])
  }

  lemma {:induction false} PadReadsBack(n: nat, w: nat)
    ensures Number(Pad(n, w)) == Some(n)
    decreases n + w
  {
    if n < 10 && w <= 1 {
      assert Pad(n, w)[0] == Digit(n);
    } else {
      var w' := if w == 0 then 0 else w - 1;
      PadReadsBack(n / 10, w');
      assert Pad(n, w)[..|Pad(n / 10, w')|] == Pad(n / 10, w') && Pad(n / 10, w') != [];
    }
  }

  /** A text made of these parts has them in these places. */
  lemma Parts(y: Text, mo: Text, d: Text, h: Text, mi: Text, s: Text)
    requires |mo| == |d| == |h| == |mi| == |s| == 2
    ensures
      var name, k := y + (mo + (d + (LETTER_T + (h + (mi + (s + LETTER_Z)))))), |y|;
      && |name| == k + 12 && name[..k] == y && name[k..k + 2] == mo && name[k + 2..k + 4] == d
      && name[k + 4..k + 5] == LETTER_T && name[k + 5..k + 7] == h && name[k + 7..k + 9] == mi && name[k + 9..k + 11] == s
      && name[k + 11..] == LETTER_Z
  {
    var z := s + LETTER_Z;
    assert z[..2] == s && z[2..] == LETTER_Z;
    var name, k := y + (mo + (d + (LETTER_T + (h + (mi + z))))), |y|;
    assert name[k..k + 2] == mo && name[k + 2..k + 4] == d && name[k + 4..k + 5] == LETTER_T;
    assert name[k + 5..k + 7] == h && name[k + 7..k + 9] == mi && name[k + 9..] == z;
    assert name[k + 9..k + 11] == z[..2] && name[k + 11..] == z[2..];
  }

  lemma {:induction false} PadIsThere(n: nat, w: nat)
    ensures 0 < |Pad(n, w)| && w <= |Pad(n, w)|
    decreases n + w
  {
    if !(n < 10 && w <= 1) {
      PadIsThere(n / 10, if w == 0 then 0 else w - 1);
    }
  }

  lemma InDay(secs: nat)
    ensures
      var t := StampOf(secs);
      && t.hour < 24 && t.minute < 60 && t.second < 60
      && secs == 86400 * (secs / 86400) + 3600 * t.hour + 60 * t.minute + t.second
  {
    var a := secs % 86400;
    var h, m, s := a / 3600, a % 3600 / 60, a % 60;
    assert a % 3600 % 60 == s && a == 3600 * h + 60 * m + s;
  }

  lemma {:induction false} TwoDigits(n: nat)
    requires n < 100
    ensures |Pad(n, 2)| == 2 && Number(Pad(n, 2)) == Some(n)
  {
    Powers();
    PadLength(n, 2);
    PadReadsBack(n, 2);
  }

  lemma {:induction false} TextsRead(year: Text, month: Text, day: Text, hour: Text, minute: Text, second: Text)
    requires 0 < |year| && |month| == |day| == |hour| == |minute| == |second| == 2
    ensures SecondsOf(year + (month + (day + (LETTER_T + (hour + (minute + (second + LETTER_Z)))))))
         == Reading(year, month, day, hour, minute, second)
  {
    Parts(year, month, day, hour, minute, second);
  }

  lemma StampIsInstant(t: Stamp)
    ensures Instant(Some(t.date.year), Some(t.date.month), Some(t.date.day), Some(t.hour), Some(t.minute), Some(t.second))
         == Some(86400 * DayCount(t.date) + 3600 * t.hour + 60 * t.minute + t.second)
  {
    assert t.date == Date(t.date.year, t.date.month, t.date.day);
  }

  lemma {:induction false} StampIsText(t: Stamp, year: Text, month: Text, day: Text, hour: Text, minute: Text, second: Text)
    requires year == Pad(t.date.year, 4) && month == Pad(t.date.month, 2) && day == Pad(t.date.day, 2)
    requires hour == Pad(t.hour, 2) && minute == Pad(t.minute, 2) && second == Pad(t.second, 2)
    ensures StampText(t) == year + (month + (day + (LETTER_T + (hour + (minute + (second + LETTER_Z))))))
  {
  }

  lemma StampReadsBack(t: Stamp)
    requires t.date.month < 100 && t.date.day < 100 && t.hour < 100 && t.minute < 100 && t.second < 100
    ensures SecondsOf(StampText(t)) == Some(86400 * DayCount(t.date) + 3600 * t.hour + 60 * t.minute + t.second)
  {
    var year, month, day := Pad(t.date.year, 4), Pad(t.date.month, 2), Pad(t.date.day, 2);
    var hour, minute, second := Pad(t.hour, 2), Pad(t.minute, 2), Pad(t.second, 2);
    PadIsThere(t.date.year, 4);
    PadReadsBack(t.date.year, 4);
    TwoDigits(t.date.month);
    TwoDigits(t.date.day);
    TwoDigits(t.hour);
    TwoDigits(t.minute);
    TwoDigits(t.second);
    StampIsText(t, year, month, day, hour, minute, second);
    TextsRead(year, month, day, hour, minute, second);
    StampIsInstant(t);
  }

  lemma StampIsShort(secs: nat)
    ensures
      var t := StampOf(secs);
      && t.date.month < 100 && t.date.day < 100 && DayCount(t.date) == secs / 86400
  {
    CivilIsValid(secs / 86400);
    DayCountInverts(secs / 86400);
  }

  /** Every name reads back as the second it was given for, in any year. */
  lemma NameReadsBack(secs: nat)
    ensures SecondsOf(UtcTimestamp(secs)) == Some(secs)
  {
    InDay(secs);
    StampIsShort(secs);
    StampReadsBack(StampOf(secs));
  }
}
