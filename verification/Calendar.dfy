/**
  UTC calendar arithmetic of section 21.4.1 of ECMA-262 and the anchored monthly
  billing periods built on it (src/subscriptions/billing-period.ts).

  An instant is a whole number of milliseconds since 1970-01-01T00:00Z. A month is
  named by its index: twelve times the year plus the zero-based month.
*/
module Calendar {
  import opened Wrappers

  const MS_PER_DAY := 86_400_000
  const MAX_DAY := 100_000_000
  const MAX_TIME := 8_640_000_000_000_000

  type Instant = t: int | -MAX_TIME <= t <= MAX_TIME

  /** A JavaScript Date: None is the Invalid Date, whose time value is NaN. */
  type JsDate = Option<Instant>

  datatype Period = Period(startsAt: JsDate, endsAt: JsDate)

  datatype PeriodError = InvalidPeriodDate

  // ----- Days and months -----

  function DayFromYear(y: int): int {
    365 * (y - 1970) + (y - 1969) / 4 - (y - 1901) / 100 + (y - 1601) / 400
  }

  predicate IsLeap(y: int) {
    y % 4 == 0 && (y % 100 != 0 || y % 400 == 0)
  }

  function DaysBeforeMonth(month: int, leap: bool): int
    requires 0 <= month < 12
  {
    [0, 31, 59, 90, 120, 151, 181, 212, 243, 273, 304, 334][month] + if leap && month >= 2 then 1 else 0
  }

  /** Day number of the first day of the month with index k. */
  function MonthStart(k: int): int {
    DayFromYear(k / 12) + DaysBeforeMonth(k % 12, IsLeap(k / 12))
  }

  function DaysInMonth(k: int): int {
    MonthStart(k + 1) - MonthStart(k)
  }

  lemma QuarterStep(y: int)
    ensures (y - 1968) / 4 - (y - 1969) / 4 == if y % 4 == 0 then 1 else 0
  {
  }

  lemma CenturyStep(y: int)
    ensures (y - 1900) / 100 - (y - 1901) / 100 == if y % 100 == 0 then 1 else 0
  {
  }

  lemma CycleStep(y: int)
    ensures (y - 1600) / 400 - (y - 1601) / 400 == if y % 400 == 0 then 1 else 0
  {
  }

  lemma CenturyIsQuarter(y: int)
    ensures y % 100 == 0 ==> y % 4 == 0
    ensures y % 400 == 0 ==> y % 100 == 0
  {
  }

  lemma YearLength(y: int)
    ensures DayFromYear(y + 1) - DayFromYear(y) == if IsLeap(y) then 366 else 365
  {
    QuarterStep(y);
    CenturyStep(y);
    CycleStep(y);
    CenturyIsQuarter(y);
  }

  lemma MonthLength(k: int)
    ensures 28 <= DaysInMonth(k) <= 31
  {
    YearLength(k / 12);
    if k % 12 == 11 {
      assert (k + 1) / 12 == k / 12 + 1 && (k + 1) % 12 == 0;
    } else {
      assert (k + 1) / 12 == k / 12 && (k + 1) % 12 == k % 12 + 1;
    }
  }

  lemma {:induction false} MonthsAdvance(j: int, k: int)
    requires j <= k
    ensures MonthStart(j) + 28 * (k - j) <= MonthStart(k)
    decreases k - j
  {
    hide MonthStart;
    if j < k {
      MonthLength(j);
      MonthsAdvance(j + 1, k);
    }
  }

  /** January 1970. */
  const EPOCH := 1970 * 12

  /** The month that contains day d, searched upwards from month k for at most n months. */
  function SearchUp(d: int, k: int, n: nat): int
    decreases n
  {
    if n == 0 || d < MonthStart(k + 1) then k else SearchUp(d, k + 1, n - 1)
  }

  function SearchDown(d: int, k: int, n: nat): int
    decreases n
  {
    if n == 0 || MonthStart(k) <= d then k else SearchDown(d, k - 1, n - 1)
  }

  function MonthOfDay(d: int): int {
    if 0 <= d then SearchUp(d, EPOCH, d) else SearchDown(d, EPOCH - 1, -d)
  }

  lemma EpochStart()
    ensures MonthStart(EPOCH) == 0
  {
    assert DayFromYear(1970) == 0;
  }

  lemma {:induction false} SearchUpFinds(d: int, k: int, n: nat)
    requires MonthStart(k) <= d < MonthStart(k) + n + 1
    ensures var r := SearchUp(d, k, n); MonthStart(r) <= d < MonthStart(r + 1)
    decreases n
  {
    hide MonthStart;
    MonthLength(k);
    if n > 0 && MonthStart(k + 1) <= d {
      SearchUpFinds(d, k + 1, n - 1);
    }
  }

  lemma {:induction false} SearchDownFinds(d: int, k: int, n: nat)
    requires MonthStart(k + 1) - n - 1 <= d < MonthStart(k + 1)
    ensures var r := SearchDown(d, k, n); MonthStart(r) <= d < MonthStart(r + 1)
    decreases n
  {
    hide MonthStart;
    MonthLength(k);
    if n > 0 && d < MonthStart(k) {
      SearchDownFinds(d, k - 1, n - 1);
    }
  }

  /** Exactly one month contains a day, and MonthOfDay finds it. */
  lemma MonthOfDayExact(d: int, k: int)
    ensures MonthOfDay(d) == k <==> MonthStart(k) <= d < MonthStart(k + 1)
  {
    EpochStart();
    hide MonthStart;
    if 0 <= d { SearchUpFinds(d, EPOCH, d); } else { SearchDownFinds(d, EPOCH - 1, -d); }
    var r := MonthOfDay(d);
    if r < k {
      MonthsAdvance(r + 1, k);
    } else if k < r {
      MonthsAdvance(k + 1, r);
    }
  }

  // ----- Fields of an instant -----

  function Day(t: int): int { t / MS_PER_DAY }

  function TimeInDay(t: int): int { t % MS_PER_DAY }

  /** Twelve times getUTCFullYear() plus getUTCMonth(). */
  function MonthIndex(t: int): int { MonthOfDay(Day(t)) }

  /** getUTCDate(). */
  function DateOf(t: int): int { Day(t) - MonthStart(MonthIndex(t)) + 1 }

  function Hours(t: int): int { TimeInDay(t) / 3_600_000 }

  function Minutes(t: int): int { TimeInDay(t) / 60_000 % 60 }

  function Seconds(t: int): int { TimeInDay(t) / 1000 % 60 }

  function Milliseconds(t: int): int { TimeInDay(t) % 1000 }

  function MakeTime(h: int, m: int, s: int, ms: int): int {
    h * 3_600_000 + m * 60_000 + s * 1000 + ms
  }

  lemma FieldsRebuildTime(t: int)
    ensures MakeTime(Hours(t), Minutes(t), Seconds(t), Milliseconds(t)) == TimeInDay(t)
    ensures Seconds(t) == t / 1000 % 60 && Milliseconds(t) == t % 1000
  {
    var x, q := TimeInDay(t), Day(t);
    assert t == MS_PER_DAY * q + x;
    SplitClock(x);
    hide Day, TimeInDay;
    SplitThousand(86_400 * q + x / 1000, x % 1000);
    SplitSixty(1440 * q + x / 60_000, x / 1000 % 60);
  }

  lemma SplitThousand(q: int, r: int)
    requires 0 <= r < 1000
    ensures (1000 * q + r) / 1000 == q && (1000 * q + r) % 1000 == r
  {
  }

  lemma SplitSixty(q: int, r: int)
    requires 0 <= r < 60
    ensures (60 * q + r) / 60 == q && (60 * q + r) % 60 == r
  {
  }

  lemma SplitClock(x: int)
    requires 0 <= x
    ensures x == 1000 * (x / 1000) + x % 1000
    ensures x / 1000 == 60 * (x / 60_000) + x / 1000 % 60
    ensures x / 60_000 == 60 * (x / 3_600_000) + x / 60_000 % 60
  {
    assert x / 1000 / 60 == x / 60_000;
    assert x / 60_000 / 60 == x / 3_600_000;
  }

  // ----- JavaScript semantics -----

  /** The remainder operator of ECMA-262 truncates towards zero. */
  function JsRemainder(a: int, b: int): int
    requires b > 0
  {
    if a >= 0 then a % b else -((-a) % b)
  }

  /** Date.UTC reads the years 0 to 99 as 1900 to 1999. */
  function FullYear(year: int): int {
    if 0 <= year <= 99 then 1900 + year else year
  }

  function TimeClip(t: int): JsDate {
    if -MAX_TIME <= t <= MAX_TIME then Some(t) else None
  }

  function DateUtc(year: int, month: int, date: int, time: int): JsDate {
    TimeClip((MonthStart(FullYear(year) * 12 + month) + date - 1) * MS_PER_DAY + time)
  }

  function Min(a: int, b: int): int { if a <= b then a else b }

  /** The closure `boundary` of billingPeriod, with its own operators. */
  function Boundary(activatedAt: Instant, index: int): JsDate {
    var year := index / 12;
    var monthOfYear := JsRemainder(index, 12);
    var last := DateUtc(year, monthOfYear + 1, 0, 0);
    if last.None? then None
    else
      DateUtc(year, monthOfYear, Min(DateOf(activatedAt), DateOf(last.value)),
              MakeTime(Hours(activatedAt), Minutes(activatedAt), Seconds(activatedAt), Milliseconds(activatedAt)))
  }

  function BillingPeriod(activatedAt: JsDate, at: JsDate): Result<Period, PeriodError> {
    if activatedAt.None? || at.None? || at.value < activatedAt.value then Err(InvalidPeriodDate)
    else
      var anchorMonth := MonthIndex(activatedAt.value);
      var current := MonthIndex(at.value);
      var first := Boundary(activatedAt.value, current);
      var month := if first.Some? && first.value > at.value then current - 1 else current;
      if month < anchorMonth then Err(InvalidPeriodDate)
      else Ok(Period(Boundary(activatedAt.value, month), Boundary(activatedAt.value, month + 1)))
  }

  // ----- The intended periods -----

  /** The anniversary of the activation in month k, on the last day of a month that is too short. */
  function Anniversary(activatedAt: int, k: int): int {
    (MonthStart(k) + Min(DateOf(activatedAt), DaysInMonth(k)) - 1) * MS_PER_DAY + TimeInDay(activatedAt)
  }

  /** The month whose anniversary opens the period that contains `at`. */
  function PeriodMonth(activatedAt: int, at: int): int {
    var current := MonthIndex(at);
    if Anniversary(activatedAt, current) > at then current - 1 else current
  }

  function IntendedPeriod(activatedAt: int, at: int): (p: (int, int)) {
    var k := PeriodMonth(activatedAt, at);
    (Anniversary(activatedAt, k), Anniversary(activatedAt, k + 1))
  }

  lemma SplitDay(d: int, x: int)
    requires 0 <= x < MS_PER_DAY
    ensures Day(d * MS_PER_DAY + x) == d && TimeInDay(d * MS_PER_DAY + x) == x
  {
  }

  lemma AnniversaryInMonth(activatedAt: int, k: int)
    ensures MonthStart(k) * MS_PER_DAY <= Anniversary(activatedAt, k) < MonthStart(k + 1) * MS_PER_DAY
    ensures MonthIndex(Anniversary(activatedAt, k)) == k
    ensures DateOf(Anniversary(activatedAt, k)) == Min(DateOf(activatedAt), DaysInMonth(k))
    ensures TimeInDay(Anniversary(activatedAt, k)) == TimeInDay(activatedAt)
  {
    hide MonthStart, MonthOfDay;
    MonthLength(k);
    DateInMonth(activatedAt);
    var d := MonthStart(k) + Min(DateOf(activatedAt), DaysInMonth(k)) - 1;
    SplitDay(d, TimeInDay(activatedAt));
    hide Day, TimeInDay;
    MonthOfDayExact(d, k);
  }

  lemma DateInMonth(t: int)
    ensures 1 <= DateOf(t) <= DaysInMonth(MonthIndex(t))
  {
    hide MonthStart, MonthOfDay;
    MonthOfDayExact(Day(t), MonthIndex(t));
  }

  /** Periods tile time: anniversaries strictly increase with the month. */
  lemma AnniversariesIncrease(activatedAt: int, j: int, k: int)
    requires j < k
    ensures Anniversary(activatedAt, j) < Anniversary(activatedAt, k)
  {
    hide MonthStart, MonthOfDay, Day, TimeInDay, Anniversary;
    AnniversaryInMonth(activatedAt, j);
    AnniversaryInMonth(activatedAt, k);
    MonthsAdvance(j + 1, k);
  }

  /** The activation opens the period of its own month: anniversaries never drift from it. */
  lemma ActivationIsAnniversary(activatedAt: int)
    ensures Anniversary(activatedAt, MonthIndex(activatedAt)) == activatedAt
  {
    hide MonthStart, MonthOfDay;
    DateInMonth(activatedAt);
  }

  /** The period that contains an instant, and no other, satisfies startsAt <= at < endsAt. */
  lemma PeriodContains(activatedAt: int, at: int, k: int)
    ensures PeriodMonth(activatedAt, at) == k <==> Anniversary(activatedAt, k) <= at < Anniversary(activatedAt, k + 1)
  {
    hide MonthStart, MonthOfDay, Anniversary;
    var current := MonthIndex(at);
    var m := PeriodMonth(activatedAt, at);
    MonthOfDayExact(Day(at), current);
    AnniversaryInMonth(activatedAt, current - 1);
    AnniversaryInMonth(activatedAt, current + 1);
    assert MonthStart(current) * MS_PER_DAY <= at < MonthStart(current + 1) * MS_PER_DAY;
    hide Day, TimeInDay;
    if k + 1 < m {
      AnniversariesIncrease(activatedAt, k + 1, m);
    } else if m + 1 < k {
      AnniversariesIncrease(activatedAt, m + 1, k);
    }
  }

  lemma PeriodAtLeast28Days(activatedAt: int, k: int)
    ensures Anniversary(activatedAt, k + 1) - Anniversary(activatedAt, k) >= 28 * MS_PER_DAY
  {
    hide MonthStart, MonthOfDay, TimeInDay, Day;
    MonthLength(k);
    MonthLength(k + 1);
    DateInMonth(activatedAt);
  }

  // ----- What the code computes -----

  /** The month index Date.UTC is really asked for. */
  function EffectiveMonth(index: int): int {
    FullYear(index / 12) * 12 + JsRemainder(index, 12)
  }

  /** September 275760, the month in which the range of a Date ends. */
  const LAST_MONTH := 275_760 * 12 + 8

  lemma LastMonthStart()
    ensures MonthStart(LAST_MONTH) == MAX_DAY - 12 && MonthStart(LAST_MONTH + 1) == MAX_DAY + 18
  {
    assert DayFromYear(275_760) == MAX_DAY - 256 && IsLeap(275_760);
  }

  lemma EarlyYears()
    ensures -MAX_DAY <= MonthStart(600) && -MAX_DAY <= MonthStart(1200)
  {
    assert DayFromYear(50) == -701_265;
    assert DayFromYear(100) == -683_003;
  }

  lemma LastDayOfMonth(k: int)
    ensures DateOf((MonthStart(k + 1) - 1) * MS_PER_DAY) == DaysInMonth(k)
  {
    hide MonthStart, MonthOfDay;
    MonthLength(k);
    SplitDay(MonthStart(k + 1) - 1, 0);
    MonthOfDayExact(MonthStart(k + 1) - 1, k);
  }

  /** The anniversary of the effective month, unless its last day lies outside the range of a Date. */
  lemma BoundaryIsAnniversary(activatedAt: Instant, index: int)
    ensures var k := EffectiveMonth(index);
            Boundary(activatedAt, index) ==
            if TimeClip((MonthStart(k + 1) - 1) * MS_PER_DAY).None? then None else TimeClip(Anniversary(activatedAt, k))
  {
    hide MonthStart, MonthOfDay, TimeInDay, Day;
    var k := EffectiveMonth(index);
    LastDayOfMonth(k);
    FieldsRebuildTime(activatedAt);
    assert FullYear(index / 12) * 12 + (JsRemainder(index, 12) + 1) == k + 1;
  }

  lemma BoundaryInRange(activatedAt: Instant, index: int)
    requires 1200 <= index
    ensures Boundary(activatedAt, index) ==
            if index < LAST_MONTH then Some(Anniversary(activatedAt, index)) else None
  {
    LastMonthStart();
    EarlyYears();
    hide MonthStart, MonthOfDay, TimeInDay, Day, Anniversary, Boundary;
    EffectiveMonthFixed(index);
    BoundaryIsAnniversary(activatedAt, index);
    AnniversaryInMonth(activatedAt, index);
    MonthLength(index);
    MonthsAdvance(1200, index);
    if index < LAST_MONTH {
      MonthsAdvance(index + 1, LAST_MONTH);
    } else {
      MonthsAdvance(LAST_MONTH + 1, index + 1);
    }
  }

  lemma EffectiveMonthFixed(index: int)
    ensures EffectiveMonth(index) - index in {-1, 0, 1} ==> EffectiveMonth(index) == index
    ensures EffectiveMonth(index) == index <==> index >= 1200 || (index < 0 && index % 12 == 0)
  {
    if index < 0 {
      assert (-index) % 12 == if index % 12 == 0 then 0 else 12 - index % 12;
    }
  }

  predicate ReturnsIntended(activatedAt: Instant, at: Instant) {
    var p := IntendedPeriod(activatedAt, at);
    match BillingPeriod(Some(activatedAt), Some(at))
    case Ok(Period(Some(s), Some(e))) => s == p.0 && e == p.1
    case _ => false
  }

  /**
    billingPeriod returns the period that contains `at` exactly when that period opens in
    the year 100 or later and closes before September 275760; in every other case it throws
    or returns another period.
  */
  lemma BillingPeriodExact(activatedAt: Instant, at: Instant)
    requires activatedAt <= at
    ensures ReturnsIntended(activatedAt, at) <==> 1200 <= PeriodMonth(activatedAt, at) < LAST_MONTH - 1
  {
    hide MonthStart, MonthOfDay, TimeInDay, Day, Anniversary, Boundary;
    if 1200 <= PeriodMonth(activatedAt, at) < LAST_MONTH - 1 {
      BillingPeriodIntended(activatedAt, at);
    } else {
      BillingPeriodOtherwise(activatedAt, at);
    }
  }

  /** A company activated on 1 January of the year 50 is refused its own first period. */
  lemma YearFiftyIsRefused()
    ensures var t := MonthStart(50 * 12) * MS_PER_DAY;
            -MAX_TIME <= t <= MAX_TIME && BillingPeriod(Some(t), Some(t)) == Err(InvalidPeriodDate)
  {
    var k := 50 * 12;
    var t := MonthStart(k) * MS_PER_DAY;
    LastMonthStart();
    EarlyYears();
    hide MonthStart, MonthOfDay, TimeInDay, Day, Anniversary, Boundary;
    MonthLength(k);
    MonthsAdvance(k, LAST_MONTH);
    MonthsAdvance(k, k + 22_800);
    SplitDay(MonthStart(k), 0);
    MonthOfDayExact(MonthStart(k), k);
    BoundaryIsAnniversary(t, k);
    AnniversaryInMonth(t, k + 22_800);
    MonthLength(k + 22_800);
    MonthsAdvance(k + 22_801, LAST_MONTH);
  }


  lemma NoEarlierThanAnchor(activatedAt: int, at: int)
    requires activatedAt <= at
    ensures MonthIndex(activatedAt) <= PeriodMonth(activatedAt, at)
  {
    hide MonthStart, MonthOfDay, TimeInDay, Day, Anniversary;
    var m := PeriodMonth(activatedAt, at);
    var a := MonthIndex(activatedAt);
    ActivationIsAnniversary(activatedAt);
    PeriodContains(activatedAt, at, m);
    if m + 1 < a {
      AnniversariesIncrease(activatedAt, m + 1, a);
    }
  }

  lemma BillingPeriodIntended(activatedAt: Instant, at: Instant)
    requires activatedAt <= at
    ensures var p := IntendedPeriod(activatedAt, at);
            1200 <= PeriodMonth(activatedAt, at) < LAST_MONTH - 1 ==>
              -MAX_TIME <= p.0 <= at < p.1 <= MAX_TIME &&
              BillingPeriod(Some(activatedAt), Some(at)) == Ok(Period(Some(p.0), Some(p.1)))
  {
    hide MonthStart, MonthOfDay, TimeInDay, Day, Anniversary, Boundary;
    var m := PeriodMonth(activatedAt, at);
    PeriodContains(activatedAt, at, m);
    NoEarlierThanAnchor(activatedAt, at);
    if 1200 <= m {
      BoundaryInRange(activatedAt, m);
      BoundaryInRange(activatedAt, m + 1);
      BoundaryInRange(activatedAt, m + 2);
    }
  }

  lemma BillingPeriodOtherwise(activatedAt: Instant, at: Instant)
    requires activatedAt <= at
    requires !(1200 <= PeriodMonth(activatedAt, at) < LAST_MONTH - 1)
    ensures !ReturnsIntended(activatedAt, at)
  {
    hide MonthStart, MonthOfDay, TimeInDay, Day, Anniversary, Boundary, MonthIndex;
    var m := PeriodMonth(activatedAt, at);
    var current := MonthIndex(at);
    var first := Boundary(activatedAt, current);
    var month := if first.Some? && first.value > at then current - 1 else current;
    if ReturnsIntended(activatedAt, at) {
      BoundariesPin(activatedAt, month, m);
    }
  }

  /** Both ends of a returned period are the intended ones only for a month Date.UTC reads as written. */
  lemma BoundariesPin(activatedAt: Instant, month: int, m: int)
    requires month - m in {-1, 0, 1}
    requires Boundary(activatedAt, month).Some? && Boundary(activatedAt, month + 1).Some?
    requires Boundary(activatedAt, month).value == Anniversary(activatedAt, m)
    requires Boundary(activatedAt, month + 1).value == Anniversary(activatedAt, m + 1)
    ensures 1200 <= m < LAST_MONTH - 1
  {
    hide MonthStart, Anniversary, Boundary;
    BoundaryIsAnniversary(activatedAt, month);
    BoundaryIsAnniversary(activatedAt, month + 1);
    SameAnniversary(activatedAt, EffectiveMonth(month), m);
    SameAnniversary(activatedAt, EffectiveMonth(month + 1), m + 1);
    EffectiveMonthFixed(month);
    EffectiveMonthFixed(month + 1);
    BoundaryInRange(activatedAt, m + 1);
  }

  lemma SameAnniversary(activatedAt: int, j: int, k: int)
    requires Anniversary(activatedAt, j) == Anniversary(activatedAt, k)
    ensures j == k
  {
    hide Anniversary;
    if j < k {
      AnniversariesIncrease(activatedAt, j, k);
    } else if k < j {
      AnniversariesIncrease(activatedAt, k, j);
    }
  }

  /** Every instant of a period yields that same period, and its end opens the next one. */
  lemma PeriodsTile(activatedAt: int, at: int, other: int)
    ensures var p := IntendedPeriod(activatedAt, at);
            (p.0 <= other < p.1 <==> IntendedPeriod(activatedAt, other) == p) &&
            IntendedPeriod(activatedAt, p.1).0 == p.1
  {
    hide MonthStart, MonthOfDay, TimeInDay, Day, Anniversary, PeriodMonth;
    var k := PeriodMonth(activatedAt, at);
    PeriodContains(activatedAt, other, k);
    if IntendedPeriod(activatedAt, other) == IntendedPeriod(activatedAt, at) {
      SameAnniversary(activatedAt, PeriodMonth(activatedAt, other), k);
    }
    AnniversariesIncrease(activatedAt, k + 1, k + 2);
    PeriodContains(activatedAt, Anniversary(activatedAt, k + 1), k + 1);
  }

  // ----- Agreement with the provider's billing periods -----

  /** The item check of validateRemote; `start` and `end` are in seconds. */
  predicate RemotePeriodMatches(activatedAt: Instant, start: int, end: int) {
    match BillingPeriod(Some(activatedAt), TimeClip(start * 1000 + 1000))
    case Ok(Period(_, Some(e))) => end == e / 1000
    case _ => false
  }

  /** A period truncated to whole seconds passes the check, and no other end does. */
  lemma TruncatedPeriodMatches(activatedAt: Instant, k: int, end: int)
    requires MonthIndex(activatedAt) <= k && 1200 <= k < LAST_MONTH - 1
    ensures RemotePeriodMatches(activatedAt, Anniversary(activatedAt, k) / 1000, end)
            <==> end == Anniversary(activatedAt, k + 1) / 1000
  {
    hide MonthStart, MonthOfDay, TimeInDay, Day, Anniversary, Boundary, MonthIndex, PeriodMonth;
    var start := Anniversary(activatedAt, k);
    var probe := start / 1000 * 1000 + 1000;
    PeriodAtLeast28Days(activatedAt, k);
    PeriodContains(activatedAt, probe, k);
    ActivationIsAnniversary(activatedAt);
    if MonthIndex(activatedAt) < k {
      AnniversariesIncrease(activatedAt, MonthIndex(activatedAt), k);
    }
    BoundaryInRange(activatedAt, k + 1);
    BillingPeriodIntended(activatedAt, probe);
  }
}
