/**
  The cycle engine of CycleCalendarView.swift: the recorded period, the
  twelve projected future periods, the phase of any date, and the
  proximity queries the dashboard asks.

  Dates are whole day numbers: "same day" is equality and the number of days
  between two dates is their difference. "Today" is always a parameter.
 */
module CycleCalendar {
  import opened Wrappers
  import opened Defaults

  datatype PhaseColor = Red | Purple | Blue | Yellow | Black

  datatype CyclePhase = Menstruating | Follicular | Ovulatory | Luteal {
    function RawValue(): string {
      match this
      case Menstruating => "MENSTRUATING"
      case Follicular => "FOLLICULAR"
      case Ovulatory => "OVULATORY"
      case Luteal => "LUTEAL"
    }

    function Color(): PhaseColor {
      match this
      case Menstruating => Red
      case Follicular => Purple
      case Ovulatory => Blue
      case Luteal => Yellow
    }
  }

  /** An inclusive range of days. */
  datatype PeriodRange = PeriodRange(start: int, end: int)

  const DaysInCycle := 28
  const FollicularLength := 13
  const OvulatoryLength := 1
  const LutealLength := 14
  const DefaultPeriodLength := 5
  const FuturePeriodCount := 12
  const StartDateKey := "cycleStartDate"
  const EndDateKey := "periodEndDate"

  /** An hour of the day, as `Calendar` reports it. */
  type Hour = h: int | 0 <= h < 24

  // ---------------------------------------------------------------------
  // Integer arithmetic of the source
  // ---------------------------------------------------------------------

  /**
    Swift's `%` on Int: it truncates toward zero, so the remainder has the
    sign of the dividend. It is the floored remainder `a % n`, or that minus
    `n`; together the postconditions determine it.
   */
  function SwiftRemainder(a: int, n: int): (r: int)
    requires n > 0
    ensures a >= 0 ==> 0 <= r < n
    ensures a < 0 ==> -n < r <= 0
    ensures r == a % n || r == a % n - n
  {
    if a >= 0 then a % n else (TruncatedRemainderOfNegative(a, n); -((-a) % n))
  }

  lemma TruncatedRemainderOfNegative(a: int, n: int)
    requires n > 0 && a < 0
    ensures -((-a) % n) == a % n || -((-a) % n) == a % n - n
  {
    var m, q := (-a) % n, (-a) / n;
    assert -a == n * q + m;
    if m == 0 {
      RemainderUnique(a, n, -q, 0);
    } else {
      assert a == n * (-q - 1) + (n - m);
      RemainderUnique(a, n, -q - 1, n - m);
    }
  }

  /** The floored remainder is the only remainder in [0, n). */
  lemma RemainderUnique(a: int, n: int, k: int, r: int)
    requires n > 0 && 0 <= r < n && a == n * k + r
    ensures a % n == r
  {
    var t, p := a / n, a % n;
    assert a == n * t + p;
    var d := k - t;
    assert n * d == p - r;
  }

  /**
    The offset into the 28-day cycle, computed with Swift's remainder as the
    source writes it. It is the floored (Euclidean) remainder, also for days
    before the recorded start.
   */
  function NormalizedDay(daysSinceStart: int): (d: int)
    ensures 0 <= d < DaysInCycle
    ensures d == daysSinceStart % DaysInCycle
  {
    SwiftRemainder(SwiftRemainder(daysSinceStart, DaysInCycle) + DaysInCycle, DaysInCycle)
  }

  /**
    Reference definition of the non-menstrual phases: days 0..12 of the
    cycle are follicular, day 13 ovulatory, days 14..27 luteal.
   */
  function CycleDayPhase(day: int): CyclePhase
    requires 0 <= day < DaysInCycle
  {
    if day <= 12 then Follicular else if day == 13 then Ovulatory else Luteal
  }

  /**
    The segment tests of `getPhaseFor` on a normalized day. Its final `nil`
    answers only days outside [0, 28), which `NormalizedDay` never produces.
   */
  function PhaseOfNormalizedDay(normalizedDay: int): (r: Option<CyclePhase>)
    ensures 0 <= normalizedDay < DaysInCycle ==> r == Some(CycleDayPhase(normalizedDay))
    ensures r.None? <==> normalizedDay >= DaysInCycle
  {
    if normalizedDay < FollicularLength then Some(Follicular)
    else if normalizedDay < FollicularLength + OvulatoryLength then Some(Ovulatory)
    else if normalizedDay < FollicularLength + OvulatoryLength + LutealLength then Some(Luteal)
    else None
  }

  // ---------------------------------------------------------------------
  // Ranges
  // ---------------------------------------------------------------------

  /**
    The containment test of `isDateInPeriod`: a range whose start is after its
    end is skipped; otherwise the same day as either end, or any day in
    between, is in the range.
   */
  function RangeContains(r: PeriodRange, date: int): (b: bool)
    ensures b <==> r.start <= date <= r.end
  {
    r.start <= r.end && (date == r.start || date == r.end || (r.start <= date && date <= r.end))
  }

  /** The scan over the future ranges, with early return on the first match. */
  function AnyRangeContains(ranges: seq<PeriodRange>, date: int): (b: bool)
    ensures b <==> exists i :: 0 <= i < |ranges| && ranges[i].start <= date <= ranges[i].end
  {
    if ranges == [] then false
    else if RangeContains(ranges[0], date) then true
    else
      var rest := AnyRangeContains(ranges[1..], date);
      assert forall i :: 1 <= i < |ranges| ==> ranges[i] == ranges[1..][i - 1];
      rest
  }

  /** `futurePeriodRanges.contains { isDate($0.start, inSameDayAs: date) }`. */
  function AnyRangeStartsOn(ranges: seq<PeriodRange>, date: int): (b: bool)
    ensures b <==> exists i :: 0 <= i < |ranges| && ranges[i].start == date
  {
    if ranges == [] then false
    else if ranges[0].start == date then true
    else
      var rest := AnyRangeStartsOn(ranges[1..], date);
      assert forall i :: 1 <= i < |ranges| ==> ranges[i] == ranges[1..][i - 1];
      rest
  }

  /** The loop of `isWithinDaysAfterPeriodStart` over the future ranges. */
  function AnyRangeStartedWithin(ranges: seq<PeriodRange>, today: int, days: int): (b: bool)
    ensures b <==> exists i :: 0 <= i < |ranges| && 0 <= today - ranges[i].start < days
  {
    if ranges == [] then false
    else
      var daysSinceFuturePeriod := today - ranges[0].start;
      if daysSinceFuturePeriod >= 0 && daysSinceFuturePeriod < days then true
      else
        var rest := AnyRangeStartedWithin(ranges[1..], today, days);
        assert forall i :: 1 <= i < |ranges| ==> ranges[i] == ranges[1..][i - 1];
        rest
  }

  /** The loop of `isFuturePeriodDate`, which builds `start...end` without checking it. */
  function AnyClosedRangeContains(ranges: seq<PeriodRange>, date: int): (b: bool)
    requires forall i :: 0 <= i < |ranges| ==> ranges[i].start <= ranges[i].end
    ensures b == AnyRangeContains(ranges, date)
  {
    if ranges == [] then false
    else if ranges[0].start <= date <= ranges[0].end then true
    else
      var rest := AnyClosedRangeContains(ranges[1..], date);
      assert forall i :: 1 <= i < |ranges| ==> ranges[i] == ranges[1..][i - 1];
      rest
  }

  /**
    The twelve predicted periods: cycle i (1..12) starts 28*i days after the
    recorded start and ends `periodLength - 1` days later.
   */
  function ProjectedRanges(start: int, periodLength: int): (rs: seq<PeriodRange>)
  {
    seq(FuturePeriodCount, i requires 0 <= i < FuturePeriodCount =>
      PeriodRange(start + DaysInCycle * (i + 1), start + DaysInCycle * (i + 1) + periodLength - 1))
  }

  /** The first cycle start (the recorded start plus a whole number of cycles) after `today`. */
  function NextPeriodStart(start: int, today: int): (n: int)
  {
    if start > today then start else start + DaysInCycle * ((today - start) / DaysInCycle + 1)
  }

  // ---------------------------------------------------------------------
  // Month grid
  // ---------------------------------------------------------------------

  /** Weekday 1..7 of a day number; `weekdayOffset` fixes the calendar's alignment. */
  function Weekday(day: int, weekdayOffset: int): (w: int)
    ensures 1 <= w <= 7
    ensures (day + weekdayOffset - (w - 1)) % 7 == 0
  {
    (day + weekdayOffset) % 7 + 1
  }

  /** `startDate` of `datesInMonth`: back from the 1st to the week's first day. */
  function GridFirstDay(monthStart: int, weekdayOffset: int, firstWeekday: int): (d: int)
    requires 1 <= firstWeekday <= 7
    ensures monthStart - 6 <= d <= monthStart
    ensures Weekday(d, weekdayOffset) == firstWeekday
  {
    var w := Weekday(monthStart, weekdayOffset);
    var q := (monthStart + weekdayOffset) / 7;
    assert monthStart + weekdayOffset == 7 * q + (w - 1);
    RemainderOfSmall(w - firstWeekday + 7);
    var d := monthStart - SwiftRemainder(w - firstWeekday + 7, 7);
    RemainderUnique(d + weekdayOffset, 7, if w - firstWeekday + 7 < 7 then q - 1 else q, firstWeekday - 1);
    d
  }

  /** `endDate` of `datesInMonth`: forward from `last` to the day before the week's first day. */
  function GridLastDay(last: int, weekdayOffset: int, firstWeekday: int): (e: int)
    requires 1 <= firstWeekday <= 7
    ensures last <= e <= last + 6
    ensures Weekday(e + 1, weekdayOffset) == firstWeekday
  {
    var w := Weekday(last, weekdayOffset);
    var q := (last + weekdayOffset) / 7;
    assert last + weekdayOffset == 7 * q + (w - 1);
    RemainderOfSmall(7 - w + firstWeekday - 1);
    var e := last + SwiftRemainder(7 - w + firstWeekday - 1, 7);
    RemainderUnique(e + 1 + weekdayOffset, 7, if 7 - w + firstWeekday - 1 < 7 then q + 1 else q, firstWeekday - 1);
    e
  }

  /** The cells from `first` to `last`, each flagged with whether it lies in [monthStart, monthEnd). */
  function GridCells(first: int, last: int, monthStart: int, monthEnd: int): (cells: seq<(int, bool)>)
    requires first <= last + 1
  {
    seq(last - first + 1, i requires 0 <= i <= last - first =>
      (first + i, monthStart <= first + i && first + i < monthEnd))
  }

  /**
    The grid as `datesInMonth` evidently intends it: running to the week end
    after the LAST day of the month (`monthEnd - 1`) rather than after the 1st
    of the next month.
   */
  function IntendedDatesInMonth(monthStart: int, monthEnd: int, weekdayOffset: int, firstWeekday: int)
    : seq<(int, bool)>
    requires monthStart < monthEnd
    requires 1 <= firstWeekday <= 7
  {
    var first := GridFirstDay(monthStart, weekdayOffset, firstWeekday);
    var last := GridLastDay(monthEnd - 1, weekdayOffset, firstWeekday);
    GridShape(monthStart, monthEnd - 1, weekdayOffset, firstWeekday);
    GridCells(first, last, monthStart, monthEnd)
  }

  /**
    The corrected grid: whole weeks from the first weekday on or before the
    1st, through the week holding the month's last day, consecutive days with
    exact month flags, and every row of seven showing a day of the month.
   */
  lemma IntendedGridFacts(monthStart: int, monthEnd: int, weekdayOffset: int, firstWeekday: int)
    requires monthStart < monthEnd
    requires 1 <= firstWeekday <= 7
    ensures var cells := IntendedDatesInMonth(monthStart, monthEnd, weekdayOffset, firstWeekday);
      && |cells| % 7 == 0 && |cells| > 0
      && Weekday(cells[0].0, weekdayOffset) == firstWeekday
      && monthStart - 6 <= cells[0].0 <= monthStart
      && monthEnd - 1 <= cells[|cells| - 1].0 <= monthEnd + 5
      && (forall i :: 0 <= i < |cells| ==> cells[i].0 == cells[0].0 + i)
      && (forall i :: 0 <= i < |cells| ==> (cells[i].1 <==> monthStart <= cells[i].0 < monthEnd))
      && (forall i :: 0 <= i < |cells| && i % 7 == 0 ==>
            monthStart <= cells[i].0 + 6 && cells[i].0 < monthEnd)
  {
    GridShape(monthStart, monthEnd - 1, weekdayOffset, firstWeekday);
    var cells := IntendedDatesInMonth(monthStart, monthEnd, weekdayOffset, firstWeekday);
    forall i | 0 <= i < |cells| && i % 7 == 0
      ensures monthStart <= cells[i].0 + 6 && cells[i].0 < monthEnd
    {
      RowStartFits(i, |cells|);
    }
  }

  /**
    The grid `datesInMonth` builds as written: its end date is computed from
    `monthInterval.end`, which is the 1st of the next month.
   */
  function DatesInMonthAsWritten(monthStart: int, monthEnd: int, weekdayOffset: int, firstWeekday: int)
    : seq<(int, bool)>
    requires monthStart < monthEnd
    requires 1 <= firstWeekday <= 7
  {
    var first := GridFirstDay(monthStart, weekdayOffset, firstWeekday);
    var last := GridLastDay(monthEnd, weekdayOffset, firstWeekday);
    GridShape(monthStart, monthEnd, weekdayOffset, firstWeekday);
    GridCells(first, last, monthStart, monthEnd)
  }

  /**
    The written grid: whole weeks from the first weekday on or before the 1st,
    always running through the 1st of the next month.
   */
  lemma WrittenGridFacts(monthStart: int, monthEnd: int, weekdayOffset: int, firstWeekday: int)
    requires monthStart < monthEnd
    requires 1 <= firstWeekday <= 7
    ensures var cells := DatesInMonthAsWritten(monthStart, monthEnd, weekdayOffset, firstWeekday);
      && |cells| % 7 == 0 && |cells| > 0
      && Weekday(cells[0].0, weekdayOffset) == firstWeekday
      && monthStart - 6 <= cells[0].0 <= monthStart
      && monthEnd <= cells[|cells| - 1].0 <= monthEnd + 6
      && (forall i :: 0 <= i < |cells| ==> cells[i].0 == cells[0].0 + i)
      && (forall i :: 0 <= i < |cells| ==> (cells[i].1 <==> monthStart <= cells[i].0 < monthEnd))
  {
    GridShape(monthStart, monthEnd, weekdayOffset, firstWeekday);
  }

  /**
    How far the written grid differs from the intended one: not at all unless
    the next month starts on `firstWeekday`, and then by one whole trailing
    week in which no day belongs to the month.
   */
  lemma {:induction false} WrittenGridExtraWeek(monthStart: int, monthEnd: int, weekdayOffset: int, firstWeekday: int)
    requires monthStart < monthEnd
    requires 1 <= firstWeekday <= 7
    ensures Weekday(monthEnd, weekdayOffset) != firstWeekday ==>
      DatesInMonthAsWritten(monthStart, monthEnd, weekdayOffset, firstWeekday)
      == IntendedDatesInMonth(monthStart, monthEnd, weekdayOffset, firstWeekday)
    ensures Weekday(monthEnd, weekdayOffset) == firstWeekday ==>
      var written := DatesInMonthAsWritten(monthStart, monthEnd, weekdayOffset, firstWeekday);
      var intended := IntendedDatesInMonth(monthStart, monthEnd, weekdayOffset, firstWeekday);
      && |written| == |intended| + 7
      && written[..|intended|] == intended
      && forall i :: |intended| <= i < |written| ==> !written[i].1
  {
    GridEnds(monthEnd, weekdayOffset, firstWeekday);
    GridShape(monthStart, monthEnd - 1, weekdayOffset, firstWeekday);
  }

  /** Where the two end dates fall: apart by a week exactly when the next month starts on `firstWeekday`. */
  lemma GridEnds(monthEnd: int, weekdayOffset: int, firstWeekday: int)
    requires 1 <= firstWeekday <= 7
    ensures Weekday(monthEnd, weekdayOffset) != firstWeekday ==>
      GridLastDay(monthEnd, weekdayOffset, firstWeekday) == GridLastDay(monthEnd - 1, weekdayOffset, firstWeekday)
    ensures Weekday(monthEnd, weekdayOffset) == firstWeekday ==>
      && GridLastDay(monthEnd, weekdayOffset, firstWeekday) == monthEnd + 6
      && GridLastDay(monthEnd - 1, weekdayOffset, firstWeekday) == monthEnd - 1
  {
    var last := monthEnd - 1;
    var w2 := Weekday(last, weekdayOffset);
    var w3 := Weekday(monthEnd, weekdayOffset);
    var q := (last + weekdayOffset) / 7;
    assert last + weekdayOffset == 7 * q + (w2 - 1);
    if w2 < 7 {
      RemainderUnique(monthEnd + weekdayOffset, 7, q, w2);
    } else {
      RemainderUnique(monthEnd + weekdayOffset, 7, q + 1, 0);
    }
    RemainderOfSmall(6 - w3 + firstWeekday);
    RemainderOfSmall(6 - w2 + firstWeekday);
  }

  /**
    A 28-day month that starts on the week's first day (February 2026 in a
    calendar whose weeks start on Sunday) fills exactly four rows, yet the
    written grid shows five: the fifth is the whole first week of the next month.
   */
  lemma WrittenGridExample(monthStart: int, weekdayOffset: int, firstWeekday: int)
    requires 1 <= firstWeekday <= 7
    requires Weekday(monthStart, weekdayOffset) == firstWeekday
    ensures |IntendedDatesInMonth(monthStart, monthStart + 28, weekdayOffset, firstWeekday)| == 28
    ensures |DatesInMonthAsWritten(monthStart, monthStart + 28, weekdayOffset, firstWeekday)| == 35
  {
    var monthEnd := monthStart + 28;
    var q := (monthStart + weekdayOffset) / 7;
    assert monthStart + weekdayOffset == 7 * q + (firstWeekday - 1);
    RemainderUnique(monthEnd + weekdayOffset, 7, q + 4, firstWeekday - 1);
    WrittenGridExtraWeek(monthStart, monthEnd, weekdayOffset, firstWeekday);
    var first := GridFirstDay(monthStart, weekdayOffset, firstWeekday);
    SameWeekdayWholeWeeks(first, monthStart, weekdayOffset);
    var end := GridLastDay(monthEnd - 1, weekdayOffset, firstWeekday);
    SameWeekdayWholeWeeks(end + 1, monthEnd, weekdayOffset);
  }

  /** The arithmetic facts behind every grid: it starts on `firstWeekday` and has whole weeks. */
  lemma GridShape(monthStart: int, last: int, weekdayOffset: int, firstWeekday: int)
    requires monthStart <= last
    requires 1 <= firstWeekday <= 7
    ensures var first := GridFirstDay(monthStart, weekdayOffset, firstWeekday);
            var end := GridLastDay(last, weekdayOffset, firstWeekday);
            && monthStart - 6 <= first <= monthStart
            && last <= end <= last + 6
            && Weekday(first, weekdayOffset) == firstWeekday
            && (end - first + 1) % 7 == 0
  {
    var first := GridFirstDay(monthStart, weekdayOffset, firstWeekday);
    var end := GridLastDay(last, weekdayOffset, firstWeekday);
    SameWeekdayWholeWeeks(first, end + 1, weekdayOffset);
  }

  /** Two days on the same weekday lie a whole number of weeks apart. */
  lemma SameWeekdayWholeWeeks(x: int, y: int, weekdayOffset: int)
    requires Weekday(x, weekdayOffset) == Weekday(y, weekdayOffset)
    ensures (y - x) % 7 == 0
  {
    var w := Weekday(x, weekdayOffset);
    var a, b := (x + weekdayOffset) / 7, (y + weekdayOffset) / 7;
    assert x + weekdayOffset == 7 * a + (w - 1);
    assert y + weekdayOffset == 7 * b + (w - 1);
    RemainderUnique(y - x, 7, b - a, 0);
  }

  /** Swift's `%` by 7 on the small non-negative values the grid computes. */
  lemma RemainderOfSmall(a: int)
    requires 0 <= a < 14
    ensures SwiftRemainder(a, 7) == if a < 7 then a else a - 7
  {
    if a < 7 {
      RemainderUnique(a, 7, 0, a);
    } else {
      RemainderUnique(a, 7, 1, a - 7);
    }
  }

  /** A row starting at a multiple of 7 inside whole weeks ends inside them too. */
  lemma RowStartFits(i: int, len: int)
    requires 0 <= i < len && i % 7 == 0 && len % 7 == 0
    ensures i + 7 <= len
  {
    var j, m := i / 7, len / 7;
    assert i == 7 * j && len == 7 * m;
  }

  // ---------------------------------------------------------------------
  // The view model
  // ---------------------------------------------------------------------

  class CycleCalendarViewModel {
    var currentPhase: CyclePhase
    var cycleStartDate: Option<int>
    var periodEndDate: Option<int>
    var selectedDate: int
    var futurePeriodRanges: seq<PeriodRange>

    /**
      `init()`: load the saved dates; a saved end date triggers the projection;
      then cache the phase of today. Re-storing a loaded date writes the same
      value, so the store is unchanged.
     */
    constructor(defaults: UserDefaults, today: int)
      ensures cycleStartDate == DateFor(defaults.dates, StartDateKey)
      ensures periodEndDate == DateFor(defaults.dates, EndDateKey)
      ensures selectedDate == today
      ensures futurePeriodRanges ==
        if cycleStartDate.Some? && periodEndDate.Some?
        then ProjectedRanges(cycleStartDate.value, PeriodLength())
        else []
      ensures currentPhase == if GetPhaseFor(today).Some? then GetPhaseFor(today).value else Follicular
    {
      currentPhase := Follicular;
      cycleStartDate := DateFor(defaults.dates, StartDateKey);
      periodEndDate := None;
      selectedDate := today;
      futurePeriodRanges := [];
      new;
      if EndDateKey in defaults.dates {
        periodEndDate := Some(defaults.dates[EndDateKey]);
        CalculateFuturePeriodDates();
      }
      UpdateCurrentPhase(today);
    }

    /** `periodLength`: days from start to end, or 5 when either date is missing. */
    function PeriodLength(): (n: int)
      reads this`cycleStartDate, this`periodEndDate
      ensures cycleStartDate.None? || periodEndDate.None? ==> n == DefaultPeriodLength
      ensures cycleStartDate.Some? && periodEndDate.Some? ==> cycleStartDate.value + n == periodEndDate.value
    {
      if cycleStartDate.None? || periodEndDate.None? then DefaultPeriodLength
      else periodEndDate.value - cycleStartDate.value
    }

    /** The recorded range and every future range, both ends included; inverted ranges never match. */
    function IsDateInPeriod(date: int): (b: bool)
      reads this`cycleStartDate, this`periodEndDate, this`futurePeriodRanges
      ensures b <==>
        (cycleStartDate.Some? && periodEndDate.Some? && cycleStartDate.value <= date <= periodEndDate.value)
        || (exists i :: 0 <= i < |futurePeriodRanges| &&
              futurePeriodRanges[i].start <= date <= futurePeriodRanges[i].end)
    {
      (cycleStartDate.Some? && periodEndDate.Some? &&
       RangeContains(PeriodRange(cycleStartDate.value, periodEndDate.value), date))
      || AnyRangeContains(futurePeriodRanges, date)
    }

    /** Whether `date` is the start of a future range; the range's validity is not checked. */
    function IsFuturePeriodStart(date: int): (b: bool)
      reads this`futurePeriodRanges
      ensures b <==> exists i :: 0 <= i < |futurePeriodRanges| && futurePeriodRanges[i].start == date
    {
      AnyRangeStartsOn(futurePeriodRanges, date)
    }

    /** `isFuturePeriodDate`: would trap on an inverted range, hence the precondition. */
    function IsFuturePeriodDate(date: int): (b: bool)
      reads this`futurePeriodRanges
      requires forall i :: 0 <= i < |futurePeriodRanges| ==> futurePeriodRanges[i].start <= futurePeriodRanges[i].end
      ensures b <==> exists i :: 0 <= i < |futurePeriodRanges| &&
                       futurePeriodRanges[i].start <= date <= futurePeriodRanges[i].end
    {
      AnyClosedRangeContains(futurePeriodRanges, date)
    }

    /**
      `getPhaseFor`: menstruating inside any period; no phase without a recorded
      start; otherwise the phase of the floored day offset in the 28-day cycle,
      so the final `return nil` is never reached.
     */
    function GetPhaseFor(date: int): (r: Option<CyclePhase>)
      reads this`cycleStartDate, this`periodEndDate, this`futurePeriodRanges
      ensures IsDateInPeriod(date) ==> r == Some(Menstruating)
      ensures !IsDateInPeriod(date) && cycleStartDate.None? ==> r == None
      ensures !IsDateInPeriod(date) && cycleStartDate.Some? ==>
        r == Some(CycleDayPhase((date - cycleStartDate.value) % DaysInCycle))
    {
      if IsDateInPeriod(date) then Some(Menstruating)
      else if cycleStartDate.None? then None
      else
        PhaseOfNormalizedDay(NormalizedDay(date - cycleStartDate.value))
    }

    /** Cache the phase of today; a missing phase leaves the cached one as it was. */
    method UpdateCurrentPhase(today: int)
      modifies this`currentPhase
      ensures GetPhaseFor(today).None? ==> currentPhase == old(currentPhase)
      ensures GetPhaseFor(today).Some? ==> currentPhase == GetPhaseFor(today).value
    {
      var phase := GetPhaseFor(today);
      if phase.Some? {
        currentPhase := phase.value;
      }
    }

    /**
      `calculateFuturePeriodDates`: without a start date nothing changes (the
      guard comes before `removeAll`); otherwise the ranges are rebuilt.
     */
    method CalculateFuturePeriodDates()
      modifies this`futurePeriodRanges
      ensures cycleStartDate.None? ==> futurePeriodRanges == old(futurePeriodRanges)
      ensures cycleStartDate.Some? ==>
        futurePeriodRanges == ProjectedRanges(cycleStartDate.value, PeriodLength())
    {
      if cycleStartDate.None? {
        return;
      }
      var startDate := cycleStartDate.value;
      futurePeriodRanges := [];
      for i := 1 to FuturePeriodCount + 1
        invariant futurePeriodRanges == ProjectedRanges(startDate, PeriodLength())[..i - 1]
      {
        var futureStart := startDate + DaysInCycle * i;
        var futureEnd := futureStart + PeriodLength() - 1;
        futurePeriodRanges := futurePeriodRanges + [PeriodRange(futureStart, futureEnd)];
      }
    }

    function IsCurrentlyMenstruating(today: int): (b: bool)
      reads this`cycleStartDate, this`periodEndDate, this`futurePeriodRanges
      ensures b == IsDateInPeriod(today)
    {
      IsDateInPeriod(today)
    }

    /** "Select period dates" without a start; MENSTRUATING inside a period whatever the cache says. */
    function GetCurrentPhaseDisplay(today: int): (s: string)
      reads this
      ensures cycleStartDate.None? ==> s == "Select period dates"
      ensures cycleStartDate.Some? && IsDateInPeriod(today) ==> s == "MENSTRUATING"
      ensures cycleStartDate.Some? && !IsDateInPeriod(today) ==> s == currentPhase.RawValue()
    {
      if cycleStartDate.None? then "Select period dates"
      else if IsCurrentlyMenstruating(today) then Menstruating.RawValue()
      else currentPhase.RawValue()
    }

    function GetCurrentPhaseColor(today: int): (c: PhaseColor)
      reads this
      ensures cycleStartDate.None? ==> c == Black
      ensures cycleStartDate.Some? && IsDateInPeriod(today) ==> c == Red
      ensures cycleStartDate.Some? && !IsDateInPeriod(today) ==> c == currentPhase.Color()
    {
      if cycleStartDate.None? then Black
      else if IsCurrentlyMenstruating(today) then Menstruating.Color()
      else currentPhase.Color()
    }

    /** Assigning `cycleStartDate`; its `didSet` persists only a non-nil value. */
    method SetCycleStartDate(date: Option<int>, defaults: UserDefaults)
      modifies this`cycleStartDate, defaults`dates
      ensures cycleStartDate == date
      ensures defaults.dates ==
        if date.Some? then old(defaults.dates)[StartDateKey := date.value] else old(defaults.dates)
    {
      cycleStartDate := date;
      if date.Some? {
        defaults.dates := defaults.dates[StartDateKey := date.value];
      }
    }

    /** Assigning `periodEndDate`; its `didSet` persists only a non-nil value. */
    method SetPeriodEndDate(date: Option<int>, defaults: UserDefaults)
      modifies this`periodEndDate, defaults`dates
      ensures periodEndDate == date
      ensures defaults.dates ==
        if date.Some? then old(defaults.dates)[EndDateKey := date.value] else old(defaults.dates)
    {
      periodEndDate := date;
      if date.Some? {
        defaults.dates := defaults.dates[EndDateKey := date.value];
      }
    }

    /**
      The date picker choosing a start date: the end date defaults to five days
      later, then the two `onChange` handlers run, the one on `periodEndDate`
      reprojecting and the one on `cycleStartDate` refreshing the phase.
     */
    method PickStartDate(date: int, defaults: UserDefaults, today: int)
      modifies this`cycleStartDate, this`periodEndDate, this`futurePeriodRanges, this`currentPhase, defaults`dates
      ensures cycleStartDate == Some(date) && periodEndDate == Some(date + 5)
      ensures defaults.dates == old(defaults.dates)[StartDateKey := date][EndDateKey := date + 5]
      ensures futurePeriodRanges == ProjectedRanges(date, 5)
      ensures GetPhaseFor(today).Some? && currentPhase == GetPhaseFor(today).value
    {
      SetCycleStartDate(Some(date), defaults);
      SetPeriodEndDate(Some(cycleStartDate.value + 5), defaults);
      CalculateFuturePeriodDates();
      UpdateCurrentPhase(today);
    }

    /** The date picker choosing an end date, followed by the projection. */
    method PickEndDate(date: int, defaults: UserDefaults)
      modifies this`periodEndDate, this`futurePeriodRanges, defaults`dates
      ensures periodEndDate == Some(date)
      ensures defaults.dates == old(defaults.dates)[EndDateKey := date]
      ensures cycleStartDate.None? ==> futurePeriodRanges == old(futurePeriodRanges)
      ensures cycleStartDate.Some? ==>
        futurePeriodRanges == ProjectedRanges(cycleStartDate.value, date - cycleStartDate.value)
    {
      SetPeriodEndDate(Some(date), defaults);
      CalculateFuturePeriodDates();
    }

    /**
      The month grid for the month [monthStart, monthEnd) that holds
      `selectedDate`. As written it runs from the week start on or before the
      1st through the week end on or after `monthEnd`, the 1st of the NEXT
      month (`monthInterval.end`).
     */
    method DatesInMonth(monthStart: int, monthEnd: int, weekdayOffset: int, firstWeekday: int)
      returns (dates: seq<(int, bool)>)
      requires monthStart <= selectedDate < monthEnd
      requires 1 <= firstWeekday <= 7
      ensures |dates| % 7 == 0 && |dates| > 0
      ensures Weekday(dates[0].0, weekdayOffset) == firstWeekday
      ensures monthStart - 6 <= dates[0].0 <= monthStart
      ensures monthEnd <= dates[|dates| - 1].0 <= monthEnd + 6
      ensures forall i :: 0 <= i < |dates| ==> dates[i].0 == dates[0].0 + i
      ensures forall i :: 0 <= i < |dates| ==> (dates[i].1 <==> monthStart <= dates[i].0 < monthEnd)
      ensures dates == DatesInMonthAsWritten(monthStart, monthEnd, weekdayOffset, firstWeekday)
    {
      var startDate := GridFirstDay(monthStart, weekdayOffset, firstWeekday);
      var endDate := GridLastDay(monthEnd, weekdayOffset, firstWeekday);
      GridShape(monthStart, monthEnd, weekdayOffset, firstWeekday);
      dates := [];
      var currentDate := startDate;
      while currentDate <= endDate
        invariant startDate <= currentDate <= endDate + 1
        invariant |dates| == currentDate - startDate
        invariant forall i :: 0 <= i < |dates| ==>
          dates[i] == (startDate + i, monthStart <= startDate + i && startDate + i < monthEnd)
      {
        var isCurrentMonth := monthStart <= currentDate && currentDate < monthEnd;
        dates := dates + [(currentDate, isCurrentMonth)];
        currentDate := currentDate + 1;
      }
    }

    /**
      `isWithinDaysBeforePeriod`: walk forward from the start, one cycle at a
      time, to the first cycle start after today, and test the days until it.
     */
    method IsWithinDaysBeforePeriod(startDays: int, endDays: int, today: int) returns (r: bool)
      ensures cycleStartDate.None? ==> !r
      ensures cycleStartDate.Some? ==>
        (r <==> endDays <= NextPeriodStart(cycleStartDate.value, today) - today <= startDays)
    {
      if cycleStartDate.None? {
        return false;
      }
      var cycleStart := cycleStartDate.value;
      var nextPeriod := cycleStart;
      ghost var cycles := 0;
      while nextPeriod <= today
        invariant cycles >= 0 && nextPeriod == cycleStart + DaysInCycle * cycles
        invariant cycles == 0 || nextPeriod - DaysInCycle <= today
        decreases today - nextPeriod
      {
        nextPeriod := nextPeriod + DaysInCycle;
        cycles := cycles + 1;
      }
      NextPeriodStartUnique(cycleStart, today, cycles);
      var daysUntilPeriod := nextPeriod - today;
      r := daysUntilPeriod <= startDays && daysUntilPeriod >= endDays;
    }

    /**
      `isWithin24HoursAfterPeriodStart`: the hours from the recorded start
      (day and hour of day) to now lie in [0, 24].
     */
    function IsWithin24HoursAfterPeriodStart(today: int, startHour: Hour, nowHour: Hour): (b: bool)
      reads this`cycleStartDate
      ensures cycleStartDate.None? ==> !b
      ensures b ==> today == cycleStartDate.value || today == cycleStartDate.value + 1
      ensures cycleStartDate.Some? && today == cycleStartDate.value ==> (b <==> startHour <= nowHour)
      ensures cycleStartDate.Some? && today == cycleStartDate.value + 1 ==> (b <==> nowHour <= startHour)
    {
      if cycleStartDate.None? then false
      else
        var hoursSincePeriodStart := (today - cycleStartDate.value) * 24 + (nowHour - startHour);
        hoursSincePeriodStart <= 24 && hoursSincePeriodStart >= 0
    }

    /**
      `isWithinDaysAfterPeriodStart`: today is 0 <= d < days after the
      recorded start or after the start of any future range.
     */
    function IsWithinDaysAfterPeriodStart(days: int, today: int): (b: bool)
      reads this`cycleStartDate, this`futurePeriodRanges
      ensures cycleStartDate.None? ==> !b
      ensures cycleStartDate.Some? ==>
        (b <==> (0 <= today - cycleStartDate.value < days
                 || exists i :: 0 <= i < |futurePeriodRanges| &&
                      0 <= today - futurePeriodRanges[i].start < days))
    {
      if cycleStartDate.None? then false
      else if AnyRangeStartedWithin(futurePeriodRanges, today, days) then true
      else
        var daysSincePeriodStart := today - cycleStartDate.value;
        daysSincePeriodStart >= 0 && daysSincePeriodStart < days
    }
  }

  // ---------------------------------------------------------------------
  // Properties
  // ---------------------------------------------------------------------

  /** The three non-menstrual phases partition the cycle at 13 and 14. */
  lemma PhaseSegmentsPartitionCycle(day: int)
    requires 0 <= day < DaysInCycle
    ensures CycleDayPhase(day) == Follicular <==> day < FollicularLength
    ensures CycleDayPhase(day) == Ovulatory <==> FollicularLength <= day < FollicularLength + OvulatoryLength
    ensures CycleDayPhase(day) == Luteal <==> FollicularLength + OvulatoryLength <= day
    ensures FollicularLength + OvulatoryLength + LutealLength == DaysInCycle
  {
  }

  /** A date 500 days before the recorded start is still given a phase (day 4: follicular). */
  lemma FarPastDateHasPhase(m: CycleCalendarViewModel)
    requires m.cycleStartDate.Some? && !m.IsDateInPeriod(m.cycleStartDate.value - 500)
    ensures m.GetPhaseFor(m.cycleStartDate.value - 500) == Some(Follicular)
  {
    assert (-500) % DaysInCycle == 4;
  }

  /** Days before the recorded start follow the same 28-day pattern, shifted whole cycles back. */
  lemma {:induction false} PhaseRepeatsEveryCycle(m: CycleCalendarViewModel, date: int, cycles: int)
    requires m.cycleStartDate.Some?
    requires !m.IsDateInPeriod(date) && !m.IsDateInPeriod(date + DaysInCycle * cycles)
    ensures m.GetPhaseFor(date + DaysInCycle * cycles) == m.GetPhaseFor(date)
  {
    var s := m.cycleStartDate.value;
    ShiftByCycles(date - s, cycles);
    assert date + DaysInCycle * cycles - s == (date - s) + DaysInCycle * cycles;
  }

  lemma {:induction false} ShiftByCycles(d: int, cycles: int)
    ensures (d + DaysInCycle * cycles) % DaysInCycle == d % DaysInCycle
  {
    var q := d / DaysInCycle;
    var r := d % DaysInCycle;
    assert d == DaysInCycle * q + r;
    assert d + DaysInCycle * cycles == DaysInCycle * (q + cycles) + r;
  }

  /** The shape of the projection: twelve ranges, 28 days apart, in increasing order. */
  lemma ProjectedRangesShape(start: int, periodLength: int)
    ensures var rs := ProjectedRanges(start, periodLength);
      && |rs| == FuturePeriodCount
      && (forall i :: 0 <= i < |rs| ==>
            rs[i].start == start + DaysInCycle * (i + 1) && rs[i].end == rs[i].start + periodLength - 1)
      && (forall i, j :: 0 <= i < j < |rs| ==> rs[i].start < rs[j].start)
  {
  }

  /** With a period length below 1 every projected range is inverted, so none ever matches. */
  lemma ShortPeriodNeverMatches(start: int, periodLength: int, date: int)
    requires periodLength < 1
    ensures !AnyRangeContains(ProjectedRanges(start, periodLength), date)
  {
  }

  /**
    `isFuturePeriodStart` does not look at validity: with an inverted
    projection the first future start is still reported as a period start
    while `isDateInPeriod` finds nothing there.
   */
  lemma FutureStartIgnoresValidity(m: CycleCalendarViewModel)
    requires m.cycleStartDate.Some? && m.periodEndDate.Some?
    requires m.periodEndDate.value < m.cycleStartDate.value
    requires m.futurePeriodRanges == ProjectedRanges(m.cycleStartDate.value, m.PeriodLength())
    ensures m.IsFuturePeriodStart(m.cycleStartDate.value + DaysInCycle)
    ensures !m.IsDateInPeriod(m.cycleStartDate.value + DaysInCycle)
  {
    var rs := m.futurePeriodRanges;
    assert rs[0].start == m.cycleStartDate.value + DaysInCycle;
  }

  /**
    When all future ranges are well formed, `isFuturePeriodDate` and the
    future part of `isDateInPeriod` agree.
   */
  lemma FuturePeriodDateAgreesWithPeriod(m: CycleCalendarViewModel, date: int)
    requires forall i :: 0 <= i < |m.futurePeriodRanges| ==>
               m.futurePeriodRanges[i].start <= m.futurePeriodRanges[i].end
    requires m.cycleStartDate.None? || m.periodEndDate.None?
    ensures m.IsFuturePeriodDate(date) == m.IsDateInPeriod(date)
  {
  }

  /**
    The default end date of the picker is start + 5: the recorded period then
    covers six days, while each projected period, `periodLength` = 5 long,
    covers five.
   */
  lemma DefaultEndDateQuirk(m: CycleCalendarViewModel)
    requires m.cycleStartDate.Some? && m.periodEndDate == Some(m.cycleStartDate.value + 5)
    ensures m.PeriodLength() == 5
    ensures m.periodEndDate.value - m.cycleStartDate.value + 1 == 6
    ensures forall i :: 0 <= i < FuturePeriodCount ==>
      var r := ProjectedRanges(m.cycleStartDate.value, m.PeriodLength())[i];
      r.end - r.start + 1 == 5
  {
  }

  /** Uniqueness of the cycle start the forward walk of `isWithinDaysBeforePeriod` lands on. */
  lemma NextPeriodStartUnique(start: int, today: int, cycles: int)
    requires cycles >= 0 && start + DaysInCycle * cycles > today
    requires cycles == 0 || start + DaysInCycle * cycles - DaysInCycle <= today
    ensures NextPeriodStart(start, today) == start + DaysInCycle * cycles
  {
    if start > today {
      assert cycles == 0;
    } else {
      var k := (today - start) / DaysInCycle;
      var rem := (today - start) % DaysInCycle;
      assert today - start == DaysInCycle * k + rem && 0 <= rem < DaysInCycle;
      assert k + 1 == cycles by {
        assert DaysInCycle * cycles > DaysInCycle * k + rem;
        assert DaysInCycle * (cycles - 1) <= DaysInCycle * k + rem;
      }
    }
  }

  /**
    The loop's landing point: after today, a whole number of cycles from the
    start, and at most one cycle after today unless the start itself is later.
   */
  lemma {:induction false} NextPeriodStartFacts(start: int, today: int)
    ensures var n := NextPeriodStart(start, today);
      && n > today && n >= start && (n - start) % DaysInCycle == 0
      && (start <= today ==> n - today <= DaysInCycle)
  {
    if start <= today {
      var k := (today - start) / DaysInCycle;
      var rem := (today - start) % DaysInCycle;
      assert today - start == DaysInCycle * k + rem;
      assert NextPeriodStart(start, today) == start + DaysInCycle * k + DaysInCycle;
    }
  }

  /**
    The projection makes `isWithinDaysAfterPeriodStart` fire once per cycle:
    after twelve projected starts, the future ranges match exactly the days
    0 <= d < days after start + 28k for some k in 1..12.
   */
  lemma {:induction false} ProjectedStartsRecur(start: int, periodLength: int, today: int, days: int)
    ensures AnyRangeStartedWithin(ProjectedRanges(start, periodLength), today, days) <==>
      exists k :: 1 <= k <= FuturePeriodCount && 0 <= today - (start + DaysInCycle * k) < days
  {
    var rs := ProjectedRanges(start, periodLength);
    if exists k :: 1 <= k <= FuturePeriodCount && 0 <= today - (start + DaysInCycle * k) < days {
      var k :| 1 <= k <= FuturePeriodCount && 0 <= today - (start + DaysInCycle * k) < days;
      assert rs[k - 1].start == start + DaysInCycle * k;
    }
    if AnyRangeStartedWithin(rs, today, days) {
      var i :| 0 <= i < |rs| && 0 <= today - rs[i].start < days;
      assert rs[i].start == start + DaysInCycle * (i + 1);
    }
  }

  /** Once the cache is refreshed, the display is the phase of today. */
  lemma DisplayMatchesRefreshedPhase(m: CycleCalendarViewModel, today: int)
    requires m.cycleStartDate.Some?
    requires m.GetPhaseFor(today) == Some(m.currentPhase)
    ensures m.GetCurrentPhaseDisplay(today) == m.GetPhaseFor(today).value.RawValue()
  {
  }

  /**
    Restart after persisting: a model built from the store that the setters
    wrote has the same recorded dates and the same projection.
   */
  method RestoreAfterPicking(start: int, end: int, today: int) returns (restored: CycleCalendarViewModel)
    ensures restored.cycleStartDate == Some(start) && restored.periodEndDate == Some(end)
    ensures restored.futurePeriodRanges == ProjectedRanges(start, end - start)
  {
    var defaults := new UserDefaults(map[], None);
    var m := new CycleCalendarViewModel(defaults, today);
    m.PickStartDate(start, defaults, today);
    m.PickEndDate(end, defaults);
    restored := new CycleCalendarViewModel(defaults, today);
  }
}
