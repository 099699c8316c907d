/**
 * Timeframes and UTC alignment.
 *
 * An instant is a number of microseconds, the resolution of the program's
 * timestamps, counted from 0001-01-01T00:00:00Z, which is a Monday.
 */
module Timeframes {
  import opened Integers

  type Instant = int

  const MILLISECOND: int := 1_000
  const MINUTE: int := 60_000_000
  const HOUR: int := 3_600_000_000
  const DAY: int := 86_400_000_000
  const WEEK: int := 604_800_000_000

  datatype Timeframe = M1 | M3 | M5 | M15 | M30 | H1 | H4 | D1 | W1

  function Duration(timeframe: Timeframe): (d: int)
    ensures MINUTE <= d <= WEEK && d % MINUTE == 0
  {
    match timeframe
    case M1 => MINUTE
    case M3 => 3 * MINUTE
    case M5 => 5 * MINUTE
    case M15 => 15 * MINUTE
    case M30 => 30 * MINUTE
    case H1 => HOUR
    case H4 => 4 * HOUR
    case D1 => DAY
    case W1 => WEEK
  }

  /** The calendar fields of a timestamp. */
  function WeekdayOf(t: Instant): int { t / DAY % 7 }
  function HourOf(t: Instant): int { t % DAY / HOUR }
  function MinuteOf(t: Instant): int { t % HOUR / MINUTE }

  /** The timestamp on t's date with the given hour and minute and nothing finer. */
  function ReplaceTime(t: Instant, hour: int, minute: int): Instant {
    t - t % DAY + hour * HOUR + minute * MINUTE
  }

  /** The field-by-field floor of the program. */
  function AlignFloor(t: Instant, timeframe: Timeframe): Instant {
    if timeframe.W1? then
      ReplaceTime(t - WeekdayOf(t) * DAY, 0, 0)
    else if timeframe.D1? then
      ReplaceTime(t, 0, 0)
    else
      var minutes := Duration(timeframe) / MINUTE;
      var total := HourOf(t) * 60 + MinuteOf(t);
      var floored := total - total % minutes;
      ReplaceTime(t, floored / 60, floored % 60)
  }

  predicate IsAligned(t: Instant, timeframe: Timeframe) {
    t == AlignFloor(t, timeframe)
  }

  /** The field-based floor is the floor to a multiple of the duration, counted from a Monday. */
  lemma AlignFloorIsFloor(t: Instant, timeframe: Timeframe)
    ensures AlignFloor(t, timeframe) == t - t % Duration(timeframe)
    ensures IsAligned(t, timeframe) <==> t % Duration(timeframe) == 0
  {
    if timeframe.W1? {
      WeekFloor(t);
    } else if !timeframe.D1? {
      IntradayFloor(t, Duration(timeframe) / MINUTE);
    }
  }

  lemma WeekFloor(t: Instant)
    ensures ReplaceTime(t - WeekdayOf(t) * DAY, 0, 0) == t - t % WEEK
  {
    DivisionInStages(t, DAY, 7);
    QuotientIsUnique(t - WeekdayOf(t) * DAY, DAY, t / DAY - WeekdayOf(t), t % DAY);
  }

  lemma IntradayFloor(t: Instant, minutes: int)
    requires minutes in {1, 3, 5, 15, 30, 60, 240}
    ensures var total := HourOf(t) * 60 + MinuteOf(t);
      var floored := total - total % minutes;
      ReplaceTime(t, floored / 60, floored % 60) == t - t % (minutes * MINUTE)
  {
    MinuteOfDay(t);
    WithinDay(t, minutes);
    DivisionInStages(t % DAY, MINUTE, minutes);
    hide HourOf, MinuteOf;
  }

  lemma MinuteOfDay(t: Instant)
    ensures HourOf(t) * 60 + MinuteOf(t) == t % DAY / MINUTE
  {
    DivisionInStages(t, HOUR, 24);
    DivisionInStages(t % DAY, MINUTE, 60);
  }

  lemma WithinDay(t: Instant, minutes: int)
    requires minutes in {1, 3, 5, 15, 30, 60, 240}
    ensures t % DAY % (minutes * MINUTE) == t % (minutes * MINUTE)
  {
    DivisionInStages(t, minutes * MINUTE, 1440 / minutes);
  }

  /** What the floor is for: the greatest aligned instant that is not after t. */
  lemma AlignFloorIsGreatestAligned(t: Instant, timeframe: Timeframe)
    ensures IsAligned(AlignFloor(t, timeframe), timeframe)
    ensures AlignFloor(t, timeframe) <= t
    ensures forall u | u <= t && IsAligned(u, timeframe) :: u <= AlignFloor(t, timeframe)
  {
    AlignFloorIsFloor(t, timeframe);
    AlignFloorIsFloor(AlignFloor(t, timeframe), timeframe);
    FloorIsMultiple(t, Duration(timeframe));
    forall u | u <= t && IsAligned(u, timeframe)
      ensures u <= AlignFloor(t, timeframe)
    {
      AlignFloorIsFloor(u, timeframe);
      FloorIsGreatestMultiple(t, Duration(timeframe), u);
    }
  }

  /** Alignment to a coarser timeframe carries over to every timeframe that divides it. */
  lemma CoarserAlignmentIsFiner(t: Instant, finer: Timeframe, coarser: Timeframe)
    requires IsAligned(t, coarser) && Duration(coarser) % Duration(finer) == 0
    ensures IsAligned(t, finer)
  {
    AlignFloorIsFloor(t, coarser);
    AlignFloorIsFloor(t, finer);
    DivisibilityChains(t, Duration(coarser), Duration(finer));
  }

  /** Stepping by a whole number of durations keeps alignment. */
  lemma StepKeepsAlignment(t: Instant, k: int, timeframe: Timeframe)
    requires IsAligned(t, timeframe)
    ensures IsAligned(t + k * Duration(timeframe), timeframe)
  {
    AlignFloorIsFloor(t, timeframe);
    AlignFloorIsFloor(t + k * Duration(timeframe), timeframe);
    ShiftByMultiple(t, k, Duration(timeframe));
  }
}
