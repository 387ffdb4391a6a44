/**
 * The weekly summary: the workouts dated within the week's first and last day
 * (compared as strings), and per-day counts and sums over them. The week's
 * bounds and its seven date strings come from the clock and are parameters.
 */
module SummaryScreen {
  import opened Wrappers
  import opened Workouts
  import opened Sequences
  import opened Strings
  import opened WorkoutSchema

  /** `workoutDate >= startDate && workoutDate <= endDate`, as string comparisons. */
  predicate InRange(w: Workout, startDate: string, endDate: string) {
    LexLe(startDate, w.date) && LexLe(w.date, endDate)
  }

  /** The `filteredWorkouts` memo, including its early return on an empty list. */
  function WorkoutsInRange(all: seq<Workout>, startDate: string, endDate: string): (r: seq<Workout>)
    ensures Subsequence(r, all)
    ensures forall w :: w in r ==> LexLe(startDate, w.date) && LexLe(w.date, endDate)
  {
    FilterIsSubsequence(all, (w: Workout) => InRange(w, startDate, endDate));
    FilterMembers(all, (w: Workout) => InRange(w, startDate, endDate));
    if |all| == 0 then [] else Filter(all, (w: Workout) => InRange(w, startDate, endDate))
  }

  /**
   * The range filter keeps exactly the workouts whose date lies between the
   * bounds, both inclusive, in their original order; an empty list gives an
   * empty result.
   */
  lemma RangeFilterSelects(all: seq<Workout>, startDate: string, endDate: string, w: Workout)
    ensures Subsequence(WorkoutsInRange(all, startDate, endDate), all)
    ensures w in WorkoutsInRange(all, startDate, endDate) <==>
      w in all && LexLe(startDate, w.date) && LexLe(w.date, endDate)
    ensures all == [] ==> WorkoutsInRange(all, startDate, endDate) == []
  {
    FilterIsSubsequence(all, (w: Workout) => InRange(w, startDate, endDate));
    FilterMembership(all, (w: Workout) => InRange(w, startDate, endDate), w);
  }

  /** A range whose start sorts after its end selects nothing. */
  lemma InvertedRangeIsEmpty(all: seq<Workout>, startDate: string, endDate: string)
    requires !LexLe(startDate, endDate)
    ensures WorkoutsInRange(all, startDate, endDate) == []
  {
    var r := WorkoutsInRange(all, startDate, endDate);
    if r != [] {
      RangeFilterSelects(all, startDate, endDate, r[0]);
      LexLeTransitive(startDate, r[0].date, endDate);
    }
  }

  /** Calendar order on (year, month, day). */
  predicate ChronoLe(y1: nat, m1: nat, d1: nat, y2: nat, m2: nat, d2: nat) {
    y1 < y2 || (y1 == y2 && (m1 < m2 || (m1 == m2 && d1 <= d2)))
  }

  /** Comparing "-DD" suffixes of two dates compares the days. */
  lemma DayOrder(d1: nat, d2: nat)
    requires d1 < 100 && d2 < 100
    ensures LexLe("-" + Pad(d1, 2), "-" + Pad(d2, 2)) <==> d1 <= d2
  {
    PadOrder(d1, d2, 2);
    LexLeConcat("-", Pad(d1, 2), "-", Pad(d2, 2));
  }

  /** The "-MM-DD" part of a zero-padded date. */
  function MonthDay(m: nat, d: nat): string {
    "-" + Pad(m, 2) + "-" + Pad(d, 2)
  }

  /** Comparing the "-MM-DD" parts of two dates compares month, then day. */
  lemma MonthDayOrder(m1: nat, d1: nat, m2: nat, d2: nat)
    requires m1 < 100 && d1 < 100 && m2 < 100 && d2 < 100
    ensures LexLe(MonthDay(m1, d1), MonthDay(m2, d2)) <==> (m1 < m2 || (m1 == m2 && d1 <= d2))
  {
    PadShape(m1, 2); PadShape(m2, 2);
    PadOrder(m1, m2, 2); PadInjective(m1, m2, 2);
    DayOrder(d1, d2);
    var day1, day2 := "-" + Pad(d1, 2), "-" + Pad(d2, 2);
    assert MonthDay(m1, d1) == ("-" + Pad(m1, 2)) + day1;
    assert MonthDay(m2, d2) == ("-" + Pad(m2, 2)) + day2;
    LexLeConcat("-" + Pad(m1, 2), day1, "-" + Pad(m2, 2), day2);
    LexLeConcat("-", Pad(m1, 2), "-", Pad(m2, 2));
  }

  /** A zero-padded date is its four-digit year followed by its "-MM-DD" part. */
  lemma FormatDateSplit(y: nat, m: nat, d: nat)
    ensures FormatDate(y, m, d) == Pad(y, 4) + MonthDay(m, d)
    ensures |Pad(y, 4)| == 4
  {
    PadShape(y, 4);
  }

  /**
   * On zero-padded dates, string comparison is calendar order, so the range
   * filter selects a calendar interval.
   */
  lemma DateOrderIsChronological(y1: nat, m1: nat, d1: nat, y2: nat, m2: nat, d2: nat)
    requires y1 < 10000 && m1 < 100 && d1 < 100
    requires y2 < 10000 && m2 < 100 && d2 < 100
    ensures LexLe(FormatDate(y1, m1, d1), FormatDate(y2, m2, d2)) <==> ChronoLe(y1, m1, d1, y2, m2, d2)
  {
    FormatDateSplit(y1, m1, d1);
    FormatDateSplit(y2, m2, d2);
    PadOrder(y1, y2, 4);
    PadInjective(y1, y2, 4);
    MonthDayOrder(m1, d1, m2, d2);
    LexLeConcat(Pad(y1, 4), MonthDay(m1, d1), Pad(y2, 4), MonthDay(m2, d2));
  }

  /** The workouts of `filtered` dated `day`. */
  function DayWorkouts(filtered: seq<Workout>, day: string): seq<Workout> {
    Filter(filtered, (w: Workout) => w.date == day)
  }

  /** The two per-workout amounts the summary adds up. */
  datatype Measure = Minutes | Kilocalories

  /** `w.duration || 0` or `w.calories || 0`: a missing amount counts as 0. */
  function Amount(w: Workout, m: Measure): int {
    match m
    case Minutes => w.duration.GetOr(0)
    case Kilocalories => w.calories.GetOr(0)
  }

  /**
   * One day's totals, each stated over the whole range: the workouts dated
   * `day`, those of them completed, and the day's duration and calorie sums
   * with every workout of another day contributing 0.
   */
  function SummarizeDay(filtered: seq<Workout>, day: string): (r: DailySummary)
    ensures r.date == day
    ensures r.workouts == |Filter(filtered, (w: Workout) => w.date == day)|
    ensures r.completed == |Filter(filtered, (w: Workout) => w.date == day && w.completed)|
    ensures r.duration == Sum(filtered, (w: Workout) => if w.date == day then Amount(w, Minutes) else 0)
    ensures r.calories == Sum(filtered, (w: Workout) => if w.date == day then Amount(w, Kilocalories) else 0)
    ensures r.completed <= r.workouts <= |filtered|
  {
    var dayWorkouts := DayWorkouts(filtered, day);
    FilterTwice(filtered, (w: Workout) => w.date == day, (w: Workout) => w.completed,
      (w: Workout) => w.date == day && w.completed);
    SumFilter(filtered, (w: Workout) => w.date == day, (w: Workout) => w.duration.GetOr(0),
      (w: Workout) => if w.date == day then Amount(w, Minutes) else 0);
    SumFilter(filtered, (w: Workout) => w.date == day, (w: Workout) => w.calories.GetOr(0),
      (w: Workout) => if w.date == day then Amount(w, Kilocalories) else 0);
    DailySummary(
      day,
      |dayWorkouts|,
      |Filter(dayWorkouts, (w: Workout) => w.completed)|,
      Sum(dayWorkouts, (w: Workout) => w.duration.GetOr(0)),
      Sum(dayWorkouts, (w: Workout) => w.calories.GetOr(0)))
  }

  /** `dailySummaries`: one summary per date string of the week, in order. */
  function DailySummaries(filtered: seq<Workout>, days: seq<string>): (r: seq<DailySummary>)
    requires |days| == 7
    ensures |r| == 7
    ensures forall i :: 0 <= i < 7 ==> r[i].date == days[i]
  {
    seq(7, i requires 0 <= i < 7 => SummarizeDay(filtered, days[i]))
  }

  /**
   * A day's completed count is at most its workout count, and its duration and
   * calorie sums are not negative when no workout carries a negative value.
   */
  lemma DaySummaryBounds(filtered: seq<Workout>, day: string)
    ensures SummarizeDay(filtered, day).completed <= SummarizeDay(filtered, day).workouts
    ensures (forall w :: w in filtered ==> AtLeastIfPresent(w.duration, 0)) ==> SummarizeDay(filtered, day).duration >= 0
    ensures (forall w :: w in filtered ==> AtLeastIfPresent(w.calories, 0)) ==> SummarizeDay(filtered, day).calories >= 0
  {
    var dayWorkouts := DayWorkouts(filtered, day);
    forall i | 0 <= i < |dayWorkouts| ensures dayWorkouts[i] in filtered {
      FilterMembership(filtered, (w: Workout) => w.date == day, dayWorkouts[i]);
    }
    if forall w :: w in filtered ==> AtLeastIfPresent(w.duration, 0) {
      SumNonNegative(dayWorkouts, (w: Workout) => w.duration.GetOr(0));
    }
    if forall w :: w in filtered ==> AtLeastIfPresent(w.calories, 0) {
      SumNonNegative(dayWorkouts, (w: Workout) => w.calories.GetOr(0));
    }
  }

  /**
   * Over distinct days, the per-day counts add up to the number of workouts
   * dated on one of those days: no workout is counted twice or lost.
   */
  lemma {:induction false} DayCountsAddUp(filtered: seq<Workout>, days: seq<string>)
    requires NoDuplicates(days)
    ensures Sum(days, (d: string) => |DayWorkouts(filtered, d)|) == |Filter(filtered, (w: Workout) => w.date in days)|
  {
    if days != [] {
      var rest := days[1..];
      assert NoDuplicates(rest) by {
        forall i, j | 0 <= i < j < |rest| ensures rest[i] != rest[j] {
          assert rest[i] == days[i + 1] && rest[j] == days[j + 1];
        }
      }
      DayCountsAddUp(filtered, rest);
      assert days[0] !in rest by {
        forall k | 0 <= k < |rest| ensures rest[k] != days[0] {
          assert rest[k] == days[k + 1];
        }
      }
      assert forall d :: d in days <==> d == days[0] || d in rest by {
        assert days == [days[0]] + rest;
      }
      FilterSplit(filtered, (w: Workout) => w.date in days, (w: Workout) => w.date == days[0], (w: Workout) => w.date in rest);
      assert DayWorkouts(filtered, days[0]) == Filter(filtered, (w: Workout) => w.date == days[0]);
      assert Sum(days, (d: string) => |DayWorkouts(filtered, d)|) ==
        |DayWorkouts(filtered, days[0])| + Sum(rest, (d: string) => |DayWorkouts(filtered, d)|);
    } else {
      var none := Filter(filtered, (w: Workout) => w.date in days);
      if none != [] {
        FilterMembership(filtered, (w: Workout) => w.date in days, none[0]);
      }
    }
  }

  /**
   * When the week's seven date strings are distinct, the summaries' workout
   * counts add up to the number of workouts dated within the week.
   */
  lemma WeekCountsAddUp(filtered: seq<Workout>, days: seq<string>)
    requires |days| == 7 && NoDuplicates(days)
    ensures Sum(DailySummaries(filtered, days), (s: DailySummary) => s.workouts) == |Filter(filtered, (w: Workout) => w.date in days)|
  {
    var r := DailySummaries(filtered, days);
    SumPointwise(r, (s: DailySummary) => s.workouts, days, (d: string) => |DayWorkouts(filtered, d)|);
    DayCountsAddUp(filtered, days);
  }

  /**
   * When the week's seven date strings are distinct, the summaries' completed
   * counts add up to the number of completed workouts dated within the week.
   */
  lemma WeekCompletedAddUp(filtered: seq<Workout>, days: seq<string>)
    requires |days| == 7 && NoDuplicates(days)
    ensures Sum(DailySummaries(filtered, days), (s: DailySummary) => s.completed) ==
      |Filter(filtered, (w: Workout) => w.date in days && w.completed)|
  {
    var done := Filter(filtered, (w: Workout) => w.completed);
    var r := DailySummaries(filtered, days);
    forall i | 0 <= i < 7 ensures r[i].completed == |DayWorkouts(done, days[i])| {
      FilterTwice(filtered, (w: Workout) => w.completed, (w: Workout) => w.date == days[i],
        (w: Workout) => w.date == days[i] && w.completed);
    }
    SumPointwise(r, (s: DailySummary) => s.completed, days, (d: string) => |DayWorkouts(done, d)|);
    DayCountsAddUp(done, days);
    FilterTwice(filtered, (w: Workout) => w.completed, (w: Workout) => w.date in days,
      (w: Workout) => w.date in days && w.completed);
  }

  /**
   * Over distinct days, the per-day sums of an amount add up to the sum over
   * the workouts dated on one of those days.
   */
  lemma {:induction false} DaySumsAddUp(filtered: seq<Workout>, days: seq<string>, m: Measure)
    requires NoDuplicates(days)
    ensures Sum(days, (d: string) => Sum(filtered, (w: Workout) => if w.date == d then Amount(w, m) else 0)) ==
      Sum(filtered, (w: Workout) => if w.date in days then Amount(w, m) else 0)
  {
    if days != [] {
      var rest := days[1..];
      assert NoDuplicates(rest) by {
        forall i, j | 0 <= i < j < |rest| ensures rest[i] != rest[j] {
          assert rest[i] == days[i + 1] && rest[j] == days[j + 1];
        }
      }
      DaySumsAddUp(filtered, rest, m);
      assert days[0] !in rest by {
        forall k | 0 <= k < |rest| ensures rest[k] != days[0] {
          assert rest[k] == days[k + 1];
        }
      }
      assert forall d :: d in days <==> d == days[0] || d in rest by {
        assert days == [days[0]] + rest;
      }
      SumAdd(filtered,
        (w: Workout) => if w.date == days[0] then Amount(w, m) else 0,
        (w: Workout) => if w.date in rest then Amount(w, m) else 0,
        (w: Workout) => if w.date in days then Amount(w, m) else 0);
    } else {
      // Every term is 0, so the sum equals twice itself.
      var zero := (w: Workout) => if w.date in days then Amount(w, m) else 0;
      SumAdd(filtered, zero, zero, zero);
    }
  }

  /**
   * When the week's seven date strings are distinct, the summaries' duration
   * and calorie totals add up to the sums over the workouts dated within the
   * week.
   */
  lemma WeekTotalsAddUp(filtered: seq<Workout>, days: seq<string>)
    requires |days| == 7 && NoDuplicates(days)
    ensures Sum(DailySummaries(filtered, days), (s: DailySummary) => s.duration) ==
      Sum(filtered, (w: Workout) => if w.date in days then Amount(w, Minutes) else 0)
    ensures Sum(DailySummaries(filtered, days), (s: DailySummary) => s.calories) ==
      Sum(filtered, (w: Workout) => if w.date in days then Amount(w, Kilocalories) else 0)
  {
    var r := DailySummaries(filtered, days);
    SumPointwise(r, (s: DailySummary) => s.duration, days,
      (d: string) => Sum(filtered, (w: Workout) => if w.date == d then Amount(w, Minutes) else 0));
    DaySumsAddUp(filtered, days, Minutes);
    SumPointwise(r, (s: DailySummary) => s.calories, days,
      (d: string) => Sum(filtered, (w: Workout) => if w.date == d then Amount(w, Kilocalories) else 0));
    DaySumsAddUp(filtered, days, Kilocalories);
  }
}
