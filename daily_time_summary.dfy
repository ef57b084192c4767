/**
 * The daily summary card (client/src/components/DailyTimeSummary.tsx): the estimated minutes
 * of today's tasks in total and split by whether a task has a start time, each shown as
 * hours and minutes, and the number of tasks with and without an estimate.
 */
module DailyTimeSummary {
  import opened Wrappers
  import opened Strings
  import opened Seqs
  import opened JsMath
  import opened TaskTypes
  import opened Durations

  /** The `reduce` of the card: the sum of the estimates, a missing estimate counting as 0. */
  function SumEstimates(tasks: seq<Task>): int {
    if |tasks| == 0 then 0 else AmountOrZero(tasks[0].timeEstimate) + SumEstimates(tasks[1..])
  }

  lemma SumCons(t: Task, rest: seq<Task>)
    ensures SumEstimates([t] + rest) == AmountOrZero(t.timeEstimate) + SumEstimates(rest)
  {
    assert ([t] + rest)[1..] == rest;
  }

  /** Splitting the tasks by a predicate and its negation splits the sum. */
  lemma {:induction false} SumSplits(tasks: seq<Task>, p: Task -> bool, q: Task -> bool)
    requires forall x :: q(x) == !p(x)
    ensures SumEstimates(Filter(tasks, p)) + SumEstimates(Filter(tasks, q)) == SumEstimates(tasks)
  {
    if |tasks| > 0 {
      SumSplits(tasks[1..], p, q);
      if p(tasks[0]) {
        assert Filter(tasks, p) == [tasks[0]] + Filter(tasks[1..], p);
        assert Filter(tasks, q) == Filter(tasks[1..], q) by {
          assert Filter(tasks, q) == [] + Filter(tasks[1..], q);
        }
        SumCons(tasks[0], Filter(tasks[1..], p));
      } else {
        assert Filter(tasks, q) == [tasks[0]] + Filter(tasks[1..], q);
        assert Filter(tasks, p) == Filter(tasks[1..], p) by {
          assert Filter(tasks, p) == [] + Filter(tasks[1..], p);
        }
        SumCons(tasks[0], Filter(tasks[1..], q));
      }
    }
  }

  /** With no negative estimate the sum is not negative. */
  lemma {:induction false} SumNonNegative(tasks: seq<Task>)
    requires forall t :: t in tasks ==> AmountOrZero(t.timeEstimate) >= 0
    ensures SumEstimates(tasks) >= 0
  {
    if |tasks| > 0 {
      assert tasks[0] in tasks;
      SumNonNegative(tasks[1..]);
    }
  }

  function ScheduledTasks(tasks: seq<Task>): seq<Task> {
    Filter(tasks, (t: Task) => HasText(t.startTime))
  }

  function UnscheduledTasks(tasks: seq<Task>): seq<Task> {
    Filter(tasks, (t: Task) => !HasText(t.startTime))
  }

  /**
   * Every task is either scheduled or unscheduled by start-time presence, so the two sums
   * add up to the total.
   */
  lemma ScheduledPlusUnscheduled(tasks: seq<Task>)
    ensures SumEstimates(ScheduledTasks(tasks)) + SumEstimates(UnscheduledTasks(tasks)) == SumEstimates(tasks)
    ensures |ScheduledTasks(tasks)| + |UnscheduledTasks(tasks)| == |tasks|
  {
    SumSplits(tasks, (t: Task) => HasText(t.startTime), (t: Task) => !HasText(t.startTime));
    FilterComplement(tasks, (t: Task) => HasText(t.startTime), (t: Task) => !HasText(t.startTime));
  }

  /** `tasksWithEstimates`: the tasks whose estimate is present and not 0. */
  function TasksWithEstimates(tasks: seq<Task>): nat {
    |Filter(tasks, (t: Task) => HasAmount(t.timeEstimate))|
  }

  /** `tasksWithoutEstimates`, computed as the remainder of the count. */
  function TasksWithoutEstimates(tasks: seq<Task>): int {
    |tasks| - TasksWithEstimates(tasks)
  }

  /** The remainder is exactly the number of tasks whose estimate is missing or 0. */
  lemma EstimateCounts(tasks: seq<Task>)
    ensures TasksWithoutEstimates(tasks) == |Filter(tasks, (t: Task) => !HasAmount(t.timeEstimate))|
    ensures 0 <= TasksWithoutEstimates(tasks) <= |tasks|
  {
    FilterComplement(tasks, (t: Task) => HasAmount(t.timeEstimate), (t: Task) => !HasAmount(t.timeEstimate));
  }

  /** The hours/minutes split of the card: `Math.floor(n / 60)` and `n % 60`. */
  lemma SplitIsHoursAndMinutes(minutes: int)
    requires minutes >= 0
    ensures Floor(minutes, 60) * 60 + Rem(minutes, 60) == minutes
    ensures 0 <= Rem(minutes, 60) < 60 && Floor(minutes, 60) >= 0
  {
    SplitNonNegative(minutes, 60);
  }

  /** `formatTime(hrs, mins)`. */
  function FormatTime(hrs: int, mins: int): string {
    if hrs > 0 && mins > 0 then IntText(hrs) + "h " + IntText(mins) + "m"
    else if hrs > 0 then IntText(hrs) + "h"
    else IntText(mins) + "m"
  }

  /** The total line: formatted when its hours or minutes are positive, "0m" otherwise. */
  function TotalDisplay(total: int): string {
    var hours, minutes := Floor(total, 60), Rem(total, 60);
    if hours > 0 || minutes > 0 then FormatTime(hours, minutes) else "0m"
  }

  /** The scheduled and unscheduled lines: formatted when the minutes are positive, "0m" otherwise. */
  function PartDisplay(minutes: int): string {
    if minutes > 0 then FormatTime(Floor(minutes, 60), Rem(minutes, 60)) else "0m"
  }

  /** The two guards agree for every integer, so all three lines show a value the same way. */
  lemma DisplaysAgree(minutes: int)
    ensures (Floor(minutes, 60) > 0 || Rem(minutes, 60) > 0) <==> minutes > 0
    ensures TotalDisplay(minutes) == PartDisplay(minutes)
  {
    if minutes >= 0 {
      SplitNonNegative(minutes, 60);
    } else {
      FloorIsGreatestBelow(minutes, 60);
      assert Rem(minutes, 60) <= 0;
    }
  }

  lemma DigitsOfNatText(n: nat)
    ensures Digits(NatText(n)) == Some(n)
  {
    NatTextRoundTrip(n);
  }

  /** A formatted split of non-negative hours and minutes reads back as `hrs * 60 + mins`. */
  lemma FormatTimeRoundTrip(hrs: nat, mins: nat)
    ensures ParseDuration(FormatTime(hrs, mins)) == Some(hrs * 60 + mins)
  {
    DigitsOfNatText(hrs);
    DigitsOfNatText(mins);
    if hrs > 0 && mins > 0 {
      ReadHoursMinutes(NatText(hrs), NatText(mins), hrs, mins);
    } else if hrs > 0 {
      ReadHours(NatText(hrs), hrs);
    } else {
      ReadMinutes(NatText(mins), mins);
    }
  }

  /** A displayed line reads back as its minutes, 0 for "0m". */
  lemma DisplayRoundTrip(minutes: int)
    requires minutes >= 0
    ensures ParseDuration(PartDisplay(minutes)) == Some(minutes)
    ensures ParseDuration(TotalDisplay(minutes)) == Some(minutes)
  {
    DisplaysAgree(minutes);
    PartDisplayRoundTrip(minutes);
  }

  lemma PartDisplayRoundTrip(minutes: int)
    requires minutes >= 0
    ensures ParseDuration(PartDisplay(minutes)) == Some(minutes)
  {
    if minutes == 0 {
      ZeroRoundTrip();
    } else {
      SplitNonNegative(minutes, 60);
      var text := FormatTime(Floor(minutes, 60), Rem(minutes, 60));
      assert PartDisplay(minutes) == text;
      FormatTimeRoundTrip(Floor(minutes, 60), Rem(minutes, 60));
    }
  }

  lemma ZeroRoundTrip()
    ensures ParseDuration("0m") == Some(0)
  {
    FormatTimeRoundTrip(0, 0);
    assert FormatTime(0, 0) == "0m";
  }

  /** The three lines of the card as shown. */
  datatype Summary = Summary(total: string, scheduled: string, unscheduled: string,
                             count: nat, estimated: nat, notEstimated: int)

  function SummaryOf(tasks: seq<Task>): Summary {
    Summary(TotalDisplay(SumEstimates(tasks)),
            PartDisplay(SumEstimates(ScheduledTasks(tasks))),
            PartDisplay(SumEstimates(UnscheduledTasks(tasks))),
            |tasks|, TasksWithEstimates(tasks), TasksWithoutEstimates(tasks))
  }

  /**
   * With no negative estimate, what the card shows is consistent: the scheduled and the
   * unscheduled line read back to minutes that add up to the total line, and the two task
   * counts add up to the number of tasks.
   */
  lemma SummaryIsConsistent(tasks: seq<Task>)
    requires forall t :: t in tasks ==> AmountOrZero(t.timeEstimate) >= 0
    ensures var s := SummaryOf(tasks);
            && ParseDuration(s.scheduled).Some? && ParseDuration(s.unscheduled).Some? && ParseDuration(s.total).Some?
            && ParseDuration(s.scheduled).value + ParseDuration(s.unscheduled).value == ParseDuration(s.total).value
            && s.estimated + s.notEstimated == s.count
  {
    ScheduledPlusUnscheduled(tasks);
    SumNonNegative(ScheduledTasks(tasks));
    SumNonNegative(UnscheduledTasks(tasks));
    SumNonNegative(tasks);
    DisplayRoundTrip(SumEstimates(tasks));
    DisplayRoundTrip(SumEstimates(ScheduledTasks(tasks)));
    DisplayRoundTrip(SumEstimates(UnscheduledTasks(tasks)));
  }
}
