/**
 * The Week page (client/src/pages/Week.tsx): tasks bucketed by the calendar-date prefix of
 * their planned date, the unplanned list, the week being shown (moved by the Previous,
 * Today and Next buttons and by the arrow keys) and the drag-and-drop that plans a task
 * onto a day. A day's `YYYY-MM-DD` text (from `toISOString`) is passed in by the caller.
 */
module Week {
  import opened Wrappers
  import opened Strings
  import opened Seqs
  import opened TaskTypes
  import opened DateUtils

  /** The update body a drop on a day column sends: that day's text as the planned date, nothing else. */
  function DropUpdate(dayText: string): UpdateInput
  {
    EmptyUpdate.(plannedDate := Given(dayText))
  }

  /** Whether a task's planned date falls on the day with the given `YYYY-MM-DD` text. */
  predicate PlannedOn(t: Task, dayText: string) {
    HasText(t.plannedDate) && DatePart(t.plannedDate.value) == dayText
  }

  /** `getTasksForDay`: the tasks planned on that day, in list order. */
  function TasksForDay(all: seq<Task>, dayText: string): seq<Task> {
    Filter(all, (t: Task) => PlannedOn(t, dayText))
  }

  /** `unplannedTasks`: the tasks with no planned date. */
  function UnplannedTasks(all: seq<Task>): seq<Task> {
    Filter(all, (t: Task) => !HasText(t.plannedDate))
  }

  /** A day's bucket holds exactly the listed tasks planned on that day, in list order. */
  lemma DayBucketSpec(all: seq<Task>, more: seq<Task>, dayText: string)
    ensures forall t :: t in TasksForDay(all, dayText) <==> t in all && PlannedOn(t, dayText)
    ensures TasksForDay(all + more, dayText) == TasksForDay(all, dayText) + TasksForDay(more, dayText)
  {
    FilterConcat(all, more, (t: Task) => PlannedOn(t, dayText));
  }

  /** Buckets of different day texts share no task. */
  lemma BucketsAreDisjoint(all: seq<Task>, a: string, b: string)
    requires a != b
    ensures forall t :: t in TasksForDay(all, a) ==> t !in TasksForDay(all, b)
  {
  }

  /**
   * A listed task is unplanned exactly when it is in no day's bucket; otherwise it is in
   * the bucket of its planned date's calendar day.
   */
  lemma UnplannedIffInNoBucket(all: seq<Task>, t: Task)
    requires t in all
    ensures t in UnplannedTasks(all) <==> forall d :: t !in TasksForDay(all, d)
    ensures t !in UnplannedTasks(all) ==> t in TasksForDay(all, DatePart(t.plannedDate.value))
  {
    if t !in UnplannedTasks(all) {
      assert t in TasksForDay(all, DatePart(t.plannedDate.value));
    }
  }

  /**
   * With a day-text function that tells different days apart, each listed task shows in at
   * most one of the seven columns of a week.
   */
  lemma AtMostOneColumn(all: seq<Task>, week: seq<Day>, dayText: Day -> string, t: Task, i: int, j: int)
    requires forall x: Day, y: Day :: dayText(x) == dayText(y) ==> x == y
    requires |week| == 7 && forall k :: 0 < k < 7 ==> week[k] == week[k - 1] + 1
    requires 0 <= i < 7 && 0 <= j < 7
    requires t in TasksForDay(all, dayText(week[i])) && t in TasksForDay(all, dayText(week[j]))
    ensures i == j
  {
    assert forall k :: 0 <= k < 7 ==> week[k] == week[0] + k by {
      forall k | 0 <= k < 7 ensures week[k] == week[0] + k {
        var n := 0;
        while n < k
          invariant 0 <= n <= k && week[n] == week[0] + n
        {
          n := n + 1;
        }
      }
    }
    assert PlannedOn(t, dayText(week[i])) && PlannedOn(t, dayText(week[j]));
  }

  /** The grid's `isToday`: a column is highlighted when its day is today's calendar day. */
  predicate IsTodayColumn(d: Day, today: Day) {
    d == today
  }

  /**
   * The week shown holds today exactly when it is today's week; then just one of its seven
   * columns is highlighted, today's place counted from Monday, and any other week
   * highlights no column.
   */
  lemma TodayHighlightedOnce(current: Day, today: Day)
    ensures (exists j :: 0 <= j < 7 && IsTodayColumn(WeekOf(current)[j], today)) <==> WeekStart(current) == WeekStart(today)
    ensures WeekStart(current) == WeekStart(today) ==>
              && 0 <= today - WeekStart(current) < 7
              && forall j :: 0 <= j < 7 ==> (IsTodayColumn(WeekOf(current)[j], today) <==> j == today - WeekStart(current))
  {
    WeekStartIsMondayBefore(today);
    forall j | 0 <= j < 7 && IsTodayColumn(WeekOf(current)[j], today)
      ensures WeekStart(current) == WeekStart(today)
    {
      SameWeekSameDates(current, WeekOf(current)[j]);
    }
    if WeekStart(current) == WeekStart(today) {
      assert IsTodayColumn(WeekOf(current)[today - WeekStart(current)], today);
    }
  }

  /** What a key press on the page does. */
  datatype KeyEffect = NoEffect | ShiftWeek(days: int)

  /** The arrow-key handler: ignored in text fields, ArrowLeft/ArrowRight move a week back/forward. */
  function KeyEffectOf(key: string, targetIsTextField: bool): KeyEffect
  {
    if targetIsTextField then NoEffect
    else if key == "ArrowLeft" then ShiftWeek(-7)
    else if key == "ArrowRight" then ShiftWeek(7)
    else NoEffect
  }

  /** The page state the handlers change. */
  class Page {
    var currentWeek: Day
    var draggedTask: Option<Task>

    constructor(today: Day)
      ensures currentWeek == today && draggedTask.None?
    {
      currentWeek := today;
      draggedTask := None;
    }

    /** The Previous button. */
    method Previous()
      modifies this
      ensures currentWeek == old(currentWeek) - 7 && draggedTask == old(draggedTask)
      ensures WeekStart(currentWeek) == WeekStart(old(currentWeek)) - 7
    {
      WeekStartShift(currentWeek);
      currentWeek := currentWeek - 7;
    }

    /** The Next button. */
    method Next()
      modifies this
      ensures currentWeek == old(currentWeek) + 7 && draggedTask == old(draggedTask)
      ensures WeekStart(currentWeek) == WeekStart(old(currentWeek)) + 7
    {
      WeekStartShift(currentWeek);
      currentWeek := currentWeek + 7;
    }

    /** The Today button. */
    method GoToday(today: Day)
      modifies this
      ensures currentWeek == today && draggedTask == old(draggedTask)
    {
      currentWeek := today;
    }

    /**
     * A key press; returns whether the default action was prevented. Only ArrowLeft and
     * ArrowRight outside text fields act, turning to the previous or the next week.
     */
    method KeyPress(key: string, targetIsTextField: bool) returns (prevented: bool)
      modifies this
      ensures draggedTask == old(draggedTask)
      ensures prevented <==> KeyEffectOf(key, targetIsTextField).ShiftWeek?
      ensures currentWeek == old(currentWeek) + (if prevented then KeyEffectOf(key, targetIsTextField).days else 0)
      ensures prevented <==> !targetIsTextField && (key == "ArrowLeft" || key == "ArrowRight")
      ensures !prevented ==> currentWeek == old(currentWeek)
      ensures prevented && key == "ArrowLeft" ==> WeekStart(currentWeek) == WeekStart(old(currentWeek)) - 7
      ensures prevented && key == "ArrowRight" ==> WeekStart(currentWeek) == WeekStart(old(currentWeek)) + 7
    {
      WeekStartShift(currentWeek);
      prevented := false;
      if targetIsTextField {
        return;
      }
      if key == "ArrowLeft" {
        prevented := true;
        currentWeek := currentWeek - 7;
      } else if key == "ArrowRight" {
        prevented := true;
        currentWeek := currentWeek + 7;
      }
    }

    /** `handleDragStart`. */
    method DragStart(task: Task)
      modifies this
      ensures draggedTask == Some(task) && currentWeek == old(currentWeek)
    {
      draggedTask := Some(task);
    }

    /**
     * `handleDrop` on the column of the day with text `dayText`: nothing without a dragged
     * task; otherwise an update that sends only that planned date, and the drag ends.
     */
    method Drop(dayText: string) returns (request: Option<Mutation>)
      modifies this
      ensures old(draggedTask).None? ==> request.None? && draggedTask.None? && currentWeek == old(currentWeek)
      ensures old(draggedTask).Some? ==>
                && request == Some(UpdateTask(old(draggedTask).value.id, DropUpdate(dayText)))
                && draggedTask.None? && currentWeek == old(currentWeek)
    {
      if draggedTask.None? {
        return None;
      }
      request := Some(UpdateTask(draggedTask.value.id, DropUpdate(dayText)));
      draggedTask := None;
    }
  }
}
