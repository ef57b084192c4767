/**
 * The daily timeline (client/src/components/Timeline.tsx): reading `HH:MM` start times,
 * pairwise overlap of scheduled tasks as half-open minute intervals, the per-task conflict
 * flag, the hour span of a task, and the block geometry (top offset, height with its
 * duration-dependent floor, compact rendering) on a window hard-coded to start at 08:00.
 */
module Timeline {
  import opened Wrappers
  import opened Strings
  import opened Seqs
  import opened JsMath
  import opened TaskTypes

  /** A clock time as the source reads it from a `HH:MM` text. */
  datatype Clock = Clock(hour: nat, minute: nat)

  /**
   * `text.split(':')` followed by `Number` on the first two pieces. A text without a colon
   * has no minute piece and gives None, standing for NaN; an empty piece reads as 0, as
   * `Number("")` does; a piece of decimal digits reads as its value, and any other piece
   * gives None.
   */
  function ParseClock(text: string): Option<Clock> {
    match After(text, ':')
    case None => None
    case Some(rest) =>
      var h := Before(text, ':');
      var m := Before(rest, ':');
      if AllDigits(h) && AllDigits(m) then Some(Clock(ParseNat(h), ParseNat(m))) else None
  }

  /**
   * Both pieces `parseInt` reads are non-empty: the start times `getTaskSpan` can read
   * (`parseInt("")` is NaN, unlike `Number("")`).
   */
  predicate PiecesNonEmpty(text: string) {
    match After(text, ':')
    case None => false
    case Some(rest) => Before(text, ':') != [] && Before(rest, ':') != []
  }

  /** The `HH:MM` text of a clock time, each part padded to two digits. */
  function ClockText(h: nat, m: nat): string {
    Pad2(NatText(h)) + ":" + Pad2(NatText(m))
  }

  /** Two digit groups joined by a colon read as that hour and minute; an empty group reads as 0. */
  lemma ReadClock(a: string, b: string)
    requires AllDigits(a) && AllDigits(b)
    ensures ParseClock(a + [':'] + b) == Some(Clock(ParseNat(a), ParseNat(b)))
    ensures PiecesNonEmpty(a + [':'] + b) <==> a != [] && b != []
  {
    DigitsHaveNo(a, ':');
    DigitsHaveNo(b, ':');
    SplitAtFirst(a, ':', b);
    BeforeAbsent(b, ':');
  }

  /** Reading a formatted clock time gives back its hour and minute. */
  lemma ClockTextRoundTrip(h: nat, m: nat)
    ensures ParseClock(ClockText(h, m)) == Some(Clock(h, m))
    ensures PiecesNonEmpty(ClockText(h, m))
  {
    Pad2NatText(h);
    Pad2NatText(m);
    ReadClock(Pad2(NatText(h)), Pad2(NatText(m)));
  }

  /**
   * A start time with an empty minute piece still has a minute of the day: `"9:"` starts at
   * 09:00, so such a task can overlap others.
   */
  lemma EmptyMinuteReadsAsZero(a: string)
    requires AllDigits(a)
    ensures StartOf(a + [':']) == Some(ParseNat(a) * 60)
  {
    var e: string := [];
    DigitsHaveNo(a, ':');
    SplitAtFirst(a, ':', e);
    assert a + [':'] + e == a + [':'];
    assert Before(e, ':') == e && AllDigits(e) && ParseNat(e) == 0;
    assert ParseClock(a + [':']) == Some(Clock(ParseNat(a), 0));
  }

  /** An empty hour piece reads as hour 0: `":30"` starts at 00:30. */
  lemma EmptyHourReadsAsZero(a: string)
    requires AllDigits(a)
    ensures StartOf([':'] + a) == Some(ParseNat(a))
  {
    var e: string := [];
    assert [':'] + a == e + [':'] + a;
    ReadClock(e, a);
    var c := ParseClock([':'] + a).value;
    assert c.hour == 0 && c.minute == ParseNat(a);
  }

  /** Minute of the day, `h * 60 + m`, of a start-time text; None (NaN) when it does not parse. */
  function StartOf(text: string): Option<int> {
    match ParseClock(text)
    case Some(c) => Some(c.hour * 60 + c.minute)
    case None => None
  }

  /**
   * Whether a task's start time text is one the layout can read: two non-empty digit groups
   * (an empty or missing start time is fine).
   */
  predicate WellFormedStart(t: Task) {
    !HasText(t.startTime) || (ParseClock(t.startTime.value).Some? && PiecesNonEmpty(t.startTime.value))
  }

  /** A task with a readable start time and a non-zero estimate: one that occupies an interval. */
  predicate Scheduled(t: Task) {
    HasText(t.startTime) && HasAmount(t.timeEstimate) && StartOf(t.startTime.value).Some?
  }

  function StartMinute(t: Task): int
    requires Scheduled(t)
  {
    StartOf(t.startTime.value).value
  }

  function EndMinute(t: Task): int
    requires Scheduled(t)
  {
    StartMinute(t) + t.timeEstimate.value
  }

  /** `tasksOverlap`: false unless both tasks have a start time and a non-zero estimate. */
  predicate TasksOverlap(a: Task, b: Task) {
    if !HasText(a.startTime) || !HasText(b.startTime) || !HasAmount(a.timeEstimate) || !HasAmount(b.timeEstimate) then
      false
    else
      match (StartOf(a.startTime.value), StartOf(b.startTime.value))
      case (Some(start1), Some(start2)) =>
        var end1 := start1 + a.timeEstimate.value;
        var end2 := start2 + b.timeEstimate.value;
        start1 < end2 && start2 < end1
      case _ => false // a NaN start makes both comparisons false
  }

  /** Task `t` occupies minute `m` of the day: `m` lies in `[start, start + estimate)`. */
  predicate Covers(t: Task, m: int)
    requires Scheduled(t)
  {
    StartMinute(t) <= m < EndMinute(t)
  }

  /** Overlap does not depend on the order of the two tasks. */
  lemma OverlapSymmetric(a: Task, b: Task)
    ensures TasksOverlap(a, b) == TasksOverlap(b, a)
  {
  }

  /**
   * For positive estimates, two tasks overlap exactly when some minute of the day is covered
   * by both half-open intervals.
   */
  lemma OverlapIsSharedMinute(a: Task, b: Task)
    requires Scheduled(a) && Scheduled(b)
    requires a.timeEstimate.value > 0 && b.timeEstimate.value > 0
    ensures TasksOverlap(a, b) <==> exists m :: Covers(a, m) && Covers(b, m)
  {
    if TasksOverlap(a, b) {
      var m := if StartMinute(a) < StartMinute(b) then StartMinute(b) else StartMinute(a);
      assert Covers(a, m) && Covers(b, m);
    }
  }

  /** A task that ends exactly when another starts does not overlap it, in either order. */
  lemma BackToBackDoNotOverlap(a: Task, b: Task)
    requires Scheduled(a) && Scheduled(b)
    requires EndMinute(a) == StartMinute(b)
    ensures !TasksOverlap(a, b) && !TasksOverlap(b, a)
  {
  }

  /**
   * The boundary cases at 09:30: a 30-minute task from 09:00 ends as the other starts and
   * does not overlap it, while a 2-minute task from 09:29 shares the minute 09:30 with it and does.
   */
  lemma BoundaryAtHalfPast(a: Task, b: Task, c: Task)
    requires a.startTime == Some(ClockText(9, 0)) && a.timeEstimate == Some(30)
    requires b.startTime == Some(ClockText(9, 29)) && b.timeEstimate == Some(2)
    requires c.startTime == Some(ClockText(9, 30)) && c.timeEstimate == Some(30)
    ensures !TasksOverlap(a, c)
    ensures TasksOverlap(b, c)
  {
    ClockTextRoundTrip(9, 0);
    ClockTextRoundTrip(9, 29);
    ClockTextRoundTrip(9, 30);
  }

  /** A task without a start time, or whose estimate is missing or 0, overlaps nothing. */
  lemma UnplacedOverlapsNothing(a: Task, b: Task)
    requires !HasText(a.startTime) || !HasAmount(a.timeEstimate)
    ensures !TasksOverlap(a, b) && !TasksOverlap(b, a)
  {
  }

  /** `getOverlappingTasks`: the other tasks (by id) of `all` that overlap `task`. */
  function OverlappingTasks(task: Task, all: seq<Task>): seq<Task> {
    Filter(all, (u: Task) => u.id != task.id && TasksOverlap(task, u))
  }

  /** The conflict flag of the timeline: some other task overlaps this one. */
  predicate IsOverlapping(task: Task, all: seq<Task>) {
    |OverlappingTasks(task, all)| > 0
  }

  /**
   * A task is flagged exactly when a task of the list with a different id overlaps it; in
   * particular no task is ever reported as overlapping itself.
   */
  lemma FlagIffConflict(task: Task, all: seq<Task>)
    ensures IsOverlapping(task, all) <==> exists u :: u in all && u.id != task.id && TasksOverlap(task, u)
    ensures task !in OverlappingTasks(task, all)
  {
    var r := OverlappingTasks(task, all);
    if |r| > 0 {
      assert r[0] in r;
    }
    if u :| u in all && u.id != task.id && TasksOverlap(task, u) {
      assert u in r;
    }
  }

  /** Conflicts are mutual: when one of two listed tasks overlaps the other, both are flagged. */
  lemma ConflictIsMutual(a: Task, b: Task, all: seq<Task>)
    requires a in all && b in all && a.id != b.id
    requires TasksOverlap(a, b)
    ensures a in OverlappingTasks(b, all) && b in OverlappingTasks(a, all)
    ensures IsOverlapping(a, all) && IsOverlapping(b, all)
  {
    OverlapSymmetric(a, b);
    FlagIffConflict(a, all);
    FlagIffConflict(b, all);
  }

  /** The timeline's `scheduledTasks`: the tasks that have a start time (an estimate is not required). */
  function ScheduledTasks(tasks: seq<Task>): seq<Task> {
    Filter(tasks, (t: Task) => HasText(t.startTime))
  }

  /** The result of `getTaskSpan`. */
  datatype Span = Span(startHour: nat, startMinute: nat, hoursSpanned: int, totalMinutes: int)

  /**
   * `getTaskSpan`: null unless the task has both a start time and a non-zero estimate;
   * otherwise the parsed start, the estimate and the number of clock hours `ceil((minute + estimate) / 60)`.
   */
  function TaskSpan(t: Task): (r: Option<Span>)
    requires WellFormedStart(t)
    ensures r.None? <==> !HasText(t.startTime) || !HasAmount(t.timeEstimate)
    ensures r.Some? ==> ParseClock(t.startTime.value) == Some(Clock(r.value.startHour, r.value.startMinute))
    ensures r.Some? ==> r.value.totalMinutes == t.timeEstimate.value
    ensures r.Some? ==> (r.value.hoursSpanned - 1) * 60 < r.value.startMinute + r.value.totalMinutes <= r.value.hoursSpanned * 60
  {
    if !HasText(t.startTime) || !HasAmount(t.timeEstimate) then
      None
    else
      var c := ParseClock(t.startTime.value).value;
      var total := t.timeEstimate.value;
      CeilIsLeastCover(c.minute + total, 60);
      Some(Span(c.hour, c.minute, Ceil(c.minute + total, 60), total))
  }

  /** Height in pixels of one hour row. */
  const HourHeight: real := 64.0

  /** The hour `ScheduledTask` measures offsets from; it does not follow the settings. */
  const WindowStartHour: int := 8

  /** The geometry of a rendered task block. */
  datatype Block = Block(top: real, height: real, isTiny: bool)

  function Max(a: real, b: real): real {
    if a >= b then a else b
  }

  /** `topPosition`: hours since 08:00 plus the minute fraction, in pixels; not clipped to the window. */
  function TopPosition(s: Span): real {
    (s.startHour as int - WindowStartHour) as real * HourHeight + s.startMinute as real / 60.0 * HourHeight
  }

  /** The proportional height of a block of `minutes`. */
  function ProportionalHeight(minutes: int): real {
    minutes as real / 60.0 * HourHeight
  }

  /** `height`: the proportional height, floored at 28 for tasks of at most 15 minutes and at 40 otherwise. */
  function BlockHeight(minutes: int): real {
    if minutes <= 15 then Max(ProportionalHeight(minutes), 28.0) else Max(ProportionalHeight(minutes), 40.0)
  }

  /** The compact (`isTiny`) threshold. */
  predicate IsTiny(height: real) {
    height < 45.0
  }

  /** The block `ScheduledTask` renders for a task, or None when it renders nothing. */
  function BlockOf(t: Task): Option<Block>
    requires WellFormedStart(t)
  {
    match TaskSpan(t)
    case None => None
    case Some(s) => Some(Block(TopPosition(s), BlockHeight(s.totalMinutes), IsTiny(BlockHeight(s.totalMinutes))))
  }

  /**
   * The top offset is the number of minutes since 08:00 at 64/60 pixels a minute, so it is
   * negative for a task that starts before 08:00 and 0 for one that starts at 08:00.
   */
  lemma TopTracksMinutesSinceEight(t: Task)
    requires WellFormedStart(t) && BlockOf(t).Some?
    ensures Scheduled(t)
    ensures BlockOf(t).value.top == (StartMinute(t) - 480) as real * 64.0 / 60.0
    ensures StartMinute(t) < 480 ==> BlockOf(t).value.top < 0.0
    ensures StartMinute(t) == 480 ==> BlockOf(t).value.top == 0.0
  {
    var s := TaskSpan(t).value;
    assert StartMinute(t) == s.startHour * 60 + s.startMinute;
  }

  /**
   * The height is never below the proportional height nor below 28; a task longer than
   * 15 minutes is at least 40 high, and from 38 minutes on the height is exactly proportional.
   */
  lemma HeightFloors(minutes: int)
    ensures BlockHeight(minutes) >= ProportionalHeight(minutes)
    ensures BlockHeight(minutes) >= 28.0
    ensures minutes > 15 ==> BlockHeight(minutes) >= 40.0
    ensures minutes >= 38 ==> BlockHeight(minutes) == ProportionalHeight(minutes)
    ensures minutes <= 15 ==> BlockHeight(minutes) == 28.0
  {
  }

  /** A block is rendered compact exactly when its estimate is at most 42 minutes. */
  lemma TinyIffAtMost42(minutes: int)
    ensures IsTiny(BlockHeight(minutes)) <==> minutes <= 42
  {
    if minutes > 15 {
      assert ProportionalHeight(minutes) == minutes as real * 16.0 / 15.0;
      if minutes >= 43 {
        assert minutes as real >= 43.0;
      }
    }
  }

  /** The hour rows of the timeline: `Array.from({length: 10}, (_, i) => i + 8)`. */
  function Hours(): seq<int> {
    seq(10, i => i + 8)
  }

  /** The `timeSlot` text a row passes to a drop: the hour padded to two digits, then `:00`. */
  function SlotLabel(hour: nat): string {
    Pad2(NatText(hour)) + ":00"
  }

  /** Digits followed by `:00` read as the top of that hour. */
  lemma ReadTopOfHour(a: string)
    requires a != [] && AllDigits(a)
    ensures ParseClock(a + ":00") == Some(Clock(ParseNat(a), 0))
    ensures PiecesNonEmpty(a + ":00")
  {
    assert a + ":00" == a + [':'] + "00";
    assert ParseNat("00") == 0 by {
      assert "00"[..1] == "0";
    }
    ReadClock(a, "00");
  }

  /** A slot label is a start time for the top of its hour. */
  lemma SlotLabelIsHourStart(hour: nat)
    ensures ParseClock(SlotLabel(hour)) == Some(Clock(hour, 0))
    ensures StartOf(SlotLabel(hour)) == Some(hour * 60)
  {
    Pad2NatText(hour);
    ReadTopOfHour(Pad2(NatText(hour)));
  }

  /**
   * Row `i` of the 640-pixel timeline is hour `i + 8`: a drop on it starts a task at minute
   * `480 + 60 i` of the day, and a block starting at the top of that hour is drawn `64 i`
   * pixels down, level with the row.
   */
  lemma RowsAreTheWindowHours(i: int, hoursSpanned: int, totalMinutes: int)
    requires 0 <= i < |Hours()|
    ensures |Hours()| as real * HourHeight == 640.0
    ensures Hours()[i] == i + 8
    ensures StartOf(SlotLabel(i + 8)) == Some(480 + 60 * i)
    ensures TopPosition(Span(i + 8, 0, hoursSpanned, totalMinutes)) == i as real * HourHeight
  {
    SlotLabelIsHourStart(i + 8);
  }

  function FormatHour(hour: nat): string {
    if hour == 12 then "12 PM"
    else if hour == 0 then "12 AM"
    else if hour > 12 then NatText(hour - 12) + " PM"
    else NatText(hour) + " AM"
  }

  /** Reads an `h AM` / `h PM` label back into a 24-hour hour. */
  function ParseHourLabel(text: string): Option<nat> {
    var num := Before(text, ' ');
    if num == [] || !AllDigits(num) then None
    else
      var n := ParseNat(num);
      match After(text, ' ')
      case Some(suffix) =>
        if suffix == "AM" then Some(if n == 12 then 0 else n)
        else if suffix == "PM" then Some(if n == 12 then 12 else n + 12)
        else None
      case None => None
  }

  /** A number, a space and a suffix read as the hour the suffix puts the number in. */
  lemma ReadHourLabel(num: string, suffix: string)
    requires num != [] && AllDigits(num)
    ensures suffix == "AM" ==> ParseHourLabel(num + [' '] + suffix) == Some(if ParseNat(num) == 12 then 0 else ParseNat(num))
    ensures suffix == "PM" ==> ParseHourLabel(num + [' '] + suffix) == Some(if ParseNat(num) == 12 then 12 else ParseNat(num) + 12)
  {
    DigitsHaveNo(num, ' ');
    SplitAtFirst(num, ' ', suffix);
  }

  /** Every hour of the day has its own label: reading the label back gives the hour. */
  lemma FormatHourRoundTrip(hour: nat)
    requires hour < 24
    ensures ParseHourLabel(FormatHour(hour)) == Some(hour)
  {
    var n: nat := if hour == 0 || hour == 12 then 12 else if hour > 12 then hour - 12 else hour;
    var suffix := if hour >= 12 then "PM" else "AM";
    assert NatText(12) == "12" by {
      assert NatText(1) == "1" && NatText(2) == "2";
    }
    assert FormatHour(hour) == NatText(n) + [' '] + suffix;
    NatTextRoundTrip(n);
    ReadHourLabel(NatText(n), suffix);
  }

  /** What the overlay layer draws for one start-timed task. */
  datatype Placement = Placement(task: Task, isOverlapping: bool, block: Option<Block>)

  /** The task overlays of `Timeline`: one placement per start-timed task, in list order. */
  function Overlay(tasks: seq<Task>): seq<Placement>
    requires forall t :: t in tasks ==> WellFormedStart(t)
  {
    var scheduled := ScheduledTasks(tasks);
    seq(|scheduled|, i requires 0 <= i < |scheduled| =>
      Placement(scheduled[i], IsOverlapping(scheduled[i], scheduled), BlockOf(scheduled[i])))
  }

  /**
   * The overlay holds one placement for each start-timed task; a placement is flagged exactly
   * when another start-timed task overlaps it, and has no block exactly when its estimate is
   * missing or 0.
   */
  lemma OverlayFlagsConflicts(tasks: seq<Task>, i: int)
    requires forall t :: t in tasks ==> WellFormedStart(t)
    requires 0 <= i < |ScheduledTasks(tasks)|
    ensures |Overlay(tasks)| == |ScheduledTasks(tasks)|
    ensures Overlay(tasks)[i].task in tasks && HasText(Overlay(tasks)[i].task.startTime)
    ensures Overlay(tasks)[i].isOverlapping <==>
              exists u :: u in tasks && HasText(u.startTime) && u.id != Overlay(tasks)[i].task.id
                       && TasksOverlap(Overlay(tasks)[i].task, u)
    ensures Overlay(tasks)[i].block.None? <==> !HasAmount(Overlay(tasks)[i].task.timeEstimate)
  {
    var scheduled := ScheduledTasks(tasks);
    var t := scheduled[i];
    assert t in scheduled;
    FlagIffConflict(t, scheduled);
  }
}
