/**
 * The Today page (client/src/pages/Today.tsx): which tasks are planned for today and which
 * of them still lack a start time, the page's own Pomodoro session record (replaced and
 * updated by the timer handlers and by the interval tick), the time credit the page asks the
 * server to add to a task, and the requests sent by drag-and-drop and "remove from today".
 */
module Today {
  import opened Wrappers
  import opened Strings
  import opened Seqs
  import opened JsMath
  import opened TaskTypes
  import opened Timeline

  /** Length of one session in seconds. */
  const SessionSeconds: int := 1500

  /**
   * `isToday`: a missing or empty date is never today; otherwise the calendar day of the
   * stored date (the text before its first `T`) must equal today's `YYYY-MM-DD` text.
   */
  predicate IsToday(dateText: Option<string>, today: string) {
    HasText(dateText) && DatePart(dateText.value) == today
  }

  /**
   * A missing or empty date is never today; a stored date with a time of day is today
   * exactly when its calendar-day text is today's, whatever the time.
   */
  lemma IsTodayComparesCalendarDay(day: string, time: string, today: string)
    requires 'T' !in day
    ensures !IsToday(None, today) && !IsToday(Some(""), today)
    ensures day != "" ==> (IsToday(Some(day + ['T'] + time), today) <==> day == today)
    ensures IsToday(Some(day), today) <==> day != "" && day == today
  {
    SplitAtFirst(day, 'T', time);
    BeforeAbsent(day, 'T');
  }

  /** `todayTasks`: the tasks planned for today, in list order. */
  function TodayTasks(tasks: seq<Task>, today: string): seq<Task> {
    Filter(tasks, (t: Task) => IsToday(t.plannedDate, today))
  }

  /** The unscheduled column: today's tasks without a start time. */
  function Unscheduled(todayTasks: seq<Task>): seq<Task> {
    Filter(todayTasks, (t: Task) => !HasText(t.startTime))
  }

  /** Whether the "All tasks scheduled!" note is shown. */
  predicate AllScheduled(todayTasks: seq<Task>) {
    |Unscheduled(todayTasks)| == 0
  }

  /**
   * Today's tasks are split between the unscheduled column and the timeline: every task of
   * today lies in exactly one of the two, and the two counts add up to today's count.
   */
  lemma ColumnsPartitionToday(tasks: seq<Task>, today: string)
    ensures forall t :: t in TodayTasks(tasks, today) <==> t in tasks && IsToday(t.plannedDate, today)
    ensures forall t :: t in Unscheduled(TodayTasks(tasks, today)) ==> t !in ScheduledTasks(TodayTasks(tasks, today))
    ensures forall t :: t in TodayTasks(tasks, today) ==>
              t in Unscheduled(TodayTasks(tasks, today)) || t in ScheduledTasks(TodayTasks(tasks, today))
    ensures |Unscheduled(TodayTasks(tasks, today))| + |ScheduledTasks(TodayTasks(tasks, today))| == |TodayTasks(tasks, today)|
    ensures AllScheduled(TodayTasks(tasks, today)) <==> forall t :: t in TodayTasks(tasks, today) ==> HasText(t.startTime)
  {
    var tt := TodayTasks(tasks, today);
    FilterComplement(tt, (t: Task) => HasText(t.startTime), (t: Task) => !HasText(t.startTime));
    if !AllScheduled(tt) {
      assert Unscheduled(tt)[0] in Unscheduled(tt);
    }
  }

  /** Today's list of a concatenation is today's list of each part, in order. */
  lemma TodayTasksKeepsOrder(a: seq<Task>, b: seq<Task>, today: string)
    ensures TodayTasks(a + b, today) == TodayTasks(a, today) + TodayTasks(b, today)
  {
    FilterConcat(a, b, (t: Task) => IsToday(t.plannedDate, today));
  }

  /** `tasks.find(t => t.id === id)`: the first task with that id. */
  function FindTask(tasks: seq<Task>, id: string): (r: Option<Task>)
    ensures r.None? <==> forall t :: t in tasks ==> t.id != id
    ensures r.Some? ==> exists i :: 0 <= i < |tasks| && tasks[i] == r.value && r.value.id == id
                                    && forall j :: 0 <= j < i ==> tasks[j].id != id
  {
    if |tasks| == 0 then None
    else if tasks[0].id == id then Some(tasks[0])
    else
      var r := FindTask(tasks[1..], id);
      if r.Some? then
        var i :| 0 <= i < |tasks[1..]| && tasks[1..][i] == r.value && r.value.id == id
                 && forall j :: 0 <= j < i ==> tasks[1..][j].id != id;
        assert tasks[i + 1] == r.value;
        r
      else
        assert forall t :: t in tasks ==> t == tasks[0] || t in tasks[1..];
        r
  }

  /** The minutes already recorded on the task with that id: its `actualTime`, with null (or no such task) as 0. */
  function LoggedMinutes(tasks: seq<Task>, id: string): int {
    match FindTask(tasks, id)
    case Some(t) => AmountOrZero(t.actualTime)
    case None => 0
  }

  /** The update the page sends to add `minutes` to a task's recorded time. */
  function CreditRequest(tasks: seq<Task>, id: string, minutes: int): Mutation
  {
    UpdateTask(id, EmptyUpdate.(actualTime := Given(LoggedMinutes(tasks, id) + minutes)))
  }

  /**
   * The credit lands on the first listed task with that id and adds to what it has; a task
   * with no recorded time (or one the page does not list) starts from 0.
   */
  lemma CreditAddsToFirstMatch(tasks: seq<Task>, i: int, minutes: int)
    requires 0 <= i < |tasks|
    requires forall j :: 0 <= j < i ==> tasks[j].id != tasks[i].id
    ensures CreditRequest(tasks, tasks[i].id, minutes).data.actualTime == Given(AmountOrZero(tasks[i].actualTime) + minutes)
    ensures tasks[i].actualTime.None? ==> CreditRequest(tasks, tasks[i].id, minutes).data.actualTime == Given(minutes)
  {
    var r := FindTask(tasks, tasks[i].id);
    var k :| 0 <= k < |tasks| && tasks[k] == r.value && r.value.id == tasks[i].id
             && forall j :: 0 <= j < k ==> tasks[j].id != tasks[i].id;
    assert k == i;
  }

  /** The page's session record. */
  datatype Session = Session(task: Task, timeLeft: int, isRunning: bool, totalTimeSpent: int)

  /** Seconds a session has used: this countdown's elapsed seconds plus the earlier total. */
  function SecondsSpent(s: Session): int {
    SessionSeconds - s.timeLeft + s.totalTimeSpent
  }

  /** The credit `handleStopTimer` asks for: none without a session or when nothing was spent. */
  function StopRequest(session: Option<Session>, tasks: seq<Task>): Option<Mutation> {
    if session.Some? && SecondsSpent(session.value) > 0 then
      Some(CreditRequest(tasks, session.value.task.id, Ceil(SecondsSpent(session.value), 60)))
    else
      None
  }

  /**
   * Stopping credits exactly when some time was spent, and then the whole minutes covering
   * the spent seconds (at least 1, never more than one minute too many).
   */
  lemma StopCreditsSpentMinutes(session: Option<Session>, tasks: seq<Task>)
    ensures StopRequest(session, tasks).Some? <==> session.Some? && SecondsSpent(session.value) > 0
    ensures StopRequest(session, tasks).Some? ==>
              var s := session.value;
              var m := Ceil(SecondsSpent(s), 60);
              && StopRequest(session, tasks).value == CreditRequest(tasks, s.task.id, m)
              && m >= 1 && (m - 1) * 60 < SecondsSpent(s) <= m * 60
  {
    if session.Some? && SecondsSpent(session.value) > 0 {
      CeilIsLeastCover(SecondsSpent(session.value), 60);
    }
  }

  /** The minutes the page's own tick credits when a countdown runs out: a full session plus the earlier total. */
  function TickCredit(s: Session): int {
    Ceil(SessionSeconds + s.totalTimeSpent, 60)
  }

  /** What one second of the page's interval leaves of the session, and the credit it asks for. */
  datatype TickOutcome = TickOutcome(session: Option<Session>, credit: Option<int>)

  /**
   * The interval's updater: only a running session with time left changes. Its countdown
   * drops by one; when that reaches 0 the session ends and the tick credit is asked for.
   */
  function PageTick(a: Option<Session>): TickOutcome {
    if a.Some? && a.value.isRunning && a.value.timeLeft > 0 then
      if a.value.timeLeft - 1 <= 0 then TickOutcome(None, Some(TickCredit(a.value)))
      else TickOutcome(Some(a.value.(timeLeft := a.value.timeLeft - 1)), None)
    else
      TickOutcome(a, None)
  }

  /** The session after `n` seconds of the interval. */
  function SessionAfter(a: Option<Session>, n: nat): Option<Session> {
    if n == 0 then a else PageTick(SessionAfter(a, n - 1)).session
  }

  /** Before its last second a running session loses exactly one second a tick, and nothing else changes. */
  lemma {:induction false} RunningCountdown(s: Session, n: nat)
    requires s.isRunning && n < s.timeLeft
    ensures SessionAfter(Some(s), n) == Some(s.(timeLeft := s.timeLeft - n))
  {
    if n > 0 {
      RunningCountdown(s, n - 1);
    }
  }

  /**
   * A running session asks for a credit exactly once, on the tick of its last second; that
   * credit is the tick credit and the session then ends, after which ticks change nothing.
   */
  lemma SessionCreditsOnItsLastSecond(s: Session, k: nat, extra: nat)
    requires s.isRunning && 0 < s.timeLeft && k < s.timeLeft
    ensures PageTick(SessionAfter(Some(s), k)).credit.Some? <==> k == s.timeLeft - 1
    ensures k == s.timeLeft - 1 ==> PageTick(SessionAfter(Some(s), k)) == TickOutcome(None, Some(TickCredit(s)))
    ensures SessionAfter(Some(s), s.timeLeft + extra).None?
  {
    RunningCountdown(s, k);
    RunningCountdown(s, s.timeLeft - 1);
    EndedStaysEnded(Some(s), s.timeLeft, extra);
  }

  /** Once the session has ended, further ticks leave none. */
  lemma {:induction false} EndedStaysEnded(a: Option<Session>, n: nat, extra: nat)
    requires SessionAfter(a, n).None?
    ensures SessionAfter(a, n + extra).None?
  {
    if extra > 0 {
      EndedStaysEnded(a, n, extra - 1);
    }
  }

  /**
   * A fresh session started and left running, without pauses, counts down for 1500 ticks
   * and asks for a credit of exactly 25 minutes on the last of them, and on no other.
   */
  lemma FreshSessionCreditsTwentyFive(s: Session, k: nat)
    requires s.isRunning && s.timeLeft == SessionSeconds && s.totalTimeSpent == 0
    requires k < SessionSeconds
    ensures PageTick(SessionAfter(Some(s), k)).credit.Some? <==> k == SessionSeconds - 1
    ensures PageTick(SessionAfter(Some(s), SessionSeconds - 1)) == TickOutcome(None, Some(25))
  {
    SessionCreditsOnItsLastSecond(s, k, 0);
    SessionCreditsOnItsLastSecond(s, SessionSeconds - 1, 0);
  }

  /** Where a dragged task was dropped: an hour row of the timeline or the unscheduled zone. */
  datatype DropTarget = HourSlot(hour: nat) | UnscheduledZone

  /** The `timeSlot` carried by a drop target: the row's `HH:00` text, or null for the unscheduled zone. */
  function TimeSlotOf(target: DropTarget): Option<string> {
    match target
    case HourSlot(h) => Some(SlotLabel(h))
    case UnscheduledZone => None
  }

  /** `handleDragEnd`: nothing without a target; otherwise an update of the start time alone. */
  function DragRequest(taskId: string, over: Option<DropTarget>): Option<Mutation>
  {
    match over
    case None => None
    case Some(target) =>
      var slot := TimeSlotOf(target);
      Some(UpdateTask(taskId, EmptyUpdate.(startTime := if slot.Some? then Given(slot.value) else Null)))
  }

  /**
   * A drop on an hour row asks for a start time at the top of that hour; a drop on the
   * unscheduled zone asks for the start time to be cleared; no other member is sent.
   */
  lemma DropSetsStartTime(taskId: string, target: DropTarget)
    ensures target.HourSlot? ==>
              && DragRequest(taskId, Some(target)).value.data == EmptyUpdate.(startTime := Given(SlotLabel(target.hour)))
              && StartOf(SlotLabel(target.hour)) == Some(target.hour * 60)
    ensures target.UnscheduledZone? ==>
              DragRequest(taskId, Some(target)).value.data == EmptyUpdate.(startTime := Null)
  {
    if target.HourSlot? {
      SlotLabelIsHourStart(target.hour);
    }
  }

  /** `handleRemoveFromToday`: plan the task for no day. */
  function RemoveFromTodayRequest(id: string): Mutation
  {
    PlanTask(id, None)
  }

  /** The page state that the timer handlers change. */
  class Page {
    var activeTimer: Option<Session>
    var showTimerModal: bool

    constructor()
      ensures activeTimer.None? && !showTimerModal
    {
      activeTimer := None;
      showTimerModal := false;
    }

    /** `handleStartTimer`: reopens the same task's session, or replaces it with a fresh stopped one. */
    method StartTimer(task: Task)
      modifies this
      ensures showTimerModal
      ensures if old(activeTimer).Some? && old(activeTimer).value.task.id == task.id then
                activeTimer == old(activeTimer)
              else
                activeTimer == Some(Session(task, SessionSeconds, false, 0))
    {
      if activeTimer.Some? && activeTimer.value.task.id == task.id {
        showTimerModal := true;
        return;
      }
      activeTimer := Some(Session(task, SessionSeconds, false, 0));
      showTimerModal := true;
    }

    /** `handleTimerUpdate`: copies the timer's report into the session, keeping its task. */
    method TimerUpdate(timeLeft: int, isRunning: bool, totalTimeSpent: int)
      modifies this
      ensures showTimerModal == old(showTimerModal)
      ensures old(activeTimer).None? ==> activeTimer.None?
      ensures old(activeTimer).Some? ==>
                activeTimer == Some(Session(old(activeTimer).value.task, timeLeft, isRunning, totalTimeSpent))
    {
      if activeTimer.Some? {
        activeTimer := Some(activeTimer.value.(timeLeft := timeLeft, isRunning := isRunning, totalTimeSpent := totalTimeSpent));
      }
    }

    /** `handleTimerComplete`: credits the minutes, then drops the session and closes the modal. */
    method TimerComplete(taskId: string, minutesSpent: int, tasks: seq<Task>) returns (request: Mutation)
      modifies this
      ensures request == CreditRequest(tasks, taskId, minutesSpent)
      ensures activeTimer.None? && !showTimerModal
    {
      request := CreditRequest(tasks, taskId, minutesSpent);
      activeTimer := None;
      showTimerModal := false;
    }

    /** `handleCloseTimerModal`: hides the modal and keeps the session. */
    method CloseTimerModal()
      modifies this
      ensures !showTimerModal && activeTimer == old(activeTimer)
    {
      showTimerModal := false;
    }

    /** `handleStopTimer`: credits the spent minutes when there are any; the session always ends. */
    method StopTimer(tasks: seq<Task>) returns (request: Option<Mutation>)
      modifies this
      ensures request == StopRequest(old(activeTimer), tasks)
      ensures activeTimer.None? && !showTimerModal
    {
      request := None;
      if activeTimer.Some? {
        var timeSpent := SessionSeconds - activeTimer.value.timeLeft + activeTimer.value.totalTimeSpent;
        if timeSpent > 0 {
          var minutesSpent := Ceil(timeSpent, 60);
          request := Some(CreditRequest(tasks, activeTimer.value.task.id, minutesSpent));
        }
      }
      activeTimer := None;
      showTimerModal := false;
    }

    /**
     * One second of the page's interval, which runs only while the session runs with time
     * left. The countdown drops by one; when that reaches 0 the page completes the session,
     * crediting a full session plus the earlier total, and the session ends.
     */
    method Tick(tasks: seq<Task>) returns (request: Option<Mutation>)
      modifies this
      ensures activeTimer == PageTick(old(activeTimer)).session
      ensures showTimerModal == (old(showTimerModal) && PageTick(old(activeTimer)).credit.None?)
      ensures request.Some? <==> PageTick(old(activeTimer)).credit.Some?
      ensures request.Some? ==>
                request.value == CreditRequest(tasks, old(activeTimer).value.task.id, PageTick(old(activeTimer)).credit.value)
    {
      request := None;
      if activeTimer.Some? && activeTimer.value.isRunning && activeTimer.value.timeLeft > 0 {
        var prev := activeTimer.value;
        var newTimeLeft := prev.timeLeft - 1;
        if newTimeLeft <= 0 {
          var minutesSpent := Ceil(SessionSeconds + prev.totalTimeSpent, 60);
          var credit := TimerComplete(prev.task.id, minutesSpent, tasks);
          request := Some(credit);
        } else {
          activeTimer := Some(prev.(timeLeft := newTimeLeft));
        }
      }
    }
  }
}
