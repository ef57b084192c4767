/**
 * The global Pomodoro store (client/src/store/timerStore.ts): one shared state record whose
 * fields each method overwrites, and a `tick` that counts a 1500-second session down and
 * credits 25 minutes when it reaches 0.
 */
module TimerStore {
  import opened Wrappers
  import opened TaskTypes

  /** Length of one Pomodoro session in seconds. */
  const SessionSeconds: int := 1500

  /** Minutes credited for one completed session. */
  const SessionCredit: int := 25

  /** The store's fields as one value. */
  datatype TimerState = TimerState(
    activeTask: Option<Task>,
    timeLeft: int,
    isRunning: bool,
    sessionJustCompleted: bool,
    totalMinutesLogged: int,
    intervalId: Option<int>)

  /** The state the store is created with. */
  const Initial: TimerState := TimerState(None, SessionSeconds, false, false, 0, None)

  /** One `tick`: it does not look at `isRunning` or `activeTask`. */
  function TickStep(s: TimerState): TimerState {
    if s.timeLeft > 1 then
      s.(timeLeft := s.timeLeft - 1)
    else if s.timeLeft == 1 then
      s.(timeLeft := 0, isRunning := false, sessionJustCompleted := true,
         totalMinutesLogged := s.totalMinutesLogged + SessionCredit)
    else
      s
  }

  /** `n` ticks in a row. */
  function Ticks(s: TimerState, n: nat): TimerState {
    if n == 0 then s else TickStep(Ticks(s, n - 1))
  }

  /** The state right after the tick that completes a session started from `s`. */
  function Completed(s: TimerState): TimerState {
    s.(timeLeft := 0, isRunning := false, sessionJustCompleted := true,
       totalMinutesLogged := s.totalMinutesLogged + SessionCredit)
  }

  /** The invariant the store keeps: the countdown stays within a session. */
  predicate InRange(s: TimerState) {
    0 <= s.timeLeft <= SessionSeconds
  }

  /** The initial state is in range; every tick keeps the countdown in range and never raises it. */
  lemma TickKeepsRange(s: TimerState)
    requires InRange(s)
    ensures InRange(Initial)
    ensures InRange(TickStep(s)) && TickStep(s).timeLeft <= s.timeLeft
    ensures TickStep(s).totalMinutesLogged == s.totalMinutesLogged + (if s.timeLeft == 1 then SessionCredit else 0)
  {
  }

  /** Splitting a run of ticks into two runs. */
  lemma {:induction false} TicksAdd(s: TimerState, a: nat, b: nat)
    ensures Ticks(s, a + b) == Ticks(Ticks(s, a), b)
    decreases b
  {
    if b > 0 {
      TicksAdd(s, a, b - 1);
    }
  }

  /** Before the countdown reaches 1, each tick only takes one second off. */
  lemma {:induction false} Countdown(s: TimerState, n: nat)
    requires n < s.timeLeft
    ensures Ticks(s, n) == s.(timeLeft := s.timeLeft - n)
  {
    if n > 0 {
      Countdown(s, n - 1);
    }
  }

  /** Once the countdown is at 0 (or below), ticks change nothing. */
  lemma {:induction false} StoppedIsFixed(s: TimerState, n: nat)
    requires s.timeLeft <= 0
    ensures Ticks(s, n) == s
  {
    if n > 0 {
      StoppedIsFixed(s, n - 1);
    }
  }

  /**
   * From any positive countdown, exactly `timeLeft` ticks complete the session and credit
   * 25 minutes once; any further ticks change nothing.
   */
  lemma CompletesOnce(s: TimerState, extra: nat)
    requires s.timeLeft >= 1
    ensures Ticks(s, s.timeLeft) == Completed(s)
    ensures Ticks(s, s.timeLeft + extra) == Completed(s)
  {
    Countdown(s, s.timeLeft - 1);
    assert Ticks(s, s.timeLeft) == TickStep(Ticks(s, s.timeLeft - 1));
    TicksAdd(s, s.timeLeft, extra);
    StoppedIsFixed(Completed(s), extra);
  }

  /** A fresh session reaches 0 after 1500 ticks with exactly one 25-minute credit. */
  lemma FullSession(s: TimerState, extra: nat)
    requires s.timeLeft == SessionSeconds
    ensures Ticks(s, 1500 + extra).timeLeft == 0
    ensures Ticks(s, 1500 + extra).totalMinutesLogged == s.totalMinutesLogged + 25
    ensures Ticks(s, 1500 + extra).sessionJustCompleted && !Ticks(s, 1500 + extra).isRunning
    ensures forall n: nat :: n < 1500 ==> Ticks(s, n).totalMinutesLogged == s.totalMinutesLogged
  {
    CompletesOnce(s, extra);
    forall n: nat | n < 1500
      ensures Ticks(s, n).totalMinutesLogged == s.totalMinutesLogged
    {
      Countdown(s, n);
    }
  }

  /** `useTimerStore`. */
  class Store {
    var activeTask: Option<Task>
    var timeLeft: int
    var isRunning: bool
    var sessionJustCompleted: bool
    var totalMinutesLogged: int
    var intervalId: Option<int>

    function State(): TimerState
      reads this
    {
      TimerState(activeTask, timeLeft, isRunning, sessionJustCompleted, totalMinutesLogged, intervalId)
    }

    ghost predicate Valid()
      reads this
    {
      InRange(State())
    }

    constructor()
      ensures State() == Initial && Valid()
    {
      activeTask := None;
      timeLeft := SessionSeconds;
      isRunning := false;
      sessionJustCompleted := false;
      totalMinutesLogged := 0;
      intervalId := None;
    }

    /** Selects a task; a different (or first) task gets a fresh, stopped session. */
    method SetActiveTask(task: Task)
      requires Valid()
      modifies this
      ensures Valid()
      ensures if old(activeTask).None? || old(activeTask).value.id != task.id then
                State() == old(State()).(activeTask := Some(task), timeLeft := SessionSeconds, isRunning := false,
                                         totalMinutesLogged := 0, sessionJustCompleted := false)
              else
                State() == old(State())
    {
      if activeTask.None? || activeTask.value.id != task.id {
        activeTask := Some(task);
        timeLeft := SessionSeconds;
        isRunning := false;
        totalMinutesLogged := 0;
        sessionJustCompleted := false;
      }
    }

    /** Starts a fresh running session on a different (or first) task, else only resumes. */
    method StartTimer(task: Task)
      requires Valid()
      modifies this
      ensures Valid()
      ensures if old(activeTask).None? || old(activeTask).value.id != task.id then
                State() == old(State()).(activeTask := Some(task), timeLeft := SessionSeconds, isRunning := true,
                                         totalMinutesLogged := 0, sessionJustCompleted := false)
              else
                State() == old(State()).(isRunning := true)
    {
      if activeTask.None? || activeTask.value.id != task.id {
        activeTask := Some(task);
        timeLeft := SessionSeconds;
        isRunning := true;
        totalMinutesLogged := 0;
        sessionJustCompleted := false;
      } else {
        isRunning := true;
      }
    }

    method PauseTimer()
      requires Valid()
      modifies this
      ensures Valid()
      ensures State() == old(State()).(isRunning := false)
    {
      isRunning := false;
    }

    method ResumeTimer()
      requires Valid()
      modifies this
      ensures Valid()
      ensures State() == old(State()).(isRunning := true)
    {
      isRunning := true;
    }

    /** Restarts the countdown, stopped, keeping the task, the credit and the completion flag. */
    method ResetCurrentSession()
      requires Valid()
      modifies this
      ensures Valid()
      ensures State() == old(State()).(timeLeft := SessionSeconds, isRunning := false)
    {
      timeLeft := SessionSeconds;
      isRunning := false;
    }

    /** Restores every field to its initial value. */
    method StopAndClear()
      requires Valid()
      modifies this
      ensures Valid()
      ensures State() == Initial
    {
      activeTask := None;
      timeLeft := SessionSeconds;
      isRunning := false;
      totalMinutesLogged := 0;
      sessionJustCompleted := false;
      intervalId := None;
    }

    method Tick()
      requires Valid()
      modifies this
      ensures Valid()
      ensures State() == TickStep(old(State()))
    {
      if timeLeft > 1 {
        timeLeft := timeLeft - 1;
      } else if timeLeft == 1 {
        timeLeft := 0;
        isRunning := false;
        sessionJustCompleted := true;
        totalMinutesLogged := totalMinutesLogged + SessionCredit;
      }
    }

    /** Clears the completion flag and restores the countdown, leaving the rest as it was. */
    method AcknowledgeCompletion()
      requires Valid()
      modifies this
      ensures Valid()
      ensures State() == old(State()).(sessionJustCompleted := false, timeLeft := SessionSeconds)
    {
      sessionJustCompleted := false;
      timeLeft := SessionSeconds;
    }

    method SetIntervalId(id: Option<int>)
      requires Valid()
      modifies this
      ensures Valid()
      ensures State() == old(State()).(intervalId := id)
    {
      intervalId := id;
    }
  }
}
