/**
 * The component-local Pomodoro timer (client/src/components/PomodoroTimer.tsx): three state
 * variables changed by the start, pause and reset handlers and by the interval tick, the
 * reports sent to the optional `onUpdate` callback, the completion report sent to
 * `onComplete`, and the pure display rules (mm:ss text, progress, button label and visibility).
 */
module PomodoroTimer {
  import opened Wrappers
  import opened Strings
  import opened JsMath
  import opened TaskTypes
  import opened Timeline

  /** Length of one session in seconds. */
  const SessionSeconds: int := 1500

  /** The arguments of an `onUpdate(timeLeft, isRunning, totalTimeSpent)` call. */
  datatype Report = Report(timeLeft: int, isRunning: bool, totalTimeSpent: int)

  /** The arguments of an `onComplete(taskId, minutesSpent)` call. */
  datatype Completion = Completion(taskId: string, minutesSpent: int)

  /** The `onUpdate` call a handler makes: none when the callback is not given. */
  function Notify(hasOnUpdate: bool, report: Report): (r: Option<Report>)
    ensures r.Some? <==> hasOnUpdate
    ensures r.Some? ==> r.value == report
  {
    if hasOnUpdate then Some(report) else None
  }

  class Timer {
    const task: Task
    const hasOnUpdate: bool
    const hasOnStop: bool
    var timeLeft: int
    var isRunning: bool
    var totalTimeSpent: int

    /** The state starts from the optional props, defaulting to 1500, not running and 0. */
    constructor(task: Task, initialTimeLeft: Option<int>, initialIsRunning: Option<bool>,
                initialTotalTimeSpent: Option<int>, hasOnUpdate: bool, hasOnStop: bool)
      ensures this.task == task && this.hasOnUpdate == hasOnUpdate && this.hasOnStop == hasOnStop
      ensures timeLeft == initialTimeLeft.GetOr(SessionSeconds)
      ensures isRunning == initialIsRunning.GetOr(false)
      ensures totalTimeSpent == initialTotalTimeSpent.GetOr(0)
    {
      this.task := task;
      this.hasOnUpdate := hasOnUpdate;
      this.hasOnStop := hasOnStop;
      timeLeft := initialTimeLeft.GetOr(SessionSeconds);
      isRunning := initialIsRunning.GetOr(false);
      totalTimeSpent := initialTotalTimeSpent.GetOr(0);
    }

    /** `handleStart`: runs the timer and reports the unchanged countdown and total. */
    method Start() returns (report: Option<Report>)
      modifies this
      ensures isRunning && timeLeft == old(timeLeft) && totalTimeSpent == old(totalTimeSpent)
      ensures report == Notify(hasOnUpdate, Report(old(timeLeft), true, old(totalTimeSpent)))
      ensures MainButton(isRunning, timeLeft) == "Pause"
    {
      isRunning := true;
      report := Notify(hasOnUpdate, Report(timeLeft, true, totalTimeSpent));
    }

    /**
     * `handlePause`: stops the timer and adds the seconds elapsed in the current countdown to
     * the total; the countdown is not reset, so a second pause adds the same seconds again.
     */
    method Pause() returns (report: Option<Report>)
      modifies this
      ensures !isRunning && timeLeft == old(timeLeft)
      ensures totalTimeSpent == old(totalTimeSpent) + (SessionSeconds - old(timeLeft))
      ensures report == Notify(hasOnUpdate, Report(timeLeft, false, totalTimeSpent))
      ensures MainButton(isRunning, timeLeft) == (if old(timeLeft) == SessionSeconds then "Start" else "Resume")
      ensures old(timeLeft) < SessionSeconds && hasOnStop ==> ShowStop(timeLeft, hasOnStop)
    {
      isRunning := false;
      var newTotalTimeSpent := totalTimeSpent + (SessionSeconds - timeLeft);
      totalTimeSpent := newTotalTimeSpent;
      report := Notify(hasOnUpdate, Report(timeLeft, false, newTotalTimeSpent));
    }

    /** `handleReset`: a fresh stopped session with nothing spent, reported as such. */
    method Reset() returns (report: Option<Report>)
      modifies this
      ensures !isRunning && timeLeft == SessionSeconds && totalTimeSpent == 0
      ensures report == Notify(hasOnUpdate, Report(SessionSeconds, false, 0))
      ensures MainButton(isRunning, timeLeft) == "Start" && !ShowStop(timeLeft, hasOnStop)
    {
      isRunning := false;
      timeLeft := SessionSeconds;
      totalTimeSpent := 0;
      report := Notify(hasOnUpdate, Report(SessionSeconds, false, 0));
    }

    /**
     * One second of the interval, which only runs while the timer runs with time left. At 1
     * (or below) the countdown goes to 0, the timer stops and completion is reported with
     * the seconds of this countdown plus the earlier total, rounded up to minutes.
     */
    method Tick() returns (completion: Option<Completion>)
      modifies this
      ensures totalTimeSpent == old(totalTimeSpent)
      ensures !(old(isRunning) && old(timeLeft) > 0) ==>
                timeLeft == old(timeLeft) && isRunning == old(isRunning) && completion.None?
      ensures old(isRunning) && old(timeLeft) > 1 ==>
                timeLeft == old(timeLeft) - 1 && isRunning && completion.None?
      ensures old(isRunning) && old(timeLeft) == 1 ==>
                timeLeft == 0 && !isRunning
                && completion == Some(Completion(task.id, Ceil(SessionSeconds - 1 + totalTimeSpent, 60)))
    {
      completion := None;
      if isRunning && timeLeft > 0 {
        var prev := timeLeft;
        if prev <= 1 {
          isRunning := false;
          var minutesSpent := Ceil(SessionSeconds - prev + totalTimeSpent, 60);
          completion := Some(Completion(task.id, minutesSpent));
          timeLeft := 0;
        } else {
          timeLeft := prev - 1;
        }
      }
    }
  }

  /** `formatTime`: floored minutes and the (truncating) remainder, each padded to two digits. */
  function FormatTime(seconds: int): string {
    Pad2(IntText(Floor(seconds, 60))) + ":" + Pad2(IntText(Rem(seconds, 60)))
  }

  /**
   * For a non-negative count of seconds the text is `mm:ss` (five characters below 100
   * minutes) and reads back as minutes and seconds with `mins * 60 + secs == seconds` and
   * `secs < 60`.
   */
  lemma FormatTimeRoundTrip(seconds: int)
    requires seconds >= 0
    ensures exists mins: nat, secs: nat ::
      && ParseClock(FormatTime(seconds)) == Some(Clock(mins, secs))
      && mins * 60 + secs == seconds && secs < 60
    ensures seconds < 6000 ==> |FormatTime(seconds)| == 5
  {
    SplitNonNegative(seconds, 60);
    var mins: nat, secs: nat := Floor(seconds, 60), Rem(seconds, 60);
    assert FormatTime(seconds) == ClockText(mins, secs);
    ClockTextRoundTrip(mins, secs);
    Pad2NatText(mins);
    Pad2NatText(secs);
  }

  /** The progress bar width in percent. */
  function Progress(timeLeft: int): real {
    (SessionSeconds - timeLeft) as real / SessionSeconds as real * 100.0
  }

  /** Within a session the bar runs from 0 (untouched) to 100 (done) and grows as time runs down. */
  lemma ProgressBounds(timeLeft: int, later: int)
    requires 0 <= later <= timeLeft <= SessionSeconds
    ensures 0.0 <= Progress(timeLeft) <= 100.0
    ensures Progress(timeLeft) == 0.0 <==> timeLeft == SessionSeconds
    ensures Progress(timeLeft) == 100.0 <==> timeLeft == 0
    ensures Progress(timeLeft) <= Progress(later)
  {
  }

  /** The main button's text when the timer is stopped. */
  function StartLabel(timeLeft: int): string
  {
    if timeLeft == SessionSeconds then "Start" else "Resume"
  }

  /** Which main button is shown: Start/Resume while stopped, Pause while running. */
  function MainButton(isRunning: bool, timeLeft: int): string
  {
    if !isRunning then StartLabel(timeLeft) else "Pause"
  }

  /** "Stop & Save Progress" is offered once the countdown has moved and the callback is given. */
  predicate ShowStop(timeLeft: int, hasOnStop: bool) {
    timeLeft < SessionSeconds && hasOnStop
  }

  /**
   * Within a session, "Stop & Save Progress" is offered exactly when the callback is given and
   * the progress bar has moved off 0, and the main button then offers to resume, not to start.
   */
  lemma StopShownOnceStarted(timeLeft: int, hasOnStop: bool)
    requires 0 <= timeLeft <= SessionSeconds
    ensures ShowStop(timeLeft, hasOnStop) <==> hasOnStop && Progress(timeLeft) > 0.0
    ensures ShowStop(timeLeft, hasOnStop) ==> MainButton(false, timeLeft) == "Resume"
  {
    ProgressBounds(timeLeft, timeLeft);
  }
}
