/**
 * The red "now" line over the day timeline (client/src/components/CurrentTimeIndicator.tsx):
 * shown between 08:00 and 18:00, at the share of that ten-hour window that has passed. The
 * window is fixed; it does not follow the timeline settings.
 */
module CurrentTimeIndicator {
  import opened Wrappers
  import Timeline

  /** The indicator renders only from 08:00 up to, not including, 18:00. */
  predicate Visible(hour: int) {
    !(hour < 8 || hour >= 18)
  }

  /** `percentageFromTop`: hours since 08:00 plus the fraction of the hour, over ten hours, in percent. */
  function PositionPercent(hour: int, minutes: int): real {
    var hoursSinceStart := (hour - 8) as real;
    var minuteProgress := minutes as real / 60.0;
    (hoursSinceStart + minuteProgress) / 10.0 * 100.0
  }

  /** What the component renders for a clock reading: nothing, or the line at a percentage from the top. */
  function Indicator(hour: int, minutes: int): Option<real>
  {
    if !Visible(hour) then None else Some(PositionPercent(hour, minutes))
  }

  /** The position is the minutes since 08:00 as a share of the 600 minutes of the window. */
  lemma PositionIsShareOfWindow(hour: int, minutes: int)
    ensures PositionPercent(hour, minutes) == ((hour - 8) * 60 + minutes) as real / 600.0 * 100.0
  {
  }

  /** A shown line lies within the window: at least 0 % and below 100 %. */
  lemma ShownLineInWindow(hour: int, minutes: int)
    requires 0 <= minutes < 60
    requires Indicator(hour, minutes).Some?
    ensures 0.0 <= Indicator(hour, minutes).value < 100.0
  {
    PositionIsShareOfWindow(hour, minutes);
    assert 0 <= (hour - 8) * 60 + minutes < 600;
  }

  /**
   * The line is level with a task block starting at the same clock time: its percentage is
   * that block's top offset as a share of the 640-pixel timeline.
   */
  lemma LevelWithTimelineBlocks(hour: nat, minutes: nat)
    ensures PositionPercent(hour, minutes) == Timeline.TopPosition(Timeline.Span(hour, minutes, 1, 0)) / 640.0 * 100.0
  {
    PositionIsShareOfWindow(hour, minutes);
  }
}
