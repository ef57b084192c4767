/**
 * The task card of the week view (client/src/components/WeekTaskCard.tsx): the duration
 * text of an estimate and which of the start-time and estimate chips the card shows.
 */
module WeekTaskCard {
  import opened Wrappers
  import opened Strings
  import opened JsMath
  import opened TaskTypes
  import opened Durations
  import DailyTimeSummary

  /**
   * `formatTime`: whole hours (`Math.floor`) and the rest (`%`, which keeps the sign of a
   * negative estimate); minutes are shown beside the hours even when they are 0.
   */
  function FormatTime(minutes: int): string {
    CardText(Floor(minutes, 60), Rem(minutes, 60))
  }

  /** The text for a split into hours and minutes. */
  function CardText(hours: int, mins: int): string {
    if hours > 0 then IntText(hours) + "h " + IntText(mins) + "m" else IntText(mins) + "m"
  }

  /** The text of a non-negative split reads back as its minutes. */
  lemma CardTextRoundTrip(h: nat, m: nat)
    ensures ParseDuration(CardText(h, m)) == Some(h * 60 + m)
  {
    DailyTimeSummary.DigitsOfNatText(h);
    DailyTimeSummary.DigitsOfNatText(m);
    if h > 0 {
      ReadHoursMinutes(NatText(h), NatText(m), h, m);
    } else {
      ReadMinutes(NatText(m), m);
    }
  }

  /** The card's duration text of a non-negative estimate reads back as the estimate. */
  lemma FormatTimeRoundTrip(minutes: nat)
    ensures ParseDuration(FormatTime(minutes)) == Some(minutes)
  {
    SplitNonNegative(minutes, 60);
    var h: nat, m: nat := Floor(minutes, 60), Rem(minutes, 60);
    assert FormatTime(minutes) == CardText(h, m);
    CardTextRoundTrip(h, m);
    assert h * 60 + m == minutes;
  }

  /** Hours appear exactly from one hour on; two hours read "2h 0m", not "2h". */
  lemma HoursShownFromAnHour(minutes: nat)
    ensures 'h' in FormatTime(minutes) <==> minutes >= 60
    ensures FormatTime(120) == "2h 0m"
  {
    SplitNonNegative(minutes, 60);
    var h: nat, m: nat := Floor(minutes, 60), Rem(minutes, 60);
    DigitsHaveNo(NatText(m), 'h');
    if h > 0 {
      assert FormatTime(minutes)[|NatText(h)|] == 'h';
    } else {
      assert FormatTime(minutes) == NatText(m) + "m";
    }
    assert NatText(2) == "2" && NatText(0) == "0";
  }

  /**
   * The card and the daily summary word a duration differently ("2h 0m" against "2h") but
   * both texts read back as the same minutes.
   */
  lemma AgreesWithSummary(minutes: nat)
    ensures ParseDuration(FormatTime(minutes)) == ParseDuration(DailyTimeSummary.PartDisplay(minutes))
  {
    FormatTimeRoundTrip(minutes);
    DailyTimeSummary.PartDisplayRoundTrip(minutes);
  }

  /**
   * What the estimate part of the card renders: nothing for a missing estimate, the chip for a
   * non-zero one, and, for an estimate of 0, the bare text "0" (React prints the falsy number
   * that `timeEstimate && ...` evaluates to).
   */
  datatype EstimateSlot = NoEstimate | BareText(text: string) | EstimateChip(chipText: string)

  /** The chips of a card. */
  datatype Chips = Chips(startTime: Option<string>, estimate: EstimateSlot)

  function ChipsOf(t: Task): Chips {
    Chips(if HasText(t.startTime) then Some(t.startTime.value) else None,
          if t.timeEstimate.None? then NoEstimate
          else if t.timeEstimate.value == 0 then BareText("0")
          else EstimateChip(FormatTime(t.timeEstimate.value)))
  }

  /**
   * The start time is shown verbatim exactly when it is non-empty; the estimate chip is shown
   * exactly when the estimate is non-zero, and for a positive estimate it reads back as it.
   */
  lemma ChipsShowTheTask(t: Task)
    ensures ChipsOf(t).startTime.Some? <==> HasText(t.startTime)
    ensures ChipsOf(t).startTime.Some? ==> ChipsOf(t).startTime == t.startTime
    ensures ChipsOf(t).estimate.EstimateChip? <==> HasAmount(t.timeEstimate)
    ensures HasAmount(t.timeEstimate) && t.timeEstimate.value > 0 ==>
              ParseDuration(ChipsOf(t).estimate.chipText) == t.timeEstimate
  {
    if HasAmount(t.timeEstimate) && t.timeEstimate.value > 0 {
      FormatTimeRoundTrip(t.timeEstimate.value);
    }
  }

  /** The card's checkbox asks the server to toggle the card's task. */
  function ToggleRequest(t: Task): Mutation
  {
    ToggleTask(t.id)
  }
}
