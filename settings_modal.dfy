/**
 * The timeline settings dialog (client/src/components/SettingsModal.tsx): the hours offered
 * for the start and the end of the day, how an hour is labelled, the summary line under the
 * two lists, and the setter a selection calls.
 */
module SettingsModal {
  import opened Wrappers
  import opened Strings
  import Timeline

  /** `Array.from({length: 7}, (_, i) => i + 6)`. */
  function StartHourOptions(): seq<int> {
    seq(7, i => i + 6)
  }

  /** `Array.from({length: 8}, (_, i) => i + 15)`. */
  function EndHourOptions(): seq<int> {
    seq(8, i => i + 15)
  }

  /** The start list is 6 to 12 and the end list 15 to 22, each in increasing order. */
  lemma OptionRanges()
    ensures StartHourOptions() == [6, 7, 8, 9, 10, 11, 12]
    ensures EndHourOptions() == [15, 16, 17, 18, 19, 20, 21, 22]
    ensures forall h :: h in StartHourOptions() <==> 6 <= h <= 12
    ensures forall h :: h in EndHourOptions() <==> 15 <= h <= 22
  {
    forall h | 6 <= h <= 12 ensures h in StartHourOptions() {
      assert StartHourOptions()[h - 6] == h;
    }
    forall h | 15 <= h <= 22 ensures h in EndHourOptions() {
      assert EndHourOptions()[h - 15] == h;
    }
  }

  /** The hours the summary line says the timeline shows. */
  function SpanHours(startHour: int, endHour: int): int {
    endHour - startHour
  }

  /** Any start and end picked from the lists are in order, three to sixteen hours apart. */
  lemma SelectableSpans(startHour: int, endHour: int)
    requires startHour in StartHourOptions() && endHour in EndHourOptions()
    ensures startHour < endHour
    ensures 3 <= SpanHours(startHour, endHour) <= 16
  {
    OptionRanges();
  }

  /** An hour as the lists and the summary line print it: noon is "12 PM", later hours count from noon. */
  function HourLabel(hour: int): string {
    if hour == 12 then "12 PM"
    else if hour > 12 then IntText(hour - 12) + " PM"
    else IntText(hour) + " AM"
  }

  /**
   * From 1 AM on the dialog labels an hour as the timeline's rows do; at midnight the two
   * differ: the dialog would print "0 AM" where the timeline prints "12 AM" (no option is 0).
   */
  lemma HourLabelAgreesWithTimeline(hour: nat)
    ensures 1 <= hour ==> HourLabel(hour) == Timeline.FormatHour(hour)
    ensures HourLabel(0) == "0 AM" && Timeline.FormatHour(0) == "12 AM"
  {
  }

  /** Every offered hour has a label of its own: reading a label back gives the hour. */
  lemma OptionLabelsReadBack(hour: int)
    requires hour in StartHourOptions() || hour in EndHourOptions()
    ensures Timeline.ParseHourLabel(HourLabel(hour)) == Some(hour)
  {
    OptionRanges();
    HourLabelAgreesWithTimeline(hour);
    Timeline.FormatHourRoundTrip(hour);
  }

  /** The summary line: "Timeline will show N hours from <start> to <end>". */
  datatype SpanLine = SpanLine(hours: int, from: string, to: string)

  function SpanLineOf(startHour: int, endHour: int): SpanLine {
    SpanLine(SpanHours(startHour, endHour), HourLabel(startHour), HourLabel(endHour))
  }

  /** What the dialog renders: nothing while closed, otherwise the summary line of the current settings. */
  function View(isOpen: bool, startHour: int, endHour: int): Option<SpanLine>
  {
    if !isOpen then None else Some(SpanLineOf(startHour, endHour))
  }

  /** With the settings the dialog can set, the summary line names a span of 3 to 16 hours between two distinct labels. */
  lemma SummaryOfSelectableSettings(startHour: int, endHour: int)
    requires startHour in StartHourOptions() && endHour in EndHourOptions()
    ensures 3 <= SpanLineOf(startHour, endHour).hours <= 16
    ensures SpanLineOf(startHour, endHour).from != SpanLineOf(startHour, endHour).to
  {
    SelectableSpans(startHour, endHour);
    OptionLabelsReadBack(startHour);
    OptionLabelsReadBack(endHour);
  }

  /** The setter call a selection makes. */
  datatype SettingChange = SetStartHour(hour: int) | SetEndHour(hour: int)

  /** `setStartHour(Number(e.target.value))`, where the value is the chosen option's decimal text. */
  function OnStartSelect(value: string): SettingChange
    requires AllDigits(value)
  {
    SetStartHour(ParseNat(value))
  }

  function OnEndSelect(value: string): SettingChange
    requires AllDigits(value)
  {
    SetEndHour(ParseNat(value))
  }

  /** Choosing an option calls the matching setter with that option's hour. */
  lemma SelectingAnOptionSetsIt(hour: nat)
    ensures OnStartSelect(NatText(hour)) == SetStartHour(hour)
    ensures OnEndSelect(NatText(hour)) == SetEndHour(hour)
  {
    NatTextRoundTrip(hour);
  }
}
