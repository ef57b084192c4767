/**
 * The "Add New Task" form of the task list (client/src/components/CreateTaskForm.tsx): the
 * create payload built from the four fields on submit (trimmed title and description, empty
 * texts and a zero estimate left out), the blank-title refusal, and the reset of the fields
 * after a submit. The create dialog builds the same payload.
 */
module CreateTaskForm {
  import opened Wrappers
  import opened Strings
  import opened TaskTypes

  /** `text || undefined`. */
  function TextOrAbsent(text: string): (r: Option<string>)
    ensures r.None? <==> text == ""
    ensures r.Some? ==> r.value == text
  {
    if text == "" then None else Some(text)
  }

  /** `timeEstimate || undefined`: a missing estimate and an estimate of 0 are left out. */
  function EstimateOrAbsent(e: Option<int>): (r: Option<int>)
    ensures r.None? <==> !HasAmount(e)
    ensures r.Some? ==> r == e
  {
    if HasAmount(e) then e else None
  }

  /**
   * The payload `handleSubmit` hands to `onSubmit`, or None when the trimmed title is empty
   * and nothing is sent. The form has no planned date or start time.
   */
  function NewTaskPayload(title: string, description: string, dueDate: string, timeEstimate: Option<int>): Option<CreateInput> {
    if Trim(title) == "" then None
    else Some(CreateInput(Trim(title), TextOrAbsent(Trim(description)), TextOrAbsent(dueDate), None,
                          EstimateOrAbsent(timeEstimate), None))
  }

  /**
   * Nothing is sent exactly for an all-blank title; a sent payload carries a non-empty title
   * with no white space at its ends cut from the typed one, a description that is either left
   * out or trimmed and non-empty, the due date unless it is empty, the estimate unless it is
   * missing or 0, and no planned date or start time.
   */
  lemma PayloadSpec(title: string, description: string, dueDate: string, timeEstimate: Option<int>)
    ensures NewTaskPayload(title, description, dueDate, timeEstimate).None? <==>
              forall k :: 0 <= k < |title| ==> IsSpace(title[k])
    ensures var p := NewTaskPayload(title, description, dueDate, timeEstimate);
            p.Some? ==>
              && p.value.title != "" && Trimmed(p.value.title) && p.value.title == Trim(title)
              && (p.value.description.None? <==> Trim(description) == "")
              && (p.value.description.Some? ==> p.value.description.value != "" && Trimmed(p.value.description.value))
              && (p.value.dueDate.None? <==> dueDate == "")
              && (p.value.dueDate.Some? ==> p.value.dueDate.value == dueDate)
              && (p.value.timeEstimate.None? <==> !HasAmount(timeEstimate))
              && (p.value.timeEstimate.Some? ==> p.value.timeEstimate == timeEstimate)
              && p.value.plannedDate.None? && p.value.startTime.None?
  {
    TrimSpec(title);
    TrimSpec(description);
  }

  /** A title of no-break and ideographic spaces around a line separator is blank: nothing is sent. */
  lemma UnicodeBlankTitleIsRefused(description: string, dueDate: string, timeEstimate: Option<int>)
    ensures NewTaskPayload([0xA0 as char, 0x2028 as char, 0x3000 as char], description, dueDate, timeEstimate).None?
  {
    PayloadSpec([0xA0 as char, 0x2028 as char, 0x3000 as char], description, dueDate, timeEstimate);
  }

  /** The submit button is disabled while the request is running or while the trimmed title is empty. */
  predicate SubmitDisabled(isLoading: bool, title: string) {
    isLoading || Trim(title) == ""
  }

  /** When not loading, the button is enabled exactly when a submit would send something. */
  lemma EnabledIffSomethingToSend(title: string, description: string, dueDate: string, timeEstimate: Option<int>)
    ensures !SubmitDisabled(false, title) <==> NewTaskPayload(title, description, dueDate, timeEstimate).Some?
    ensures SubmitDisabled(true, title)
  {
  }

  /**
   * The browser's constraint validation of the estimate input (`min="5" step="5"`) on the
   * number it shows: an empty input passes, and a number passes only when it is 5, 10, 15, ...
   */
  predicate EstimateInputValid(shown: Option<int>) {
    shown.None? || (shown.value >= 5 && (shown.value - 5) % 5 == 0)
  }

  /** A shown estimate passes exactly when it is a positive multiple of 5; 0, 3 and 7 do not. */
  lemma EstimateValidIffMultipleOfFive(e: int)
    ensures EstimateInputValid(Some(e)) <==> e > 0 && e % 5 == 0
    ensures !EstimateInputValid(Some(0)) && !EstimateInputValid(Some(3)) && !EstimateInputValid(Some(7))
    ensures EstimateInputValid(Some(5)) && EstimateInputValid(Some(30)) && EstimateInputValid(None)
  {
  }

  /**
   * Whether the submit button (or Enter in a field) fires the form's `submit` event at all:
   * the button must be enabled, the `required` title non-empty, and the estimate input valid.
   * The form has no `noValidate`, so otherwise `handleSubmit` does not run.
   */
  predicate SubmitFires(isLoading: bool, title: string, shownEstimate: Option<int>) {
    !SubmitDisabled(isLoading, title) && title != "" && EstimateInputValid(shownEstimate)
  }

  /** Whenever the submit fires there is a payload to send. */
  lemma FiredSubmitSends(isLoading: bool, title: string, description: string, dueDate: string, timeEstimate: Option<int>, shown: Option<int>)
    requires SubmitFires(isLoading, title, shown)
    ensures NewTaskPayload(title, description, dueDate, timeEstimate).Some?
  {
  }

  /** The form's fields. */
  class Form {
    var title: string
    var description: string
    var dueDate: string
    var timeEstimate: Option<int>

    /** All fields start empty, the estimate undefined. */
    constructor()
      ensures title == "" && description == "" && dueDate == "" && timeEstimate == None
    {
      title, description, dueDate, timeEstimate := "", "", "", None;
    }

    /** The inputs' change handlers: each writes its own field. */
    method SetTitle(text: string)
      modifies this
      ensures title == text
      ensures description == old(description) && dueDate == old(dueDate) && timeEstimate == old(timeEstimate)
    {
      title := text;
    }

    method SetDescription(text: string)
      modifies this
      ensures description == text
      ensures title == old(title) && dueDate == old(dueDate) && timeEstimate == old(timeEstimate)
    {
      description := text;
    }

    method SetDueDate(text: string)
      modifies this
      ensures dueDate == text
      ensures title == old(title) && description == old(description) && timeEstimate == old(timeEstimate)
    {
      dueDate := text;
    }

    /** The estimate input hands over its parsed number, or None when it is empty. */
    method SetTimeEstimate(estimate: Option<int>)
      modifies this
      ensures timeEstimate == estimate
      ensures title == old(title) && description == old(description) && dueDate == old(dueDate)
    {
      timeEstimate := estimate;
    }

    /**
     * Pressing Add Task: the submit fires only for an enabled button, a non-empty title and
     * a valid estimate (the input shows the estimate state). Then `handleSubmit` sends the
     * payload and clears all four fields; otherwise nothing is sent and the fields stay.
     */
    method Submit(isLoading: bool) returns (sent: Option<CreateInput>)
      modifies this
      ensures sent.Some? <==> SubmitFires(isLoading, old(title), old(timeEstimate))
      ensures sent.Some? ==> sent == NewTaskPayload(old(title), old(description), old(dueDate), old(timeEstimate))
      ensures sent.None? ==>
                title == old(title) && description == old(description) && dueDate == old(dueDate) && timeEstimate == old(timeEstimate)
      ensures sent.Some? ==> title == "" && description == "" && dueDate == "" && timeEstimate == None
    {
      if SubmitFires(isLoading, title, timeEstimate) {
        sent := NewTaskPayload(title, description, dueDate, timeEstimate);
        title, description, dueDate, timeEstimate := "", "", "", None;
      } else {
        sent := None;
      }
    }
  }
}
