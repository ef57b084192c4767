/**
 * The "Edit Task" dialog (client/src/components/EditTaskModal.tsx): the fields it starts
 * from for a task and the update it sends on save. Unlike the create form it sends the title
 * as typed, and it never sends a start time, planned date, recorded time or completion flag.
 */
module EditTaskModal {
  import opened Wrappers
  import opened Strings
  import opened TaskTypes
  import CreateTaskForm

  /** The dialog's four fields. */
  datatype Fields = Fields(title: string, description: string, dueDate: string, timeEstimate: Option<int>)

  /**
   * The initial fields: the title, the description or "", the calendar-day part of the due
   * date or "", and the estimate unless it is missing or 0.
   */
  function InitialFields(t: Task): (f: Fields)
    ensures f.title == t.title
    ensures f.description == (if HasText(t.description) then t.description.value else "")
    ensures f.dueDate == (if HasText(t.dueDate) then DatePart(t.dueDate.value) else "")
    ensures 'T' !in f.dueDate
    ensures f.timeEstimate.None? <==> !HasAmount(t.timeEstimate)
    ensures f.timeEstimate.Some? ==> f.timeEstimate == t.timeEstimate
  {
    Fields(t.title,
           if HasText(t.description) then t.description.value else "",
           if HasText(t.dueDate) then DatePart(t.dueDate.value) else "",
           if HasAmount(t.timeEstimate) then t.timeEstimate else None)
  }

  /** `value || undefined` for a body member: an empty text is left out of the JSON body. */
  function TextMember(text: string): (r: Field<string>)
    ensures r.Absent? <==> text == ""
    ensures r.Given? ==> r.value == text
    ensures !r.Null?
  {
    if text == "" then Absent else Given(text)
  }

  /** The body `handleSubmit` hands to `onSave`. */
  function SavePayload(f: Fields): UpdateInput {
    EmptyUpdate.(title := Given(f.title),
                 description := TextMember(f.description),
                 dueDate := TextMember(f.dueDate),
                 timeEstimate := if HasAmount(f.timeEstimate) then Given(f.timeEstimate.value) else Absent)
  }

  /**
   * The saved body sends the title exactly as typed (white space included), leaves out an
   * empty description or due date and a missing or zero estimate, sends no null, and never
   * sends a planned date, a recorded time or a start time.
   */
  lemma SavePayloadSpec(f: Fields)
    ensures SavePayload(f).title == Given(f.title)
    ensures SavePayload(f).description.Absent? <==> f.description == ""
    ensures SavePayload(f).dueDate.Absent? <==> f.dueDate == ""
    ensures SavePayload(f).timeEstimate.Absent? <==> !HasAmount(f.timeEstimate)
    ensures SavePayload(f).timeEstimate.Given? ==> Some(SavePayload(f).timeEstimate.value) == f.timeEstimate
    ensures SavePayload(f).plannedDate.Absent? && SavePayload(f).actualTime.Absent? && SavePayload(f).startTime.Absent?
    ensures !SavePayload(f).title.Null? && !SavePayload(f).description.Null? && !SavePayload(f).dueDate.Null?
  {
  }

  /** A padded title is saved padded, where the create form would have trimmed it. */
  lemma TitleIsNotTrimmed()
    ensures SavePayload(Fields(" Plan week ", "", "", None)).title == Given(" Plan week ")
    ensures CreateTaskForm.NewTaskPayload(" Plan week ", "", "", None).value.title == "Plan week"
  {
    var w := "Plan week";
    assert " Plan week " == [' '] + w + [' '];
    TrimOfPadded(w);
  }

  /**
   * `handleSubmit`: `onSave(task.id, payload)` and then `onClose`, with no check of its own;
   * the guards are the disabled button and the browser's validation (`Dialog.Submit`).
   */
  function SaveRequest(t: Task, f: Fields): Mutation
  {
    UpdateTask(t.id, SavePayload(f))
  }

  /** The save button: disabled while saving or while the trimmed title is empty, as on the create form. */
  predicate SaveDisabled(isLoading: bool, f: Fields) {
    CreateTaskForm.SubmitDisabled(isLoading, f.title)
  }

  /**
   * The dialog's state: the task it edits, the `isOpen` flag its parent passes (closing is
   * the parent's `onClose`, which here clears the flag), and the four fields, which start
   * from the task.
   */
  class Dialog {
    const task: Task
    var isOpen: bool
    var fields: Fields

    constructor(task: Task, isOpen: bool)
      ensures this.task == task && this.isOpen == isOpen
      ensures fields == InitialFields(task)
    {
      this.task := task;
      this.isOpen := isOpen;
      fields := InitialFields(task);
    }

    /** The inputs' change handlers: each writes its own field. */
    method SetTitle(text: string)
      modifies this
      ensures fields == old(fields).(title := text) && isOpen == old(isOpen)
    {
      fields := fields.(title := text);
    }

    method SetDescription(text: string)
      modifies this
      ensures fields == old(fields).(description := text) && isOpen == old(isOpen)
    {
      fields := fields.(description := text);
    }

    method SetDueDate(text: string)
      modifies this
      ensures fields == old(fields).(dueDate := text) && isOpen == old(isOpen)
    {
      fields := fields.(dueDate := text);
    }

    /** The estimate input hands over its parsed number, or None when it is empty. */
    method SetTimeEstimate(estimate: Option<int>)
      modifies this
      ensures fields == old(fields).(timeEstimate := estimate) && isOpen == old(isOpen)
    {
      fields := fields.(timeEstimate := estimate);
    }

    /**
     * Pressing Save in the open dialog: the input shows `timeEstimate || ''`. When the submit
     * fires (enabled button, non-empty title, valid estimate) the save request for the current
     * fields is sent and the dialog closes; otherwise nothing is sent and it stays open. The
     * fields are never cleared.
     */
    method Submit(isLoading: bool) returns (request: Option<Mutation>)
      requires isOpen
      modifies this
      ensures request.Some? <==>
                CreateTaskForm.SubmitFires(isLoading, old(fields).title, CreateTaskForm.EstimateOrAbsent(old(fields).timeEstimate))
      ensures request.Some? ==> request.value == SaveRequest(task, old(fields)) && !isOpen
      ensures request.None? ==> isOpen
      ensures fields == old(fields)
    {
      if CreateTaskForm.SubmitFires(isLoading, fields.title, CreateTaskForm.EstimateOrAbsent(fields.timeEstimate)) {
        request := Some(SaveRequest(task, fields));
        isOpen := false;
      } else {
        request := None;
      }
    }

    /** The Cancel button: `onClose` only. */
    method Cancel()
      modifies this
      ensures !isOpen && fields == old(fields)
    {
      isOpen := false;
    }
  }
}
