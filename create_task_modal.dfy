/**
 * The "Create New Task" dialog (client/src/components/CreateTaskModal.tsx): the same payload
 * as the task-list form, the same blank-title refusal, and after a submit the fields are
 * cleared and the dialog closes. Closing is the parent's `onClose`, which here sets the
 * dialog's open flag to false.
 */
module CreateTaskModal {
  import opened Wrappers
  import opened Strings
  import opened TaskTypes
  import opened CreateTaskForm

  /**
   * For a title worth sending, an estimate of 0 blocks the task-list form, whose input shows
   * "0", but not the dialog, whose input shows it empty; an estimate of 7 blocks both.
   */
  lemma ZeroEstimateBlocksOnlyTheForm(title: string)
    requires Trim(title) != ""
    ensures !SubmitFires(false, title, Some(0))
    ensures SubmitFires(false, title, EstimateOrAbsent(Some(0)))
    ensures !SubmitFires(false, title, EstimateOrAbsent(Some(7)))
  {
  }

  class Modal {
    var isOpen: bool
    var title: string
    var description: string
    var dueDate: string
    var timeEstimate: Option<int>

    constructor(isOpen: bool)
      ensures this.isOpen == isOpen
      ensures title == "" && description == "" && dueDate == "" && timeEstimate == None
    {
      this.isOpen := isOpen;
      title, description, dueDate, timeEstimate := "", "", "", None;
    }

    /** `if (!isOpen) return null`: the dialog (and so its form) is on screen only while open. */
    predicate Rendered()
      reads this
    {
      isOpen
    }

    /** The inputs' change handlers: each writes its own field. */
    method SetTitle(text: string)
      modifies this
      ensures title == text
      ensures isOpen == old(isOpen) && description == old(description) && dueDate == old(dueDate) && timeEstimate == old(timeEstimate)
    {
      title := text;
    }

    method SetDescription(text: string)
      modifies this
      ensures description == text
      ensures isOpen == old(isOpen) && title == old(title) && dueDate == old(dueDate) && timeEstimate == old(timeEstimate)
    {
      description := text;
    }

    method SetDueDate(text: string)
      modifies this
      ensures dueDate == text
      ensures isOpen == old(isOpen) && title == old(title) && description == old(description) && timeEstimate == old(timeEstimate)
    {
      dueDate := text;
    }

    method SetTimeEstimate(estimate: Option<int>)
      modifies this
      ensures timeEstimate == estimate
      ensures isOpen == old(isOpen) && title == old(title) && description == old(description) && dueDate == old(dueDate)
    {
      timeEstimate := estimate;
    }

    /**
     * Pressing Create Task in the rendered dialog: the input shows `timeEstimate || ''`, so an
     * estimate of 0 shows empty and passes. When the submit fires, `handleSubmit` sends the
     * payload, clears the fields and closes the dialog; otherwise nothing changes.
     */
    method Submit(isLoading: bool) returns (sent: Option<CreateInput>)
      requires Rendered()
      modifies this
      ensures sent.Some? <==> SubmitFires(isLoading, old(title), EstimateOrAbsent(old(timeEstimate)))
      ensures sent.Some? ==> sent == NewTaskPayload(old(title), old(description), old(dueDate), old(timeEstimate))
      ensures sent.None? ==>
                isOpen && title == old(title) && description == old(description) && dueDate == old(dueDate) && timeEstimate == old(timeEstimate)
      ensures sent.Some? ==> !isOpen && title == "" && description == "" && dueDate == "" && timeEstimate == None
    {
      if SubmitFires(isLoading, title, EstimateOrAbsent(timeEstimate)) {
        sent := NewTaskPayload(title, description, dueDate, timeEstimate);
        title, description, dueDate, timeEstimate := "", "", "", None;
        isOpen := false;
      } else {
        sent := None;
      }
    }

    /** The Cancel button: `onClose` only; the fields keep what was typed. */
    method Cancel()
      modifies this
      ensures !isOpen
      ensures title == old(title) && description == old(description) && dueDate == old(dueDate) && timeEstimate == old(timeEstimate)
    {
      isOpen := false;
    }
  }
}
