/**
 * The row of the task list (client/src/components/TaskItem.tsx): whether the row offers to
 * plan its task for today, and what that button says. The calendar day of a planned date is
 * the text before its first `T`, as on the Today page.
 */
module TaskItem {
  import opened Strings
  import opened TaskTypes
  import Today

  /** `isPlannedForPast`: there is a planned date and its day is not today (a future day counts too). */
  predicate IsPlannedForPast(t: Task, today: string) {
    HasText(t.plannedDate) && DatePart(t.plannedDate.value) != today
  }

  /** Whether the plan button is rendered; `hasOnPlan` tells whether the list passed `onPlanForToday`. */
  predicate ShowPlanButton(hasOnPlan: bool, t: Task, today: string) {
    hasOnPlan && (!HasText(t.plannedDate) || IsPlannedForPast(t, today))
  }

  /** The text of the plan button. */
  function PlanButtonLabel(t: Task, today: string): string {
    if IsPlannedForPast(t, today) then "Reschedule for Today" else "Plan for Today"
  }

  /** "Planned for past" means planned for a day that the Today page does not count as today. */
  lemma PastMeansAnotherDay(t: Task, today: string)
    ensures IsPlannedForPast(t, today) <==> HasText(t.plannedDate) && !Today.IsToday(t.plannedDate, today)
  {
  }

  /**
   * The button shows exactly when the list lets the row plan and the task is not planned for
   * today; in particular it never shows for a task already planned today.
   */
  lemma PlanButtonIffNotPlannedToday(hasOnPlan: bool, t: Task, today: string)
    ensures ShowPlanButton(hasOnPlan, t, today) <==> hasOnPlan && !Today.IsToday(t.plannedDate, today)
    ensures Today.IsToday(t.plannedDate, today) ==> !ShowPlanButton(hasOnPlan, t, today)
  {
  }

  /** A shown button offers to reschedule a task planned for another day and to plan an unplanned one. */
  lemma PlanButtonLabels(hasOnPlan: bool, t: Task, today: string)
    requires ShowPlanButton(hasOnPlan, t, today)
    ensures HasText(t.plannedDate) ==> PlanButtonLabel(t, today) == "Reschedule for Today"
    ensures !HasText(t.plannedDate) ==> PlanButtonLabel(t, today) == "Plan for Today"
  {
  }
}
