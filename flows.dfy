/**
 * What the client's requests do once the task routes carry them out: the page or component
 * that builds a request on one side, the route's effect on the stored task on the other.
 * These lemmas show where the two fit and, for the general update route as written, where
 * they do not: a week-view drop and a timer credit are both lost, and every update the
 * client sends without a due date clears it. The page shown never starts a timer, so the
 * second loss is only reachable once it does.
 */
module Flows {
  import opened Wrappers
  import opened Strings
  import opened TaskTypes
  import opened TaskRoutes
  import Timeline
  import Today
  import Week
  import TaskItem
  import WeekTaskCard
  import CreateTaskForm
  import EditTaskModal

  /**
   * "Remove from today" takes a task off today's list and out of every day column, and the
   * task list offers to plan it again.
   */
  lemma RemovedTaskLeavesToday(t: Task, today: string, dayText: string)
    ensures var m := Today.RemoveFromTodayRequest(t.id);
            var u := Planned(t, m.plannedDate);
            && !Today.IsToday(u.plannedDate, today)
            && Today.TodayTasks([u], today) == []
            && Week.UnplannedTasks([u]) == [u] && Week.TasksForDay([u], dayText) == []
            && TaskItem.ShowPlanButton(true, u, today)
            && TaskItem.PlanButtonLabel(u, today) == "Plan for Today"
  {
  }

  /** Planning a task for today puts it on today's list and removes the task list's plan button. */
  lemma PlanningForTodayHidesButton(t: Task, date: string, today: string, hasOnPlan: bool)
    requires date != "" && DatePart(date) == today
    ensures var u := Planned(t, Some(date));
            && Today.IsToday(u.plannedDate, today)
            && Today.TodayTasks([u], today) == [u]
            && Week.TasksForDay([u], today) == [u]
            && !TaskItem.ShowPlanButton(hasOnPlan, u, today)
  {
  }

  /**
   * As written, a drop on a week column changes no planned date: the task stays in the
   * column it was in (an unplanned task stays unplanned), and its due date is cleared.
   * The intended update files it under the day it was dropped on.
   */
  lemma WeekDropKeepsPlannedDate(t: Task, dayText: string)
    requires dayText != "" && 'T' !in dayText
    ensures var data := Week.DropUpdate(dayText);
            && Updated(t, data).plannedDate == t.plannedDate
            && Updated(t, data).dueDate == None
            && (!HasText(t.plannedDate) ==> Week.UnplannedTasks([Updated(t, data)]) == [Updated(t, data)])
            && Week.PlannedOn(UpdatedIntended(t, data), dayText)
            && UpdatedIntended(t, data).dueDate == t.dueDate
  {
    BeforeAbsent(dayText, 'T');
  }

  /**
   * As written, the time the Today page credits to a task is never recorded; the intended
   * update adds it to what the task already had. The credit is not reachable as the page is
   * written: `handleStartTimer` is handed only to `Timeline`, which takes no such prop and
   * never calls it, so no session is ever started and no credit is sent.
   */
  lemma TimerCreditIsLost(tasks: seq<Task>, i: int, minutes: int)
    requires 0 <= i < |tasks|
    requires forall j :: 0 <= j < i ==> tasks[j].id != tasks[i].id
    ensures var data := Today.CreditRequest(tasks, tasks[i].id, minutes).data;
            && Updated(tasks[i], data).actualTime == tasks[i].actualTime
            && Updated(tasks[i], data).dueDate == None
            && UpdatedIntended(tasks[i], data).actualTime == Some(AmountOrZero(tasks[i].actualTime) + minutes)
  {
    Today.CreditAddsToFirstMatch(tasks, i, minutes);
  }

  /**
   * Ticking a week card's checkbox, carried through the toggle route, flips that task's
   * completion flag; every other field and every other stored task stays as it was.
   */
  method ToggleFromWeekCard(store: TaskStore, t: Task) returns (res: Response)
    requires store.Valid() && t.id in store.tasks
    modifies store
    ensures store.Valid()
    ensures store.tasks.Keys == old(store.tasks).Keys
    ensures res.Json? && res.status == 200 && res.task == store.tasks[t.id]
    ensures store.tasks[t.id].completed == !old(store.tasks)[t.id].completed
    ensures store.tasks[t.id].(completed := old(store.tasks)[t.id].completed) == old(store.tasks)[t.id]
    ensures forall k :: k in old(store.tasks) && k != t.id ==> store.tasks[k] == old(store.tasks)[k]
  {
    var m := WeekTaskCard.ToggleRequest(t);
    res := store.Toggle(m.id);
  }

  /**
   * A drop on an hour row of the Today timeline gives the task a start time at the top of
   * that hour (and, as written, clears its due date); a drop on the unscheduled zone clears
   * the start time, so the task shows in the unscheduled column.
   */
  lemma DragPlacesTask(t: Task, target: Today.DropTarget)
    ensures var data := Today.DragRequest(t.id, Some(target)).value.data;
            && !data.title.Null?
            && (target.HourSlot? ==>
                  && Timeline.StartOf(Updated(t, data).startTime.value) == Some(target.hour * 60)
                  && Updated(t, data).dueDate == None
                  && UpdatedIntended(t, data).dueDate == t.dueDate)
            && (target.UnscheduledZone? ==> Today.Unscheduled([Updated(t, data)]) == [Updated(t, data)])
  {
    Today.DropSetsStartTime(t.id, target);
  }

  /**
   * A task created from the task-list form carries the trimmed title, a description only
   * when one was typed, no plan and no start time: it lands in the week's unplanned list
   * and the task list offers to plan it for today.
   */
  lemma CreatedFromForm(id: string, now: int, title: string, description: string, dueDate: string,
                        timeEstimate: Option<int>, today: string)
    requires CreateTaskForm.NewTaskPayload(title, description, dueDate, timeEstimate).Some?
    ensures var u := NewTask(id, now, CreateTaskForm.NewTaskPayload(title, description, dueDate, timeEstimate).value);
            && u.title == Trim(title) && u.title != ""
            && (u.description.Some? <==> Trim(description) != "")
            && (u.dueDate.Some? <==> dueDate != "")
            && Week.UnplannedTasks([u]) == [u]
            && TaskItem.ShowPlanButton(true, u, today)
            && TaskItem.PlanButtonLabel(u, today) == "Plan for Today"
  {
    var p := CreateTaskForm.NewTaskPayload(title, description, dueDate, timeEstimate).value;
    assert p.title == Trim(title) && p.plannedDate.None? && p.startTime.None?;
    assert p.description.Some? <==> Trim(description) != "";
    CreateTaskForm.PayloadSpec(title, description, dueDate, timeEstimate);
    assert p.title != "";
  }

  /**
   * Saving the edit dialog untouched writes back what the task had, except that the due date
   * is reduced to its calendar-day text (and a due date without one is cleared).
   */
  lemma UntouchedEditSave(t: Task)
    ensures Updated(t, EditTaskModal.SavePayload(EditTaskModal.InitialFields(t))) ==
              t.(dueDate := if HasText(t.dueDate) && DatePart(t.dueDate.value) != "" then Some(DatePart(t.dueDate.value)) else None)
  {
  }
}
