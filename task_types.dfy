/**
 * The task record and the request payloads that travel between the client views and the
 * server routes: the field list of client/src/types/task.ts and the payload shapes of the
 * client's task API.
 */
module TaskTypes {
  import opened Wrappers

  /**
   * A task as the server stores and returns it. Dates and clock times are the texts the
   * server holds (`YYYY-MM-DD...` and `HH:MM`); `createdAt` is a timestamp. The store-owned
   * `updatedAt` stamp is not part of this model.
   */
  datatype Task = Task(
    id: string,
    title: string,
    description: Option<string>,
    completed: bool,
    dueDate: Option<string>,
    plannedDate: Option<string>,
    startTime: Option<string>,
    timeEstimate: Option<int>,
    actualTime: Option<int>,
    createdAt: int,
    userId: string)

  /** JavaScript truthiness of a `string | null` field: present and not empty. */
  predicate HasText(o: Option<string>) {
    o.Some? && o.value != ""
  }

  /** JavaScript truthiness of a `number | null` field: present and not 0. */
  predicate HasAmount(o: Option<int>) {
    o.Some? && o.value != 0
  }

  /** `x || 0` on a `number | null` field. */
  function AmountOrZero(o: Option<int>): int {
    o.GetOr(0)
  }

  /** The body of a create request; absent optional members are None. */
  datatype CreateInput = CreateInput(
    title: string,
    description: Option<string>,
    dueDate: Option<string>,
    plannedDate: Option<string>,
    timeEstimate: Option<int>,
    startTime: Option<string>)

  /** One member of a JSON update body: left out, sent as `null`, or sent with a value. */
  datatype Field<T> = Absent | Null | Given(value: T)

  /** The body of an update request (every member optional). */
  datatype UpdateInput = UpdateInput(
    title: Field<string>,
    description: Field<string>,
    dueDate: Field<string>,
    plannedDate: Field<string>,
    timeEstimate: Field<int>,
    actualTime: Field<int>,
    startTime: Field<string>)

  /** An update body with no members; client payloads are built from it. */
  const EmptyUpdate := UpdateInput(Absent, Absent, Absent, Absent, Absent, Absent, Absent)

  /** A request the client sends to the task routes. */
  datatype Mutation =
    | CreateTask(input: CreateInput)
    | ToggleTask(id: string)
    | DeleteTask(id: string)
    | PlanTask(id: string, plannedDate: Option<string>)
    | UpdateTask(id: string, data: UpdateInput)
}
