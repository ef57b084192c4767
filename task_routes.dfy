/**
 * The task routes of the server (server/src/routes/tasks.ts) over an in-memory store that
 * maps task ids to task records. Each handler looks the task up, answers 404 when it is
 * missing, and otherwise writes the fields it reads from the request body.
 *
 * The database layer leaves a record field unchanged when the value handed to it is
 * `undefined`; that convention is an assumption of this model (it belongs to the database
 * client, which is not part of this model).
 */
module TaskRoutes {
  import opened Wrappers
  import opened TaskTypes

  /** The only user the routes read and write. */
  const FixedUser: string := "temp-user-id"

  /** What a handler answers. */
  datatype Response =
    | Json(status: int, task: Task)
    | NoContent(status: int)
    | Error(status: int, message: string)

  const NotFound: Response := Error(404, "Task not found")

  /** PATCH `/:id/toggle` on a found task. */
  function Toggled(t: Task): Task {
    t.(completed := !t.completed)
  }

  /** Toggling flips the completion flag only, and toggling twice restores the task. */
  lemma ToggleIsInvolution(t: Task)
    ensures Toggled(t).completed != t.completed
    ensures Toggled(t).(completed := t.completed) == t
    ensures Toggled(Toggled(t)) == t
  {
  }

  /** A date sent in a body, read the way the routes test it: a missing or empty text is null. */
  function TruthyDate(d: Option<string>): Option<string>
  {
    if HasText(d) then d else None
  }

  /** PATCH `/:id/plan` on a found task. */
  function Planned(t: Task, plannedDate: Option<string>): Task {
    t.(plannedDate := TruthyDate(plannedDate))
  }

  /** Planning writes the planned date (null when the sent one is missing or empty) and nothing else. */
  lemma PlanWritesOnlyPlannedDate(t: Task, plannedDate: Option<string>)
    ensures Planned(t, plannedDate).plannedDate == (if HasText(plannedDate) then plannedDate else None)
    ensures Planned(t, plannedDate).(plannedDate := t.plannedDate) == t
    ensures Planned(Planned(t, plannedDate), plannedDate) == Planned(t, plannedDate)
  {
  }

  /** How the database writes an optional member of a body: left out keeps, null clears, a value is stored. */
  function Apply<T>(f: Field<T>, current: Option<T>): Option<T>
  {
    match f
    case Absent => current
    case Null => None
    case Given(v) => Some(v)
  }

  /** The `dueDate` the update and create routes store: the sent text when it is non-empty, else null. */
  function SentDate(f: Field<string>): Option<string>
  {
    if f.Given? && f.value != "" then Some(f.value) else None
  }

  /**
   * PATCH `/:id` on a found task whose body does not send a null title: title, description,
   * estimate and start time follow the body, the due date is always rewritten, and every
   * other member of the body is ignored.
   */
  function Updated(t: Task, data: UpdateInput): Task
    requires !data.title.Null?
  {
    t.(title := if data.title.Given? then data.title.value else t.title,
       description := Apply(data.description, t.description),
       dueDate := SentDate(data.dueDate),
       timeEstimate := Apply(data.timeEstimate, t.timeEstimate),
       startTime := Apply(data.startTime, t.startTime))
  }

  /**
   * The update never changes the planned date, the recorded time, the completion flag, the
   * id, the creation stamp or the owner, whatever the body holds.
   */
  lemma UpdateIgnoresUnreadFields(t: Task, data: UpdateInput)
    requires !data.title.Null?
    ensures Updated(t, data).plannedDate == t.plannedDate
    ensures Updated(t, data).actualTime == t.actualTime
    ensures Updated(t, data).completed == t.completed
    ensures Updated(t, data).id == t.id && Updated(t, data).createdAt == t.createdAt && Updated(t, data).userId == t.userId
  {
  }

  /** The due date is cleared by every update that does not send a non-empty one. */
  lemma UpdateRewritesDueDate(t: Task, data: UpdateInput)
    requires !data.title.Null?
    ensures Updated(t, data).dueDate == (if data.dueDate.Given? && data.dueDate.value != "" then Some(data.dueDate.value) else None)
  {
  }

  /** An update that sends only a start time sets it and clears the due date. */
  lemma StartTimeOnlyUpdate(t: Task, startTime: string)
    ensures Updated(t, EmptyUpdate.(startTime := Given(startTime))) == t.(startTime := Some(startTime), dueDate := None)
  {
  }

  /**
   * The update the routes evidently mean: every member the client sends is written, and a
   * member left out keeps its stored value.
   */
  function UpdatedIntended(t: Task, data: UpdateInput): Task
    requires !data.title.Null?
  {
    t.(title := if data.title.Given? then data.title.value else t.title,
       description := Apply(data.description, t.description),
       dueDate := if data.dueDate.Absent? then t.dueDate else SentDate(data.dueDate),
       plannedDate := Apply(data.plannedDate, t.plannedDate),
       timeEstimate := Apply(data.timeEstimate, t.timeEstimate),
       actualTime := Apply(data.actualTime, t.actualTime),
       startTime := Apply(data.startTime, t.startTime))
  }

  /**
   * The intended update leaves a task alone for an empty body, writes the planned date and
   * the recorded time when they are sent, keeps the due date when it is left out, and agrees
   * with the route as written on every body that sends a due date and no planned date or
   * recorded time.
   */
  lemma IntendedUpdateWritesSentFields(t: Task, data: UpdateInput)
    requires !data.title.Null?
    ensures UpdatedIntended(t, EmptyUpdate) == t
    ensures data.plannedDate.Given? ==> UpdatedIntended(t, data).plannedDate == Some(data.plannedDate.value)
    ensures data.actualTime.Given? ==> UpdatedIntended(t, data).actualTime == Some(data.actualTime.value)
    ensures data.dueDate.Absent? ==> UpdatedIntended(t, data).dueDate == t.dueDate
    ensures !data.dueDate.Absent? && data.plannedDate.Absent? && data.actualTime.Absent? ==>
              UpdatedIntended(t, data) == Updated(t, data)
  {
  }

  /**
   * As written, the route drops a sent planned date and a sent recorded time, and an
   * update that leaves the due date out still clears it: here a body of only
   * `{plannedDate: "2024-05-06", actualTime: 30}` on a task due "2024-05-10" changes the due
   * date and nothing it asked for.
   */
  lemma UpdateDropsPlannedDateAndActualTime()
    ensures var t := Task("t1", "Write report", None, false, Some("2024-05-10"), None, None, Some(30), None, 0, FixedUser);
            var data := EmptyUpdate.(plannedDate := Given("2024-05-06"), actualTime := Given(30));
            && Updated(t, data).plannedDate == None
            && Updated(t, data).actualTime == None
            && Updated(t, data).dueDate == None
            && UpdatedIntended(t, data).plannedDate == Some("2024-05-06")
            && UpdatedIntended(t, data).actualTime == Some(30)
            && UpdatedIntended(t, data).dueDate == Some("2024-05-10")
  {
  }

  /**
   * POST `/` with a fresh id and the creation time: the title, description and estimate
   * from the body, the due date when non-empty, never a planned date, start time or
   * recorded time, not completed, owned by the fixed user.
   */
  function NewTask(id: string, now: int, input: CreateInput): Task {
    Task(id, input.title, input.description, false, TruthyDate(input.dueDate), None, None,
         input.timeEstimate, None, now, FixedUser)
  }

  /**
   * A POST `/` body as the route receives it: one whose title member is a text (every client
   * payload is one), or one whose title is left out or `null`, which the required title
   * column refuses.
   */
  datatype CreateBody = TitledBody(input: CreateInput) | UntitledBody

  /** A created task ignores the planned date and start time of the body. */
  lemma CreateIgnoresPlanning(id: string, now: int, input: CreateInput)
    ensures NewTask(id, now, input).plannedDate.None? && NewTask(id, now, input).startTime.None?
    ensures NewTask(id, now, input).actualTime.None? && !NewTask(id, now, input).completed
    ensures NewTask(id, now, input).userId == FixedUser && NewTask(id, now, input).id == id
    ensures NewTask(id, now, input).dueDate.Some? <==> HasText(input.dueDate)
    ensures NewTask(id, now, input) == NewTask(id, now, input.(plannedDate := None, startTime := None))
  {
  }

  /** Newest first by creation stamp. */
  predicate NewestFirst(s: seq<Task>) {
    forall i, j :: 0 <= i < j < |s| ==> s[i].createdAt >= s[j].createdAt
  }

  /** Where a task goes in a newest-first list: before the first task that is not newer. */
  function InsertPos(s: seq<Task>, t: Task): (k: nat)
    requires NewestFirst(s)
    ensures k <= |s|
    ensures forall i :: 0 <= i < k ==> s[i].createdAt > t.createdAt
    ensures forall i :: k <= i < |s| ==> s[i].createdAt <= t.createdAt
  {
    if |s| == 0 || s[0].createdAt <= t.createdAt then 0 else 1 + InsertPos(s[1..], t)
  }

  /** Inserts a task into a newest-first list at its place. */
  function InsertNewest(s: seq<Task>, t: Task): (r: seq<Task>)
    requires NewestFirst(s)
    ensures |r| == |s| + 1
    ensures NewestFirst(r)
    ensures forall i :: 0 <= i < |r| ==>
              r[i] == (if i < InsertPos(s, t) then s[i] else if i == InsertPos(s, t) then t else s[i - 1])
  {
    var k := InsertPos(s, t);
    var r := s[..k] + [t] + s[k..];
    assert forall i :: 0 <= i < |r| ==> r[i] == (if i < k then s[i] else if i == k then t else s[i - 1]);
    r
  }

  /** The ids of a list are pairwise different. */
  predicate DistinctIds(s: seq<Task>) {
    forall i, j :: 0 <= i < |s| && 0 <= j < |s| && s[i].id == s[j].id ==> i == j
  }

  /** Inserting a task adds just that task. */
  lemma InsertMembers(s: seq<Task>, t: Task)
    requires NewestFirst(s)
    ensures forall x :: x in InsertNewest(s, t) <==> x in s || x == t
  {
    var r, k := InsertNewest(s, t), InsertPos(s, t);
    forall x | x in s ensures x in r {
      var i :| 0 <= i < |s| && s[i] == x;
      assert r[if i < k then i else i + 1] == x;
    }
    assert r[k] == t;
    forall x | x in r ensures x in s || x == t {
      var i :| 0 <= i < |r| && r[i] == x;
      if i < k {
        assert x == s[i];
      } else if i > k {
        assert x == s[i - 1];
      }
    }
  }

  /** Inserting a task whose id is not in the list keeps the ids distinct and adds just that task. */
  lemma InsertKeepsDistinct(s: seq<Task>, t: Task)
    requires NewestFirst(s) && DistinctIds(s)
    requires forall x :: x in s ==> x.id != t.id
    ensures DistinctIds(InsertNewest(s, t))
    ensures forall x :: x in InsertNewest(s, t) <==> x in s || x == t
  {
    InsertMembers(s, t);
    var r, k := InsertNewest(s, t), InsertPos(s, t);
    forall i, j | 0 <= i < |r| && 0 <= j < |r| && r[i].id == r[j].id ensures i == j {
      var i' := if i < k then i else i - 1;
      var j' := if j < k then j else j - 1;
      if i != k && j != k {
        assert r[i] == s[i'] && r[j] == s[j'];
      }
    }
  }

  /** The task store behind the routes. */
  class TaskStore {
    var tasks: map<string, Task>

    /** Every record is stored under its own id. */
    ghost predicate Valid()
      reads this
    {
      forall k :: k in tasks ==> tasks[k].id == k
    }

    constructor()
      ensures tasks == map[] && Valid()
    {
      tasks := map[];
    }

    /** GET `/`: the fixed user's tasks, each once, newest first. */
    method List() returns (r: seq<Task>)
      requires Valid()
      ensures forall t :: t in r <==> t in tasks.Values && t.userId == FixedUser
      ensures DistinctIds(r)
      ensures NewestFirst(r)
    {
      var pending := tasks.Keys;
      r := [];
      while pending != {}
        invariant pending <= tasks.Keys
        invariant NewestFirst(r) && DistinctIds(r)
        invariant forall t :: t in r ==> t.id in tasks && t.id !in pending && tasks[t.id] == t && t.userId == FixedUser
        invariant forall k :: k in tasks && k !in pending && tasks[k].userId == FixedUser ==> tasks[k] in r
        decreases |pending|
      {
        var id :| id in pending;
        pending := pending - {id};
        if tasks[id].userId == FixedUser {
          InsertKeepsDistinct(r, tasks[id]);
          r := InsertNewest(r, tasks[id]);
        }
      }
      forall t | t in tasks.Values && t.userId == FixedUser ensures t in r {
        var k :| k in tasks && tasks[k] == t;
      }
    }

    /**
     * POST `/`: stores the new task under its fresh id and answers 201 with it; a body without
     * a title makes the database throw, answered with 500 and no change.
     */
    method Create(id: string, now: int, body: CreateBody) returns (res: Response)
      requires Valid() && id !in tasks
      modifies this
      ensures Valid()
      ensures body.UntitledBody? ==> tasks == old(tasks) && res == Error(500, "Failed to create task")
      ensures body.TitledBody? ==>
                && tasks == old(tasks)[id := NewTask(id, now, body.input)]
                && res == Json(201, NewTask(id, now, body.input))
    {
      match body
      case UntitledBody =>
        res := Error(500, "Failed to create task");
      case TitledBody(input) =>
        var task := NewTask(id, now, input);
        tasks := tasks[id := task];
        res := Json(201, task);
    }

    /** PATCH `/:id/toggle`. */
    method Toggle(id: string) returns (res: Response)
      requires Valid()
      modifies this
      ensures Valid()
      ensures id !in old(tasks) ==> tasks == old(tasks) && res == NotFound
      ensures id in old(tasks) ==>
                tasks == old(tasks)[id := Toggled(old(tasks)[id])] && res == Json(200, Toggled(old(tasks)[id]))
    {
      if id !in tasks {
        return NotFound;
      }
      var updated := Toggled(tasks[id]);
      tasks := tasks[id := updated];
      res := Json(200, updated);
    }

    /** DELETE `/:id`: the database fails on a missing id, which the route answers with 500. */
    method Delete(id: string) returns (res: Response)
      requires Valid()
      modifies this
      ensures Valid()
      ensures id !in old(tasks) ==> tasks == old(tasks) && res == Error(500, "Failed to delete task")
      ensures id in old(tasks) ==> tasks == old(tasks) - {id} && res == NoContent(204)
      ensures forall k :: k in old(tasks) && k != id ==> k in tasks && tasks[k] == old(tasks)[k]
      ensures id !in tasks
    {
      if id !in tasks {
        return Error(500, "Failed to delete task");
      }
      tasks := tasks - {id};
      res := NoContent(204);
    }

    /** PATCH `/:id/plan`. */
    method Plan(id: string, plannedDate: Option<string>) returns (res: Response)
      requires Valid()
      modifies this
      ensures Valid()
      ensures id !in old(tasks) ==> tasks == old(tasks) && res == NotFound
      ensures id in old(tasks) ==>
                tasks == old(tasks)[id := Planned(old(tasks)[id], plannedDate)]
                && res == Json(200, Planned(old(tasks)[id], plannedDate))
    {
      if id !in tasks {
        return NotFound;
      }
      var updated := Planned(tasks[id], plannedDate);
      tasks := tasks[id := updated];
      res := Json(200, updated);
    }

    /**
     * PATCH `/:id`, as written. A null title is refused by the database (the column is
     * required), which the route answers with 500 and no change.
     */
    method Update(id: string, data: UpdateInput) returns (res: Response)
      requires Valid()
      modifies this
      ensures Valid()
      ensures id !in old(tasks) ==> tasks == old(tasks) && res == NotFound
      ensures id in old(tasks) && data.title.Null? ==> tasks == old(tasks) && res == Error(500, "Failed to update task")
      ensures id in old(tasks) && !data.title.Null? ==>
                tasks == old(tasks)[id := Updated(old(tasks)[id], data)]
                && res == Json(200, Updated(old(tasks)[id], data))
    {
      if id !in tasks {
        return NotFound;
      }
      if data.title.Null? {
        return Error(500, "Failed to update task");
      }
      var updated := Updated(tasks[id], data);
      tasks := tasks[id := updated];
      res := Json(200, updated);
    }
  }
}
