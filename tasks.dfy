/** The `tasks` table and the task endpoints of the home controller: create, complete
    (which schedules the recheck), overwrite the status, log time, verify the recheck.
    Each endpoint is a method of `TaskTable` that rewrites one row through a pure
    per-row function; the functions carry the "only these fields change" promises. */
module Tasks {
  import opened Base
  import PhpJson

  /** One row of `tasks`. Day numbers stand for dates, integer timestamps for date-times;
      nullable columns are `Option`s. */
  datatype Task = Task(
    id: nat,
    title: string,
    description: Option<string>,
    ruleId: Option<string>,
    assignedTo: Option<string>,
    assignedRole: Option<string>,
    status: string,
    priority: string,
    estimatedHours: Option<real>,
    loggedHours: Option<real>,
    dueDate: Option<int>,
    recheckType: Option<string>,
    createdAt: int,
    completedAt: Option<int>,
    recheckDate: Option<int>,
    recheckVerified: bool,
    recheckResult: Option<string>)

  /** The decoded body of `POST /api/tasks`; an absent or null field is `None`. */
  datatype NewTaskBody = NewTaskBody(
    title: Option<string>,
    description: Option<string>,
    ruleId: Option<string>,
    assignedTo: Option<string>,
    assignedRole: Option<string>,
    priority: Option<string>,
    estimatedHours: Option<real>,
    dueDate: Option<int>,
    recheckType: Option<string>)

  /** An endpoint's HTTP status and the task row it returns (`None` where the source
      returns an error object, or the `false` of a lookup that found no row). */
  datatype Reply = Reply(code: int, task: Option<Task>)

  /** The reply of `POST /api/tasks/{id}/complete`. */
  datatype CompleteReply =
    | TaskNotFound
    | TaskCompleted(task: Task, recheckDate: int, recheckDays: nat)

  /** An open task is any task not yet done. */
  predicate IsOpen(t: Task) {
    t.status != "done"
  }

  /** Done, with a recheck date, and the recheck not yet verified. */
  predicate AwaitsRecheck(t: Task) {
    t.status == "done" && t.recheckDate.Some? && !t.recheckVerified
  }

  /** logged_hours as the endpoints read it: null counts as 0. */
  function LoggedOf(t: Task): real {
    t.loggedHours.GetOr(0.0)
  }

  /** The interval, in days, between completing a task and rechecking it: one week for
      404 and sitemap fixes, four weeks for ranking drops, two weeks for every other
      recheck type, unknown or null included. */
  function RecheckDays(recheckType: Option<string>): (days: nat)
    ensures days == 7 <==> recheckType in {Some("404_fix"), Some("sitemap_fix")}
    ensures days == 28 <==> recheckType == Some("ranking_drop")
    ensures days == 14 <==> recheckType !in {Some("404_fix"), Some("sitemap_fix"), Some("ranking_drop")}
  {
    match recheckType
    case Some("404_fix") => 7
    case Some("sitemap_fix") => 7
    case Some("cannibalization_fix") => 14
    case Some("homepage_cannibalization") => 14
    case Some("intent_mismatch") => 14
    case Some("weak_page") => 14
    case Some("zero_click") => 14
    case Some("ranking_drop") => 28
    case _ => 14
  }

  /** The row `createTask` inserts. */
  function NewTask(id: nat, body: NewTaskBody, now: int): (t: Task)
    ensures t.id == id && t.createdAt == now
    ensures t.status == "pending" && LoggedOf(t) == 0.0 && t.loggedHours.Some?
    ensures t.priority == (if body.priority.Some? then body.priority.value else "medium")
    ensures t.estimatedHours == Some(if body.estimatedHours.Some? then body.estimatedHours.value else 1.0)
    ensures body.title.None? ==> t.title == "Untitled Task"
    ensures body.title.Some? ==> t.title == body.title.value
    ensures t.assignedTo == body.assignedTo && t.recheckType == body.recheckType
    ensures t.description == body.description && t.ruleId == body.ruleId
    ensures t.assignedRole == body.assignedRole && t.dueDate == body.dueDate
    ensures IsOpen(t) && !AwaitsRecheck(t)
    ensures t.completedAt.None? && t.recheckResult.None?
    ensures t.recheckDate.None? && !t.recheckVerified
  {
    Task(
      id := id,
      title := body.title.GetOr("Untitled Task"),
      description := body.description,
      ruleId := body.ruleId,
      assignedTo := body.assignedTo,
      assignedRole := body.assignedRole,
      status := "pending",
      priority := body.priority.GetOr("medium"),
      estimatedHours := Some(body.estimatedHours.GetOr(1.0)),
      loggedHours := Some(0.0),
      dueDate := body.dueDate,
      recheckType := body.recheckType,
      createdAt := now,
      completedAt := None,
      recheckDate := None,
      recheckVerified := false,
      recheckResult := None)
  }

  /** The row after `completeTask`: done, stamped, and due for a recheck `RecheckDays`
      after `today`; every other column, the verification columns included, is kept. */
  function Completed(t: Task, now: int, today: int): (r: Task)
    ensures r.status == "done" && r.completedAt == Some(now)
    ensures r.recheckDate == Some(today + RecheckDays(t.recheckType))
    ensures r.(status := t.status, completedAt := t.completedAt, recheckDate := t.recheckDate) == t
    ensures !IsOpen(r)
    ensures AwaitsRecheck(r) <==> !t.recheckVerified
  {
    t.(status := "done", completedAt := Some(now), recheckDate := Some(today + RecheckDays(t.recheckType)))
  }

  /** The row after `updateTaskStatus`: the status overwritten, nothing else. */
  function WithStatus(t: Task, status: string): (r: Task)
    ensures r.status == status
    ensures r.(status := t.status) == t
  {
    t.(status := status)
  }

  /** The row after `logTime`: `hours` added to the logged hours (null read as 0). */
  function WithLoggedTime(t: Task, hours: real): (r: Task)
    ensures LoggedOf(r) == LoggedOf(t) + hours
    ensures r.(loggedHours := t.loggedHours) == t
  {
    t.(loggedHours := Some(LoggedOf(t) + hours))
  }

  /** The row after `verifyTask`: verified, with the recheck's outcome. */
  function Verified(t: Task, passed: bool): (r: Task)
    ensures r.recheckVerified && r.recheckResult == Some(if passed then "pass" else "fail")
    ensures r.(recheckVerified := t.recheckVerified, recheckResult := t.recheckResult) == t
    ensures !AwaitsRecheck(r)
  {
    t.(recheckVerified := true, recheckResult := Some(if passed then "pass" else "fail"))
  }

  /** The table's rows in id order (the order of insertion), for ids below `n`. When every
      row carries its own key as id, each row is listed exactly once. */
  function RowsBelow(m: map<nat, Task>, n: nat): (rows: seq<Task>)
    ensures forall id :: id < n && id in m ==> m[id] in rows
    ensures forall t :: t in rows ==> exists id :: id < n && id in m && m[id] == t
    ensures (forall id :: id in m ==> m[id].id == id) ==> forall t :: t in rows ==> multiset(rows)[t] == 1
  {
    if n == 0 then []
    else
      var below := RowsBelow(m, n - 1);
      if n - 1 in m then
        assert (forall id :: id in m ==> m[id].id == id) ==> m[n - 1] !in below;
        below + [m[n - 1]]
      else below
  }

  /** The `tasks` table: rows keyed by their serial id. */
  class TaskTable {
    var tasks: map<nat, Task>
    var nextId: nat

    ghost predicate Valid()
      reads this
    {
      forall id :: id in tasks ==> id < nextId && tasks[id].id == id
    }

    constructor ()
      ensures Valid() && tasks == map[] && nextId == 1
    {
      tasks := map[];
      nextId := 1;
    }

    /** What `SELECT * FROM tasks` sees: every stored task, each once. */
    function Rows(): (rows: seq<Task>)
      reads this
      requires Valid()
      ensures forall t :: t in rows <==> t in tasks.Values
      ensures forall t :: t in rows ==> multiset(rows)[t] == 1
    {
      RowsBelow(tasks, nextId)
    }

    /** POST /api/tasks: inserts a pending task under the next serial id; 201. */
    method CreateTask(body: NewTaskBody, now: int) returns (reply: Reply)
      requires Valid()
      modifies this
      ensures Valid()
      ensures nextId == old(nextId) + 1
      ensures tasks == old(tasks)[old(nextId) := NewTask(old(nextId), body, now)]
      ensures reply == Reply(201, Some(NewTask(old(nextId), body, now)))
    {
      var t := NewTask(nextId, body, now);
      tasks := tasks[nextId := t];
      nextId := nextId + 1;
      reply := Reply(201, Some(t));
    }

    /** POST /api/tasks/{id}/complete: 404 and no change for an unknown id; otherwise the
        row becomes `Completed` and the reply carries the recheck date and interval. */
    method CompleteTask(id: int, now: int, today: int) returns (reply: CompleteReply)
      requires Valid()
      modifies this
      ensures Valid() && nextId == old(nextId)
      ensures id !in old(tasks) ==> reply == TaskNotFound && tasks == old(tasks)
      ensures id in old(tasks) ==>
        && tasks == old(tasks)[id := Completed(old(tasks)[id], now, today)]
        && reply == TaskCompleted(tasks[id], today + RecheckDays(old(tasks)[id].recheckType),
                                  RecheckDays(old(tasks)[id].recheckType))
    {
      if id !in tasks {
        return TaskNotFound;
      }
      var days := RecheckDays(tasks[id].recheckType);
      var recheckDate := today + days;
      tasks := tasks[id := Completed(tasks[id], now, today)];
      reply := TaskCompleted(tasks[id], recheckDate, days);
    }

    /** POST /api/tasks/{id}/status: overwrites the status (default "pending") with no
        existence check and no transition rule; an unknown id changes nothing and the
        reply carries no row. */
    method UpdateTaskStatus(id: int, status: Option<string>) returns (reply: Reply)
      requires Valid()
      modifies this
      ensures Valid() && nextId == old(nextId)
      ensures id !in old(tasks) ==> tasks == old(tasks) && reply == Reply(200, None)
      ensures id in old(tasks) ==>
        && tasks == old(tasks)[id := WithStatus(old(tasks)[id], status.GetOr("pending"))]
        && reply == Reply(200, Some(tasks[id]))
    {
      var s := status.GetOr("pending");
      if id in tasks {
        tasks := tasks[id := WithStatus(tasks[id], s)];
        reply := Reply(200, Some(tasks[id]));
      } else {
        reply := Reply(200, None);
      }
    }

    /** POST /api/tasks/{id}/log-time: `floatval($body['hours'] ?? 0)`; a non-positive
        amount is a 400 before the row is looked up, an unknown id a 404, both without
        change; otherwise the amount is added to the logged hours. */
    method LogTime(id: int, hoursField: Option<PhpJson.Json>) returns (reply: Reply)
      requires Valid()
      modifies this
      ensures Valid() && nextId == old(nextId)
      ensures PhpJson.FloatVal(hoursField.GetOr(PhpJson.Num(0.0))) <= 0.0 ==>
        reply == Reply(400, None) && tasks == old(tasks)
      ensures PhpJson.FloatVal(hoursField.GetOr(PhpJson.Num(0.0))) > 0.0 && id !in old(tasks) ==>
        reply == Reply(404, None) && tasks == old(tasks)
      ensures PhpJson.FloatVal(hoursField.GetOr(PhpJson.Num(0.0))) > 0.0 && id in old(tasks) ==>
        && tasks == old(tasks)[id := WithLoggedTime(old(tasks)[id], PhpJson.FloatVal(hoursField.GetOr(PhpJson.Num(0.0))))]
        && reply == Reply(200, Some(tasks[id]))
    {
      var hours := PhpJson.FloatVal(hoursField.GetOr(PhpJson.Num(0.0)));
      if hours <= 0.0 {
        return Reply(400, None);
      }
      if id !in tasks {
        return Reply(404, None);
      }
      tasks := tasks[id := WithLoggedTime(tasks[id], hours)];
      reply := Reply(200, Some(tasks[id]));
    }

    /** POST /api/tasks/{id}/verify: marks the recheck verified with "pass" when
        `$body['passed'] ?? false` is truthy and "fail" otherwise; no existence check,
        no requirement that the task be done or have a recheck date. */
    method VerifyTask(id: int, passedField: Option<PhpJson.Json>) returns (reply: Reply)
      requires Valid()
      modifies this
      ensures Valid() && nextId == old(nextId)
      ensures id !in old(tasks) ==> tasks == old(tasks) && reply == Reply(200, None)
      ensures id in old(tasks) ==>
        && tasks == old(tasks)[id := Verified(old(tasks)[id], PhpJson.Truthy(passedField.GetOr(PhpJson.Bool(false))))]
        && reply == Reply(200, Some(tasks[id]))
    {
      var passed := PhpJson.Truthy(passedField.GetOr(PhpJson.Bool(false)));
      if id in tasks {
        tasks := tasks[id := Verified(tasks[id], passed)];
        reply := Reply(200, Some(tasks[id]));
      } else {
        reply := Reply(200, None);
      }
    }
  }

  /** Logging time twice adds up: two calls log the same as one call with the sum. */
  lemma LoggedTimeAccumulates(t: Task, h1: real, h2: real)
    ensures WithLoggedTime(WithLoggedTime(t, h1), h2) == WithLoggedTime(t, h1 + h2)
  {
  }

  /** Completing a task always schedules its recheck one, two or four weeks ahead, so a
      task completed today is never due within the next three days. */
  lemma RecheckIsAtLeastAWeekAway(t: Task, now: int, today: int)
    ensures Completed(t, now, today).recheckDate.value - today in {7, 14, 28}
    ensures Completed(t, now, today).recheckDate.value > today + 3
  {
  }

  /** Setting the status to "done" through `updateTaskStatus` schedules no recheck: a task
      that had no recheck date still has none, so it never reaches the recheck lists. */
  lemma StatusDoneSchedulesNoRecheck(t: Task)
    requires t.recheckDate.None?
    ensures !AwaitsRecheck(WithStatus(t, "done"))
  {
  }
}
