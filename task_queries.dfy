/** The read side of the `tasks` table: `listTasks`, `listRechecks`, the dashboard's task
    and recheck panels and counters, and the task lists handed to the chat prompt. Each is
    an instance of `Sorting.Select`: a filter, an order key and an optional LIMIT. */
module TaskQueries {
  import opened Base
  import opened Sorting
  import opened Tasks

  /** `CASE priority WHEN 'urgent' THEN 1 ... WHEN 'low' THEN 4 END`; any other priority
      yields NULL, which PostgreSQL sorts after every number in ascending order. */
  function PriorityRank(priority: string): (rank: nat)
    ensures 1 <= rank <= 5
    ensures rank == 5 <==> priority !in {"urgent", "high", "medium", "low"}
    ensures priority == "urgent" <==> rank == 1
    ensures priority == "high" <==> rank == 2
    ensures priority == "medium" <==> rank == 3
    ensures priority == "low" <==> rank == 4
  {
    match priority
    case "urgent" => 1
    case "high" => 2
    case "medium" => 3
    case "low" => 4
    case _ => 5
  }

  /** ORDER BY priority rank, then created_at DESC. */
  function PriorityOrder(t: Task): SortKey {
    SortKey(PriorityRank(t.priority), -t.createdAt)
  }

  /** ORDER BY created_at DESC. */
  function NewestFirst(t: Task): SortKey {
    SortKey(-t.createdAt, 0)
  }

  /** ORDER BY recheck_date ASC (only rows with a recheck date are ever ordered by it). */
  function RecheckOrder(t: Task): SortKey {
    SortKey(t.recheckDate.GetOr(0), 0)
  }

  /** The WHERE clause of `listTasks`: a query parameter filters only when it is truthy,
      and a NULL assigned_to never equals a parameter. */
  predicate MatchesListFilter(t: Task, status: Option<string>, assignee: Option<string>) {
    && (status.Some? && status.value != "" && status.value != "0" ==> t.status == status.value)
    && (assignee.Some? && assignee.value != "" && assignee.value != "0" ==> t.assignedTo == assignee)
  }

  /** GET /api/tasks?status=&assignee= */
  function ListTasks(rows: seq<Task>, status: Option<string>, assignee: Option<string>): (r: seq<Task>)
    ensures SortedBy(r, PriorityOrder)
    ensures forall t :: t in r <==> t in rows && MatchesListFilter(t, status, assignee)
    ensures forall t :: multiset(r)[t] == if MatchesListFilter(t, status, assignee) then multiset(rows)[t] else 0
    ensures forall i, j :: 0 <= i < j < |r| && PriorityRank(r[j].priority) < 5 ==> PriorityRank(r[i].priority) < 5
  {
    var r := Select(rows, t => MatchesListFilter(t, status, assignee), PriorityOrder, None);
    assert forall t :: t in rows ==> multiset(rows)[t] > 0;
    assert forall i, j :: 0 <= i < j < |r| ==> KeyLe(PriorityOrder(r[i]), PriorityOrder(r[j]));
    r
  }

  /** GET /api/rechecks: done, with a recheck date, not verified, soonest first. */
  function ListRechecks(rows: seq<Task>): (r: seq<Task>)
    ensures forall t :: t in r <==> t in rows && AwaitsRecheck(t)
    ensures forall t :: multiset(r)[t] == if AwaitsRecheck(t) then multiset(rows)[t] else 0
    ensures forall i :: 0 <= i < |r| ==> AwaitsRecheck(r[i])
    ensures forall i, j :: 0 <= i < j < |r| ==>
      r[i].recheckDate.Some? && r[j].recheckDate.Some? && r[i].recheckDate.value <= r[j].recheckDate.value
  {
    var r := Select(rows, AwaitsRecheck, RecheckOrder, None);
    assert forall t :: t in rows ==> multiset(rows)[t] > 0;
    forall i | 0 <= i < |r| ensures AwaitsRecheck(r[i]) {
      assert r[i] in r;
    }
    forall i, j | 0 <= i < j < |r|
      ensures r[i].recheckDate.Some? && r[j].recheckDate.Some? && r[i].recheckDate.value <= r[j].recheckDate.value
    {
      assert AwaitsRecheck(r[i]) && AwaitsRecheck(r[j]);
      assert KeyLe(RecheckOrder(r[i]), RecheckOrder(r[j]));
    }
    r
  }

  /** The dashboard's task panel: the 20 open tasks that come first in priority order. */
  function DashboardTasks(rows: seq<Task>): (r: seq<Task>)
    ensures |r| == Min(20, CountWhere(rows, IsOpen))
    ensures forall t :: t in r ==> t in rows && IsOpen(t)
    ensures multiset(r) <= multiset(rows)
    ensures SortedBy(r, PriorityOrder)
  {
    Select(rows, IsOpen, PriorityOrder, Some(20))
  }

  /** The dashboard's recheck panel: the 10 soonest pending rechecks. */
  function DashboardRechecks(rows: seq<Task>): (r: seq<Task>)
    ensures |r| == Min(10, CountWhere(rows, AwaitsRecheck))
    ensures forall t :: t in r ==> t in rows && AwaitsRecheck(t)
    ensures multiset(r) <= multiset(rows)
    ensures SortedBy(r, RecheckOrder)
  {
    Select(rows, AwaitsRecheck, RecheckOrder, Some(10))
  }

  /** The open tasks the chat prompt lists: the 10 most recently created. */
  function ChatActiveTasks(rows: seq<Task>): (r: seq<Task>)
    ensures |r| == Min(10, CountWhere(rows, IsOpen))
    ensures forall t :: t in r ==> t in rows && IsOpen(t)
    ensures multiset(r) <= multiset(rows)
    ensures forall i, j :: 0 <= i < j < |r| ==> r[i].createdAt >= r[j].createdAt
  {
    var r := Select(rows, IsOpen, NewestFirst, Some(10));
    assert forall i, j :: 0 <= i < j < |r| ==> KeyLe(NewestFirst(r[i]), NewestFirst(r[j]));
    r
  }

  /** A pending recheck falling due within the next three days (or overdue). */
  predicate DueSoon(t: Task, today: int) {
    AwaitsRecheck(t) && t.recheckDate.value <= today + 3
  }

  /** `DueSoon` for a fixed day, as a filter. */
  function DueSoonOn(today: int): Task -> bool {
    t => DueSoon(t, today)
  }

  /** The rechecks the chat prompt lists: the 5 soonest of those due within three days. */
  function ChatRechecks(rows: seq<Task>, today: int): (r: seq<Task>)
    ensures |r| == Min(5, CountWhere(rows, DueSoonOn(today)))
    ensures forall t :: t in r ==> t in rows && AwaitsRecheck(t) && t.recheckDate.value <= today + 3
    ensures multiset(r) <= multiset(rows)
    ensures SortedBy(r, RecheckOrder)
  {
    Select(rows, DueSoonOn(today), RecheckOrder, Some(5))
  }

  /** The number of rows satisfying `p`. */
  function CountWhere(rows: seq<Task>, p: Task -> bool): (n: nat)
    ensures n <= |rows|
    ensures n == |Filter(rows, p)|
  {
    if rows == [] then 0
    else CountWhere(rows[..|rows| - 1], p) + (if p(rows[|rows| - 1]) then 1 else 0)
  }

  datatype TaskCounts = TaskCounts(urgent: nat, active: nat, done: nat)

  predicate IsUrgent(t: Task) {
    IsOpen(t) && t.priority in {"urgent", "high"}
  }

  predicate IsInProgress(t: Task) {
    t.status == "in_progress"
  }

  predicate IsDone(t: Task) {
    t.status == "done"
  }

  /** The dashboard counters: open urgent-or-high tasks, tasks in progress, tasks done,
      each the size of that selection of the rows. A task is counted as done or as one of
      the other two, never both. */
  function CountTasks(rows: seq<Task>): (c: TaskCounts)
    ensures c.urgent == |Filter(rows, IsUrgent)|
    ensures c.active == |Filter(rows, IsInProgress)|
    ensures c.done == |Filter(rows, IsDone)|
    ensures c.urgent + c.done <= |rows|
    ensures c.active + c.done <= |rows|
    ensures c.urgent <= CountWhere(rows, IsOpen)
  {
    DisjointCounts(rows, IsUrgent, IsDone);
    DisjointCounts(rows, IsInProgress, IsDone);
    DisjointCounts(rows, IsOpen, IsDone);
    TaskCounts(CountWhere(rows, IsUrgent), CountWhere(rows, IsInProgress), CountWhere(rows, IsDone))
  }

  /** Two filters that no row satisfies together count at most every row between them;
      two complementary filters count exactly every row. */
  lemma {:induction false} DisjointCounts(rows: seq<Task>, p: Task -> bool, q: Task -> bool)
    requires forall t :: !(p(t) && q(t))
    ensures CountWhere(rows, p) + CountWhere(rows, q) <= |rows|
    ensures (forall t :: p(t) || q(t)) ==> CountWhere(rows, p) + CountWhere(rows, q) == |rows|
    decreases |rows|
  {
    if rows != [] {
      DisjointCounts(rows[..|rows| - 1], p, q);
    }
  }

  /** The dashboard's LIMIT 20 drops only tasks that rank no earlier than every task shown:
      an open task missing from the panel has no higher priority than any shown task. */
  lemma DashboardShowsTheMostUrgent(rows: seq<Task>, shown: Task, missing: Task)
    requires shown in DashboardTasks(rows)
    requires IsOpen(missing) && multiset(DashboardTasks(rows))[missing] < multiset(rows)[missing]
    ensures PriorityRank(shown.priority) <= PriorityRank(missing.priority)
    ensures PriorityRank(shown.priority) == PriorityRank(missing.priority) ==> shown.createdAt >= missing.createdAt
  {
    SelectKeepsTheTop(rows, IsOpen, PriorityOrder, 20, shown, missing);
  }

  /** The recheck panel's LIMIT 10 keeps the soonest: a pending recheck left off the panel
      is due no earlier than any one shown. */
  lemma DashboardShowsTheSoonestRechecks(rows: seq<Task>, shown: Task, missing: Task)
    requires shown in DashboardRechecks(rows)
    requires AwaitsRecheck(missing) && multiset(DashboardRechecks(rows))[missing] < multiset(rows)[missing]
    ensures shown.recheckDate.value <= missing.recheckDate.value
  {
    SelectKeepsTheTop(rows, AwaitsRecheck, RecheckOrder, 10, shown, missing);
  }

  /** The chat's LIMIT 10 keeps the newest: an open task left out of the chat list was
      created no later than any one listed. */
  lemma ChatShowsTheNewest(rows: seq<Task>, shown: Task, missing: Task)
    requires shown in ChatActiveTasks(rows)
    requires IsOpen(missing) && multiset(ChatActiveTasks(rows))[missing] < multiset(rows)[missing]
    ensures shown.createdAt >= missing.createdAt
  {
    SelectKeepsTheTop(rows, IsOpen, NewestFirst, 10, shown, missing);
  }

  /** With at most 20 open tasks the dashboard shows every one of them. */
  lemma DashboardShowsAllWhenFew(rows: seq<Task>)
    requires CountWhere(rows, IsOpen) <= 20
    ensures forall t :: t in DashboardTasks(rows) <==> t in rows && IsOpen(t)
  {
    var r := DashboardTasks(rows);
    assert forall t :: multiset(r)[t] == if IsOpen(t) then multiset(rows)[t] else 0;
    assert forall t :: t in rows ==> multiset(rows)[t] > 0;
  }

  /** The chat's LIMIT 5 keeps the soonest due rechecks: one left out is due no earlier
      than any one listed. */
  lemma ChatRechecksAreTheSoonest(rows: seq<Task>, today: int, listed: Task, left: Task)
    requires listed in ChatRechecks(rows, today)
    requires DueSoon(left, today) && multiset(ChatRechecks(rows, today))[left] < multiset(rows)[left]
    ensures listed.recheckDate.value <= left.recheckDate.value
  {
    SelectKeepsTheTop(rows, DueSoonOn(today), RecheckOrder, 5, listed, left);
  }

  /** A task completed today is listed for recheck, but never among the chat's due-soon
      rechecks: its recheck is at least a week away. */
  lemma CompletedTaskWaitsForItsRecheck(rows: seq<Task>, t: Task, now: int, today: int)
    requires !t.recheckVerified && Completed(t, now, today) in rows
    ensures Completed(t, now, today) in ListRechecks(rows)
    ensures Completed(t, now, today) !in ChatRechecks(rows, today)
  {
    RecheckIsAtLeastAWeekAway(t, now, today);
  }

  /** Verifying a task takes it off every recheck list. */
  lemma VerifiedTaskLeavesRechecks(rows: seq<Task>, t: Task, passed: bool, today: int)
    ensures Verified(t, passed) !in ListRechecks(rows)
    ensures Verified(t, passed) !in DashboardRechecks(rows)
    ensures Verified(t, passed) !in ChatRechecks(rows, today)
  {
  }
}
