/** The dashboard: the statistics computed from the fetched tasks, the fetch with its
    recent-tasks slice and failure path, and the handlers of its task list and edit
    dialog. */
module Dashboard {
  import opened Wrappers
  import opened Tasks
  import TaskItem
  import TaskManager
  import EditTaskModal

  /** `taskArray.filter(p).length`. */
  function Count(ts: seq<Task>, p: Task -> bool): (n: nat)
    ensures n <= |ts|
  {
    if ts == [] then 0 else (if p(ts[0]) then 1 else 0) + Count(ts[1..], p)
  }

  /** Counting works piece by piece. */
  lemma {:induction false} CountConcat(a: seq<Task>, b: seq<Task>, p: Task -> bool)
    ensures Count(a + b, p) == Count(a, p) + Count(b, p)
  {
    if a == [] {
      assert a + b == b;
    } else {
      HeadTailConcat(a, b);
      CountConcat(a[1..], b, p);
    }
  }

  /** Every task is counted exactly when all satisfy the test, none exactly when none does. */
  lemma {:induction false} CountAllOrNone(ts: seq<Task>, p: Task -> bool)
    ensures Count(ts, p) == |ts| <==> forall i :: 0 <= i < |ts| ==> p(ts[i])
    ensures Count(ts, p) == 0 <==> forall i :: 0 <= i < |ts| ==> !p(ts[i])
  {
    if ts != [] {
      CountAllOrNone(ts[1..], p);
      assert forall i :: 1 <= i < |ts| ==> ts[i] == ts[1..][i - 1];
    }
  }

  /** A weaker test counts at least as many tasks. */
  lemma {:induction false} CountMono(ts: seq<Task>, p: Task -> bool, q: Task -> bool)
    requires forall t :: p(t) ==> q(t)
    ensures Count(ts, p) <= Count(ts, q)
  {
    if ts != [] {
      CountMono(ts[1..], p, q);
    }
  }

  /** Tests no task satisfies together count at most the whole list between them. */
  lemma {:induction false} CountDisjoint(ts: seq<Task>, p: Task -> bool, q: Task -> bool)
    requires forall t :: !(p(t) && q(t))
    ensures Count(ts, p) + Count(ts, q) <= |ts|
  {
    if ts != [] {
      CountDisjoint(ts[1..], p, q);
    }
  }

  predicate IsCompleted(t: Task) { t.status == Some("Completed") }
  predicate IsPending(t: Task) { t.status == Some("Pending") }
  predicate IsInProgress(t: Task) { t.status == Some("In Progress") }
  predicate IsHighPriority(t: Task) { t.priority == Some("High") }

  /** A status outside the three the dashboard counts (or none at all). */
  predicate HasOtherStatus(t: Task) {
    !IsCompleted(t) && !IsPending(t) && !IsInProgress(t)
  }

  /** The overdue test of `calculateStats`, with `now` the current instant in
      milliseconds: no date or a completed task is never overdue; otherwise the due
      instant is compared with now, not truncated to the day, and an invalid date
      compares false. */
  function IsOverdueAt(t: Task, now: int): (b: bool)
    ensures b ==> t.dueDate.At? && !IsCompleted(t)
    ensures t.dueDate.At? && !IsCompleted(t) ==> (b <==> t.dueDate.ms < now)
  {
    if t.dueDate.NoDate? || t.status == Some("Completed") then false
    else t.dueDate.At? && t.dueDate.ms < now
  }

  /** The `stats` state. */
  datatype Stats = Stats(total: nat, completed: nat, pending: nat, inProgress: nat, overdue: nat, highPriority: nat)

  const NoStats := Stats(0, 0, 0, 0, 0, 0)

  /** `calculateStats`. */
  function CalculateStats(ts: seq<Task>, now: int): (s: Stats)
    ensures s.total == |ts|
    ensures s.completed <= s.total && s.pending <= s.total && s.inProgress <= s.total
    ensures s.highPriority <= s.total && s.overdue <= s.total
  {
    Stats(
      |ts|,
      Count(ts, IsCompleted),
      Count(ts, IsPending),
      Count(ts, IsInProgress),
      Count(ts, t => IsOverdueAt(t, now)),
      Count(ts, IsHighPriority))
  }

  /** Every task has one of the three counted statuses or another one. */
  lemma {:induction false} StatusPartition(ts: seq<Task>)
    ensures Count(ts, IsCompleted) + Count(ts, IsPending) + Count(ts, IsInProgress)
      + Count(ts, HasOtherStatus) == |ts|
  {
    if ts != [] {
      StatusPartition(ts[1..]);
    }
  }

  /** completed + pending + inProgress is at most total, and equals it exactly when
      every task is Completed, Pending or In Progress. */
  lemma StatusCounts(ts: seq<Task>, now: int)
    ensures var s := CalculateStats(ts, now);
      s.completed + s.pending + s.inProgress <= s.total
    ensures var s := CalculateStats(ts, now);
      s.completed + s.pending + s.inProgress == s.total <==>
      forall i :: 0 <= i < |ts| ==> ts[i].status in {Some("Completed"), Some("Pending"), Some("In Progress")}
  {
    StatusPartition(ts);
    CountAllOrNone(ts, HasOtherStatus);
  }

  /** A completed task is never overdue, so overdue is at most total - completed. */
  lemma OverdueBound(ts: seq<Task>, now: int)
    ensures CalculateStats(ts, now).overdue + CalculateStats(ts, now).completed <= |ts|
  {
    CountDisjoint(ts, t => IsOverdueAt(t, now), IsCompleted);
  }

  /** highPriority is the number of tasks whose priority is exactly 'High': all of
      them when every task is, none when no task is. */
  lemma HighPriorityCount(ts: seq<Task>, now: int)
    ensures CalculateStats(ts, now).highPriority == |ts| <==> forall i :: 0 <= i < |ts| ==> ts[i].priority == Some("High")
    ensures CalculateStats(ts, now).highPriority == 0 <==> forall i :: 0 <= i < |ts| ==> ts[i].priority != Some("High")
  {
    CountAllOrNone(ts, IsHighPriority);
  }

  /** The statistics of two lists together are the sums of their statistics. */
  lemma StatsConcat(a: seq<Task>, b: seq<Task>, now: int)
    ensures var s, x, y := CalculateStats(a + b, now), CalculateStats(a, now), CalculateStats(b, now);
      s.completed == x.completed + y.completed && s.pending == x.pending + y.pending
      && s.inProgress == x.inProgress + y.inProgress && s.overdue == x.overdue + y.overdue
      && s.highPriority == x.highPriority + y.highPriority
  {
    CountConcat(a, b, IsCompleted);
    CountConcat(a, b, IsPending);
    CountConcat(a, b, IsInProgress);
    CountConcat(a, b, t => IsOverdueAt(t, now));
    CountConcat(a, b, IsHighPriority);
  }

  /** A task the card shows as past due (its day before today) is counted as overdue. */
  lemma PastDueIsOverdue(t: Task, now: int)
    ensures TaskItem.IsPastDue(t, DayOf(now)) ==> IsOverdueAt(t, now)
  {
    if t.dueDate.At? && t.dueDate.ms >= now {
      assert DayOf(t.dueDate.ms) >= DayOf(now);
    }
  }

  /** So the dashboard counts at least as many overdue tasks as the cards show. */
  lemma PastDueCountAtMostOverdue(ts: seq<Task>, now: int)
    ensures Count(ts, t => TaskItem.IsPastDue(t, DayOf(now))) <= CalculateStats(ts, now).overdue
  {
    forall t ensures TaskItem.IsPastDue(t, DayOf(now)) ==> IsOverdueAt(t, now) {
      PastDueIsOverdue(t, now);
    }
    CountMono(ts, t => TaskItem.IsPastDue(t, DayOf(now)), t => IsOverdueAt(t, now));
  }

  /** The converse fails: a task due at midnight today is overdue on the dashboard as
      soon as the day has begun, while its card says "Due Today". */
  lemma DueTodayCountsAsOverdue(t: Task, day: int)
    requires t.dueDate == At(day * MsPerDay) && t.status == Some("Pending")
    ensures IsOverdueAt(t, day * MsPerDay + 1)
    ensures !TaskItem.IsPastDue(t, DayOf(day * MsPerDay + 1))
    ensures TaskItem.DueDateLabel(t, DayOf(day * MsPerDay + 1)) == TaskItem.DueToday
  {
    assert DayOf(day * MsPerDay + 1) == day;
    assert DayOf(day * MsPerDay) == day;
  }

  /** `tasksRes.data.data || []` followed by `calculateStats`: `None` when the handler
      ends in its catch, which happens for an `undefined` or `null` body (reading
      `.data` throws) and for a truthy `data` that is not an array (`.filter` is not a
      function); an array `data` is the list, and anything else gives `[]`. */
  function DashboardList(body: Body): (r: Option<seq<Task>>)
    ensures r.None? <==> body.UndefinedBody? || body.NullBody? || (body.Wrapped? && body.data.IsTruthy() && !body.data.List?)
    ensures body.Wrapped? && body.data.List? ==> r == Some(body.data.items)
    ensures r.Some? && !(body.Wrapped? && body.data.List?) ==> r == Some([])
  {
    if body.UndefinedBody? || body.NullBody? then None
    else
      var inner := if body.Wrapped? then body.data else UndefinedBody;
      var fetched := if inner.IsTruthy() then inner else List([]);
      if fetched.List? then Some(fetched.items) else None
  }

  /** The two pages read a list body differently: they agree on `{data: [...]}`, but a
      bare array is the list on the task page and `[]` on the dashboard. */
  lemma ListBodiesCompared(body: Body)
    ensures body.Wrapped? && body.data.List? ==> DashboardList(body) == Some(TaskManager.Fetched(body))
    ensures body.List? ==> DashboardList(body) == Some([]) && TaskManager.Fetched(body) == body.items
  {
  }

  /** `fetchedTasks.slice(0, 5)`. */
  function Recent(ts: seq<Task>): (r: seq<Task>)
    ensures |r| == if |ts| < 5 then |ts| else 5
    ensures forall i :: 0 <= i < |r| ==> r[i] == ts[i]
  {
    ts[..if |ts| < 5 then |ts| else 5]
  }

  /** The dashboard's state (`useState` hooks). */
  class Board {
    var stats: Stats
    var tasks: seq<Task>
    var recentTasks: seq<Task>
    var loading: bool
    var editingTask: Option<Task>
    var isEditing: bool

    /** The recent list is always the first five of the task list, and the dialog is
        open exactly when a task is being edited. */
    ghost predicate Valid()
      reads this
    {
      recentTasks == Recent(tasks) && (isEditing <==> editingTask.Some?)
    }

    constructor ()
      ensures Valid()
      ensures stats == NoStats && tasks == [] && recentTasks == [] && loading
      ensures editingTask == None && !isEditing
    {
      stats, tasks, recentTasks, loading := NoStats, [], [], true;
      editingTask, isEditing := None, false;
    }

    /** `fetchDashboardData`, with `response` the body of the list request or `None`
        when the request threw: on success the list, its statistics and its first five
        are stored; on failure both lists are emptied and the statistics keep their
        previous values. */
    method FetchDashboardData(response: Option<Body>, now: int)
      requires Valid()
      modifies this`stats, this`tasks, this`recentTasks, this`loading
      ensures Valid()
      ensures var fetched := if response.Some? then DashboardList(response.value) else None;
        if fetched.Some? then tasks == fetched.value && stats == CalculateStats(fetched.value, now)
        else tasks == [] && stats == old(stats)
      ensures !loading
    {
      loading := true;
      var fetched := if response.Some? then DashboardList(response.value) else None;
      if fetched.None? {
        tasks := [];
        recentTasks := [];
      } else {
        tasks := fetched.value;
        stats := CalculateStats(fetched.value, now);
        recentTasks := tasks[..if |tasks| < 5 then |tasks| else 5];
      }
      loading := false;
    }

    /** `handleTaskCreated` of the quick-add form: the submitted draft is not sent
        anywhere; the dashboard only fetches again. */
    method HandleTaskCreated(response: Option<Body>, now: int)
      requires Valid()
      modifies this`stats, this`tasks, this`recentTasks, this`loading
      ensures Valid()
      ensures var fetched := if response.Some? then DashboardList(response.value) else None;
        if fetched.Some? then tasks == fetched.value && stats == CalculateStats(fetched.value, now)
        else tasks == [] && stats == old(stats)
      ensures !loading
    {
      FetchDashboardData(response, now);
    }

    /** `handleTaskUpdated` and `handleTaskDeleted`: when the call returns (whatever its
        `success`), the dashboard fetches again; when it throws, nothing changes. */
    method HandleTaskChanged(call: Reply<()>, response: Option<Body>, now: int)
      requires Valid()
      modifies this`stats, this`tasks, this`recentTasks, this`loading
      ensures Valid()
      ensures call.Threw? ==> stats == old(stats) && tasks == old(tasks) && loading == old(loading)
      ensures call.Replied? ==>
        var fetched := if response.Some? then DashboardList(response.value) else None;
        (if fetched.Some? then tasks == fetched.value && stats == CalculateStats(fetched.value, now)
         else tasks == [] && stats == old(stats))
        && !loading
    {
      if call.Replied? {
        FetchDashboardData(response, now);
      }
    }

    /** `handleTaskEdit`. */
    method HandleTaskEdit(t: Task)
      requires Valid()
      modifies this`editingTask, this`isEditing
      ensures Valid()
      ensures editingTask == Some(t) && isEditing
    {
      editingTask := Some(t);
      isEditing := true;
    }

    /** `handleEditSave`, with `response` the body of the list request that follows a
        successful save, or `None` when it threw: on success the updates are merged
        into both lists, the dialog closes and the dashboard fetches again, so the
        fetched list replaces the merged one once it arrives; otherwise nothing
        changes. `merged` and `mergedRecent` are the two lists between the merge and
        the fetch. */
    method HandleEditSave(saved: EditTaskModal.SavePayload, reply: Reply<()>, response: Option<Body>, now: int)
      returns (ghost merged: seq<Task>, ghost mergedRecent: seq<Task>)
      requires Valid()
      modifies this`stats, this`tasks, this`recentTasks, this`loading, this`editingTask, this`isEditing
      ensures Valid()
      ensures reply.Replied? && reply.success ==> editingTask == None && !isEditing && !loading
      ensures reply.Replied? && reply.success ==>
        merged == MergeById(old(tasks), Some(saved.id), EditTaskModal.ToPatch(saved))
        && mergedRecent == MergeById(old(recentTasks), Some(saved.id), EditTaskModal.ToPatch(saved))
        && mergedRecent == Recent(merged)
      ensures reply.Replied? && reply.success ==>
        var fetched := if response.Some? then DashboardList(response.value) else None;
        if fetched.Some? then tasks == fetched.value && stats == CalculateStats(fetched.value, now)
        else tasks == [] && stats == old(stats)
      ensures !(reply.Replied? && reply.success) ==>
        tasks == old(tasks) && recentTasks == old(recentTasks) && stats == old(stats)
        && loading == old(loading) && editingTask == old(editingTask) && isEditing == old(isEditing)
    {
      merged, mergedRecent := tasks, recentTasks;
      var id, updates := saved.id, EditTaskModal.ToPatch(saved);
      if reply.Replied? && reply.success {
        var k := if |tasks| < 5 then |tasks| else 5;
        MergeByIdPrefix(tasks, Some(id), updates, k);
        tasks := MergeById(tasks, Some(id), updates);
        recentTasks := MergeById(recentTasks, Some(id), updates);
        isEditing := false;
        editingTask := None;
        merged, mergedRecent := tasks, recentTasks;
        FetchDashboardData(response, now);
      }
    }

    /** `handleEditCancel`. */
    method HandleEditCancel()
      requires Valid()
      modifies this`editingTask, this`isEditing
      ensures Valid()
      ensures editingTask == None && !isEditing
    {
      isEditing := false;
      editingTask := None;
    }
  }
}
