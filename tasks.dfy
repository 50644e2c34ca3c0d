/** The task record as the components hold it, and the three list transformations the
    handlers apply to a task collection: prepend, merge-by-id (`map`) and remove-by-id
    (`filter`). */
module Tasks {
  import opened Wrappers

  /** Milliseconds in a day: `1000 * 60 * 60 * 24`. */
  const MsPerDay: int := 86400000

  /** A task's stored date string as `new Date(...)` reads it: empty or absent (falsy),
      unparsable (an invalid date, whose time value is NaN), or an instant in
      milliseconds since the epoch. */
  datatype DateValue = NoDate | BadDate | At(ms: int)

  /** The day number of an instant (midnight-truncated, time zone ignored). */
  function DayOf(ms: int): int {
    ms / MsPerDay
  }

  /** The value of a date picker (`<input type="date">`): empty, an unparsable string,
      or a calendar day given as a day number. */
  datatype DayInput = Blank | Unparsable | OnDay(day: int)

  /** How a date-picker string reads back once it is stored on a task:
      `new Date('YYYY-MM-DD')` is midnight UTC of that day. */
  function StoredDate(d: DayInput): (v: DateValue)
    ensures d.Blank? <==> v.NoDate?
    ensures d.Unparsable? <==> v.BadDate?
    ensures d.OnDay? ==> v.At? && DayOf(v.ms) == d.day && v.ms % MsPerDay == 0
  {
    match d
    case Blank => NoDate
    case Unparsable => BadDate
    case OnDay(day) => At(day * MsPerDay)
  }

  /** A task object as the server sends it. Every property may be missing; status and
      priority are the server's strings ('Pending', 'In Progress', 'Completed';
      'Low', 'Medium', 'High'). */
  datatype Task = Task(
    id: Option<string>,
    title: Option<string>,
    description: Option<string>,
    priority: Option<string>,
    status: Option<string>,
    dueDate: DateValue,
    tags: seq<string>,
    createdAt: DateValue)

  /** The `updates` object of an update call: the properties it carries. The callers
      send either all five editable form fields or `{status}` alone. */
  datatype Patch = Patch(
    title: Option<string>,
    description: Option<string>,
    priority: Option<string>,
    status: Option<string>,
    dueDate: Option<DateValue>)

  /** The patch that carries no property. */
  const NoChange := Patch(None, None, None, None, None)

  /** `{...task, ...updates}`: the patch carries only editable properties, so the id,
      the tags and the creation date are kept. */
  function Merge(t: Task, p: Patch): (r: Task)
    ensures r.id == t.id && r.tags == t.tags && r.createdAt == t.createdAt
  {
    t.(title := if p.title.Some? then p.title else t.title,
       description := if p.description.Some? then p.description else t.description,
       priority := if p.priority.Some? then p.priority else t.priority,
       status := if p.status.Some? then p.status else t.status,
       dueDate := if p.dueDate.Some? then p.dueDate.value else t.dueDate)
  }

  /** What the patch names is taken from the patch, what it does not name is kept, and
      the id, tags and creation date are never touched. */
  lemma MergeFields(t: Task, p: Patch)
    ensures Merge(t, p).id == t.id && Merge(t, p).tags == t.tags && Merge(t, p).createdAt == t.createdAt
    ensures Merge(t, p).title == (if p.title.Some? then p.title else t.title)
    ensures Merge(t, p).description == (if p.description.Some? then p.description else t.description)
    ensures Merge(t, p).priority == (if p.priority.Some? then p.priority else t.priority)
    ensures Merge(t, p).status == (if p.status.Some? then p.status else t.status)
    ensures Merge(t, p).dueDate == (if p.dueDate.Some? then p.dueDate.value else t.dueDate)
  {
  }

  /** Merging nothing changes nothing, and merging the same patch twice is merging it once. */
  lemma MergeIdentityAndIdempotence(t: Task, p: Patch)
    ensures Merge(t, NoChange) == t
    ensures Merge(Merge(t, p), p) == Merge(t, p)
  {
  }

  /** `prev.map(task => task._id === id ? {...task, ...updates} : task)`. The comparison
      is strict equality, so an absent id matches every task without an id. */
  function MergeById(tasks: seq<Task>, id: Option<string>, p: Patch): (r: seq<Task>)
    ensures |r| == |tasks|
  {
    if tasks == [] then []
    else [if tasks[0].id == id then Merge(tasks[0], p) else tasks[0]] + MergeById(tasks[1..], id, p)
  }

  /** Position by position: a task with the id is merged, every other task is the same. */
  lemma {:induction false} MergeByIdAt(tasks: seq<Task>, id: Option<string>, p: Patch, i: nat)
    requires i < |tasks|
    ensures MergeById(tasks, id, p)[i] == if tasks[i].id == id then Merge(tasks[i], p) else tasks[i]
  {
    if i > 0 {
      MergeByIdAt(tasks[1..], id, p, i - 1);
    }
  }

  /** Merging keeps every task's id, so the same tasks match the id before and after. */
  lemma MergeByIdKeepsIds(tasks: seq<Task>, id: Option<string>, p: Patch)
    ensures forall i :: 0 <= i < |tasks| ==> MergeById(tasks, id, p)[i].id == tasks[i].id
  {
    forall i | 0 <= i < |tasks| ensures MergeById(tasks, id, p)[i].id == tasks[i].id {
      MergeByIdAt(tasks, id, p, i);
    }
  }

  /** When no task has the id, the list is unchanged. */
  lemma {:induction false} MergeByIdNoMatch(tasks: seq<Task>, id: Option<string>, p: Patch)
    requires forall i :: 0 <= i < |tasks| ==> tasks[i].id != id
    ensures MergeById(tasks, id, p) == tasks
  {
    if tasks != [] {
      MergeByIdNoMatch(tasks[1..], id, p);
    }
  }

  /** Merging commutes with taking a prefix (`slice(0, k)`). */
  lemma {:induction false} MergeByIdPrefix(tasks: seq<Task>, id: Option<string>, p: Patch, k: nat)
    requires k <= |tasks|
    ensures MergeById(tasks[..k], id, p) == MergeById(tasks, id, p)[..k]
  {
    if k > 0 {
      assert tasks[..k][1..] == tasks[1..][..k - 1];
      MergeByIdPrefix(tasks[1..], id, p, k - 1);
    }
  }

  /** `prev.filter(task => task._id !== id)`. */
  function RemoveById(tasks: seq<Task>, id: Option<string>): (r: seq<Task>)
    ensures |r| <= |tasks|
  {
    if tasks == [] then []
    else (if tasks[0].id != id then [tasks[0]] else []) + RemoveById(tasks[1..], id)
  }

  /** The number of tasks whose id is `id`. */
  function CountId(tasks: seq<Task>, id: Option<string>): nat {
    if tasks == [] then 0 else (if tasks[0].id == id then 1 else 0) + CountId(tasks[1..], id)
  }

  /** Removal keeps exactly the tasks with another id, and drops one entry per task with the id. */
  lemma {:induction false} RemoveByIdKeepsOthers(tasks: seq<Task>, id: Option<string>)
    ensures forall t :: t in RemoveById(tasks, id) <==> t in tasks && t.id != id
    ensures |RemoveById(tasks, id)| == |tasks| - CountId(tasks, id)
  {
    if tasks != [] {
      RemoveByIdKeepsOthers(tasks[1..], id);
      HeadTail(tasks);
    }
  }

  /** Removal looks at the first task and then at the rest. */
  lemma RemoveByIdCons(t: Task, rest: seq<Task>, id: Option<string>)
    ensures RemoveById([t] + rest, id) == (if t.id != id then [t] else []) + RemoveById(rest, id)
  {
    HeadTailConcat([t], rest);
  }

  /** Removal works piece by piece, so the kept tasks stay in their order. */
  lemma {:induction false} RemoveByIdConcat(a: seq<Task>, b: seq<Task>, id: Option<string>)
    ensures RemoveById(a + b, id) == RemoveById(a, id) + RemoveById(b, id)
  {
    if a == [] {
      assert a + b == b;
    } else {
      var rest := a[1..];
      HeadTail(a);
      ConcatAssoc([a[0]], rest, b);
      RemoveByIdConcat(rest, b, id);
      RemoveByIdCons(a[0], rest + b, id);
      RemoveByIdCons(a[0], rest, id);
      ConcatAssoc(if a[0].id != id then [a[0]] else [], RemoveById(rest, id), RemoveById(b, id));
    }
  }

  /** When no task has the id, removal changes nothing. */
  lemma {:induction false} RemoveByIdNoMatch(tasks: seq<Task>, id: Option<string>)
    requires forall i :: 0 <= i < |tasks| ==> tasks[i].id != id
    ensures RemoveById(tasks, id) == tasks
  {
    if tasks != [] {
      RemoveByIdNoMatch(tasks[1..], id);
    }
  }

  /** What an awaited API call produced: it threw (a network error or a rejected
      response), or the server replied with its `success` flag and `data`. */
  datatype Reply<T> = Threw | Replied(success: bool, data: T)

  /** The body (`response.data`) of a list request, reduced to what the two list
      handlers tell apart: `undefined` or `null`, another falsy value, a truthy value
      that is neither an array nor has a `data` property, an array of tasks, or an
      object whose `data` property is itself such a body. */
  datatype Body = UndefinedBody | NullBody | FalsyBody | TruthyBody | List(items: seq<Task>) | Wrapped(data: Body)
  {
    /** The body is truthy: an array, even an empty one, and any object are. */
    predicate IsTruthy() {
      !(UndefinedBody? || NullBody? || FalsyBody?)
    }
  }
}
