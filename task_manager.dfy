/** The task page's state and handlers: the fetched list, the loading flag, the filters
    and sort key forwarded to the server, and the edit session. */
module TaskManager {
  import opened Wrappers
  import opened JsObjects
  import opened Tasks
  import opened Api
  import EditTaskModal

  /** `const fetchedTasks = response.data.data || response.data || []`, kept only when
      `Array.isArray`: a bare array or an object whose `data` is an array gives that
      array; every other body gives `[]`, including `undefined` and `null`, where
      reading `.data` throws and the handler's catch sets `[]`. */
  function Fetched(body: Body): (ts: seq<Task>)
    ensures body.List? ==> ts == body.items
    ensures body.Wrapped? && body.data.List? ==> ts == body.data.items
    ensures !body.List? && !(body.Wrapped? && body.data.List?) ==> ts == []
  {
    if body.UndefinedBody? || body.NullBody? then []
    else
      var inner := if body.Wrapped? then body.data else UndefinedBody;
      var picked := if inner.IsTruthy() then inner else if body.IsTruthy() then body else List([]);
      if picked.List? then picked.items else []
  }

  /** The page's state (`useState` hooks); the handlers below are its steps. */
  class Manager {
    var tasks: seq<Task>
    var loading: bool
    var filters: Entries<ParamValue>
    var sortBy: string
    var editingTask: Option<Task>
    var isEditing: bool

    /** The edit dialog is open exactly when a task is being edited. */
    ghost predicate Valid()
      reads this
    {
      isEditing <==> editingTask.Some?
    }

    constructor ()
      ensures Valid()
      ensures tasks == [] && loading && filters == [] && sortBy == ""
      ensures editingTask == None && !isEditing
    {
      tasks, loading, filters, sortBy := [], true, [], "";
      editingTask, isEditing := None, false;
    }

    /** `params` of `fetchTasks`: a copy of the filters, with `sortBy` set (in place if
        a filter has that name, last otherwise) when the sort key is non-empty. */
    function FetchParams(): (p: Entries<ParamValue>)
      reads this
      ensures sortBy == "" ==> p == filters
      ensures sortBy != "" ==> Get(p, "sortBy") == Some(Str(sortBy))
      ensures forall k :: k != "sortBy" ==> Get(p, k) == Get(filters, k)
      ensures sortBy != "" ==> Keys(p) == if "sortBy" in Keys(filters) then Keys(filters) else Keys(filters) + ["sortBy"]
    {
      var params := filters;
      if sortBy != "" then
        GetSetAll(params, "sortBy", Str(sortBy));
        Set(params, "sortBy", Str(sortBy))
      else params
    }

    /** `fetchTasks`, with `response` the body the server sent, or `None` when the call
        threw: the list becomes the normalised body, or `[]` on failure; the returned
        path is the request the call made. */
    method FetchTasks(enc: string -> string, response: Option<Body>) returns (path: string)
      requires Valid()
      modifies this`tasks, this`loading
      ensures Valid()
      ensures path == "/tasks" <==> Kept(FetchParams()) == []
      ensures Kept(FetchParams()) != [] ==> path == "/tasks?" + Serialize(Kept(FetchParams()), enc)
      ensures tasks == if response.Some? then Fetched(response.value) else []
      ensures !loading
    {
      loading := true;
      var params := FetchParams();
      path := GetTasksPath(params, enc);
      if response.None? {
        tasks := [];
      } else {
        tasks := Fetched(response.value);
      }
      loading := false;
    }

    /** `handleTaskCreated`: on success the server's task goes first. */
    method HandleTaskCreated(reply: Reply<Task>)
      requires Valid()
      modifies this`tasks, this`loading
      ensures Valid()
      ensures tasks == if reply.Replied? && reply.success then [reply.data] + old(tasks) else old(tasks)
      ensures !loading
    {
      loading := true;
      if reply.Replied? && reply.success {
        tasks := [reply.data] + tasks;
      }
      loading := false;
    }

    /** `handleTaskUpdated`: on success every task with the id takes the updates;
        nothing is applied before the server answers. */
    method HandleTaskUpdated(id: Option<string>, updates: Patch, reply: Reply<()>)
      requires Valid()
      modifies this`tasks
      ensures Valid()
      ensures tasks == if reply.Replied? && reply.success then MergeById(old(tasks), id, updates) else old(tasks)
    {
      if reply.Replied? && reply.success {
        tasks := MergeById(tasks, id, updates);
      }
    }

    /** `handleTaskDeleted`: on success the tasks with the id are filtered out. */
    method HandleTaskDeleted(id: Option<string>, reply: Reply<()>)
      requires Valid()
      modifies this`tasks
      ensures Valid()
      ensures tasks == if reply.Replied? && reply.success then RemoveById(old(tasks), id) else old(tasks)
    {
      if reply.Replied? && reply.success {
        tasks := RemoveById(tasks, id);
      }
    }

    /** `handleTaskEdit`: opens the dialog on `t`, replacing any task being edited. */
    method HandleTaskEdit(t: Task)
      requires Valid()
      modifies this`editingTask, this`isEditing
      ensures Valid()
      ensures editingTask == Some(t) && isEditing
    {
      editingTask := Some(t);
      isEditing := true;
    }

    /** `handleEditSave`: the payload's id and updates go to the server; on success the
        updates are merged into the list and the dialog closes, otherwise nothing
        changes. */
    method HandleEditSave(saved: EditTaskModal.SavePayload, reply: Reply<()>)
      requires Valid()
      modifies this`tasks, this`editingTask, this`isEditing
      ensures Valid()
      ensures reply.Replied? && reply.success ==>
        tasks == MergeById(old(tasks), Some(saved.id), EditTaskModal.ToPatch(saved))
        && editingTask == None && !isEditing
      ensures !(reply.Replied? && reply.success) ==>
        tasks == old(tasks) && editingTask == old(editingTask) && isEditing == old(isEditing)
    {
      var id, updates := saved.id, EditTaskModal.ToPatch(saved);
      if reply.Replied? && reply.success {
        tasks := MergeById(tasks, Some(id), updates);
        isEditing := false;
        editingTask := None;
      }
    }

    /** `handleEditCancel`: closes the dialog. */
    method HandleEditCancel()
      requires Valid()
      modifies this`editingTask, this`isEditing
      ensures Valid()
      ensures editingTask == None && !isEditing
    {
      isEditing := false;
      editingTask := None;
    }

    /** `handleFilterChange`: an empty value is stored as `undefined`, which the query
        then drops; the other filters are left as they are. */
    method HandleFilterChange(filterType: string, value: string)
      requires Valid()
      modifies this`filters
      ensures Valid()
      ensures Get(filters, filterType) == Some(if value == "" then Undefined else Str(value))
      ensures forall k :: k != filterType ==> Get(filters, k) == Get(old(filters), k)
      ensures Keys(filters) == if filterType in Keys(old(filters)) then Keys(old(filters)) else Keys(old(filters)) + [filterType]
    {
      var v := if value == "" then Undefined else Str(value);
      GetSetAll(filters, filterType, v);
      filters := Set(filters, filterType, v);
    }

    /** `handleSortChange`. */
    method HandleSortChange(sortValue: string)
      requires Valid()
      modifies this`sortBy
      ensures Valid()
      ensures sortBy == sortValue
    {
      sortBy := sortValue;
    }
  }

  /** A filter cleared with `''` never reaches the query string: every surviving
      parameter has another name or a non-empty value. */
  lemma {:induction false} UndefinedNotSent(params: Entries<ParamValue>, k: string)
    requires forall i :: 0 <= i < |params| && params[i].0 == k ==> params[i].1 == Undefined
    ensures forall i :: 0 <= i < |Kept(params)| ==> Kept(params)[i].0 != k
  {
    if params != [] {
      UndefinedNotSent(params[1..], k);
      KeptConcat([params[0]], params[1..]);
      KeptOne(params[0].0, params[0].1);
      HeadTail(params);
    }
  }
}
