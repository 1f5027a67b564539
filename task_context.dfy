/**
 * The client-side task cache (frontend/src/context/TaskContext.jsx): the
 * provider keeps the caller's created tasks and assigned tasks and a loading
 * flag, and reconciles them with each server reply. Server replies and the
 * user's answer to the delete confirmation are inputs.
 */
module TaskContext {
  import opened TaskModel
  import Lists

  /** What a request to the server produced: its payload, or an error message. */
  datatype Reply<+T> = Success(data: T) | Failure(message: string)

  /** The list without any entry carrying `id`; the others keep their order. */
  function RemoveById(list: seq<Task>, id: TaskId): (r: seq<Task>)
    ensures forall t :: t in r ==> t.id != id
    ensures forall t :: t in list && t.id != id ==> t in r
    ensures forall t :: t in list && t.id != id ==> multiset(r)[t] == multiset(list)[t]
    ensures multiset(r) <= multiset(list)
    ensures Lists.SubsequenceOf(r, list)
  {
    Lists.Filter((t: Task) => t.id != id, list)
  }

  /** Removing an id no entry carries changes nothing. */
  lemma RemoveAbsent(list: seq<Task>, id: TaskId)
    requires forall t :: t in list ==> t.id != id
    ensures RemoveById(list, id) == list
  {
    Lists.FilterAll((t: Task) => t.id != id, list);
  }

  /** Every entry carrying `id` replaced by `data`; length, order and all other entries unchanged. */
  function ReplaceById(list: seq<Task>, id: TaskId, data: Task): (r: seq<Task>)
    ensures |r| == |list|
    ensures forall i :: 0 <= i < |list| && list[i].id == id ==> r[i] == data
    ensures forall i :: 0 <= i < |list| && list[i].id != id ==> r[i] == list[i]
  {
    if list == [] then []
    else [if list[0].id == id then data else list[0]] + ReplaceById(list[1..], id, data)
  }

  /** Replacing by an id no entry carries changes nothing. */
  lemma ReplaceAbsent(list: seq<Task>, id: TaskId, data: Task)
    requires forall t :: t in list ==> t.id != id
    ensures ReplaceById(list, id, data) == list
  {
  }

  /** Replacing twice by the same id keeps the second reply. */
  lemma ReplaceTwice(list: seq<Task>, id: TaskId, first: Task, second: Task)
    requires first.id == id
    ensures ReplaceById(ReplaceById(list, id, first), id, second) == ReplaceById(list, id, second)
  {
  }

  class TaskProvider {
    var tasks: seq<Task>
    var assignedTasks: seq<Task>
    var isLoading: bool

    constructor ()
      ensures tasks == [] && assignedTasks == [] && !isLoading
    {
      tasks := [];
      assignedTasks := [];
      isLoading := false;
    }

    /** getTasks: the created list is replaced by the fetched one on success; loading ends either way. */
    method GetTasks(reply: Reply<seq<Task>>)
      modifies this
      ensures tasks == (if reply.Success? then reply.data else old(tasks))
      ensures assignedTasks == old(assignedTasks)
      ensures !isLoading
    {
      isLoading := true;
      if reply.Success? {
        tasks := reply.data;
      }
      isLoading := false;
    }

    /** getAssignedTasks: the assigned list is replaced by the fetched one on success; loading ends either way. */
    method GetAssignedTasks(reply: Reply<seq<Task>>)
      modifies this
      ensures assignedTasks == (if reply.Success? then reply.data else old(assignedTasks))
      ensures tasks == old(tasks)
      ensures !isLoading
    {
      isLoading := true;
      if reply.Success? {
        assignedTasks := reply.data;
      }
      isLoading := false;
    }

    /**
     * createTask as written: the created task is appended and true returned,
     * or false returned with both lists untouched; both paths return before
     * the loading flag is cleared, so it stays set.
     */
    method CreateTask(reply: Reply<Task>) returns (ok: bool)
      modifies this
      ensures ok <==> reply.Success?
      ensures tasks == (if ok then old(tasks) + [reply.data] else old(tasks))
      ensures assignedTasks == old(assignedTasks)
      ensures isLoading
    {
      isLoading := true;
      if reply.Success? {
        tasks := tasks + [reply.data];
        return true;
      } else {
        return false;
      }
    }

    /** createTask with the loading flag cleared on both paths, as the unreachable final statement intends. */
    method CreateTaskSettled(reply: Reply<Task>) returns (ok: bool)
      modifies this
      ensures ok <==> reply.Success?
      ensures tasks == (if ok then old(tasks) + [reply.data] else old(tasks))
      ensures assignedTasks == old(assignedTasks)
      ensures !isLoading
    {
      isLoading := true;
      ok := reply.Success?;
      if ok {
        tasks := tasks + [reply.data];
      }
      isLoading := false;
    }

    /**
     * deleteTask: a declined confirmation sends no request and changes
     * nothing; a successful delete drops every entry with the id from the
     * created list only.
     */
    method DeleteTask(confirmed: bool, id: TaskId, reply: Reply<TaskId>) returns (requested: bool)
      modifies this`tasks
      ensures requested == confirmed
      ensures tasks == (if confirmed && reply.Success? then RemoveById(old(tasks), id) else old(tasks))
    {
      if !confirmed {
        return false;
      }
      requested := true;
      if reply.Success? {
        tasks := RemoveById(tasks, id);
      }
    }

    /** toggleTaskStatus: on success the reply replaces the entry with the task's id in both lists. */
    method ToggleTaskStatus(task: Task, reply: Reply<Task>)
      modifies this`tasks, this`assignedTasks
      ensures tasks == (if reply.Success? then ReplaceById(old(tasks), task.id, reply.data) else old(tasks))
      ensures assignedTasks ==
                (if reply.Success? then ReplaceById(old(assignedTasks), task.id, reply.data) else old(assignedTasks))
    {
      if reply.Success? {
        tasks := ReplaceById(tasks, task.id, reply.data);
        assignedTasks := ReplaceById(assignedTasks, task.id, reply.data);
      }
    }
  }
}
