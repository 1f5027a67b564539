/**
 * The dashboard page (frontend/src/pages/Dashboard.jsx): while the task
 * cache is loading it shows a loading notice; otherwise it shows the created
 * and the assigned list, both narrowed by one status filter.
 */
module Dashboard {
  import opened TaskModel
  import Lists
  import TaskContext

  /** The filter choices the page offers; the select's value is one of these strings. */
  const All := "all"

  /**
   * filterTasks: "all" passes the list through; any other value keeps the
   * tasks whose status string equals it, in order.
   */
  function FilterTasks(filter: string, list: seq<Task>): (r: seq<Task>)
    ensures filter == All ==> r == list
    ensures |r| <= |list|
    ensures filter != All ==> forall t :: t in r ==> StatusName(t.status) == filter
    ensures filter != All ==> forall t :: t in list && StatusName(t.status) == filter ==> t in r
    ensures filter != All ==> forall t :: t in list && StatusName(t.status) == filter ==> multiset(r)[t] == multiset(list)[t]
    ensures Lists.SubsequenceOf(r, list)
  {
    if filter == All then
      Lists.FilterAll((t: Task) => true, list);
      list
    else
      Lists.Filter((t: Task) => StatusName(t.status) == filter, list)
  }

  /** A filter naming no status shows nothing; the two status filters split any list between them. */
  lemma FilterPartition(filter: string, list: seq<Task>)
    ensures filter != All && filter != "pending" && filter != "completed" ==> FilterTasks(filter, list) == []
    ensures |FilterTasks("pending", list)| + |FilterTasks("completed", list)| == |list|
  {
    if filter != All && filter != "pending" && filter != "completed" {
      Lists.FilterNone((t: Task) => StatusName(t.status) == filter, list);
    }
    FilterSplit(list);
  }

  lemma {:induction false} FilterSplit(list: seq<Task>)
    ensures |FilterTasks("pending", list)| + |FilterTasks("completed", list)| == |list|
  {
    if list != [] {
      FilterSplit(list[1..]);
      assert list == [list[0]] + list[1..];
      Lists.FilterAppend((t: Task) => StatusName(t.status) == "pending", [list[0]], list[1..]);
      Lists.FilterAppend((t: Task) => StatusName(t.status) == "completed", [list[0]], list[1..]);
    }
  }

  /** What the page shows. */
  datatype View = Loading | Columns(created: seq<Task>, assignedToMe: seq<Task>)

  /** The page: the loading notice while loading, else both lists under the same filter. */
  function Render(isLoading: bool, filter: string, tasks: seq<Task>, assignedTasks: seq<Task>): (v: View)
    ensures v.Loading? <==> isLoading
    ensures v.Columns? ==> v.created == FilterTasks(filter, tasks) && v.assignedToMe == FilterTasks(filter, assignedTasks)
  {
    if isLoading then Loading
    else Columns(FilterTasks(filter, tasks), FilterTasks(filter, assignedTasks))
  }

  /**
   * With the provider as written, the page fetches both lists and then
   * creates a task: the create succeeds, yet the page is left on the
   * loading notice.
   */
  method CreateThenRender(t: Task, mine: seq<Task>, theirs: seq<Task>) returns (ok: bool, v: View)
    ensures ok
    ensures v == Loading
  {
    var p := new TaskContext.TaskProvider();
    p.GetTasks(TaskContext.Success(mine));
    p.GetAssignedTasks(TaskContext.Success(theirs));
    ok := p.CreateTask(TaskContext.Success(t));
    v := Render(p.isLoading, All, p.tasks, p.assignedTasks);
  }

  /** The same sequence with the loading flag cleared after the create: the new task is shown last in the created list. */
  method CreateThenRenderSettled(t: Task, mine: seq<Task>, theirs: seq<Task>) returns (ok: bool, v: View)
    ensures ok
    ensures v == Columns(mine + [t], theirs)
  {
    var p := new TaskContext.TaskProvider();
    p.GetTasks(TaskContext.Success(mine));
    p.GetAssignedTasks(TaskContext.Success(theirs));
    ok := p.CreateTaskSettled(TaskContext.Success(t));
    v := Render(p.isLoading, All, p.tasks, p.assignedTasks);
  }
}
