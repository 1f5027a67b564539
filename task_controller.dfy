/**
 * The task request handlers of the backend
 * (backend/controllers/taskController.js) as methods on a store of task
 * documents. The caller's id is the identity the authentication guard has
 * already resolved; each handler answers with one outcome kind.
 */
module TaskController {
  import opened TaskModel

  /** The response a handler sends; `HttpStatus` gives its status code. */
  datatype Outcome<+T> =
    | Created(value: T)
    | Ok(value: T)
    | Validation
    | AssigneeNotFound
    | NotFound
    | Unauthorized
    | ServerError
  {
    predicate IsSuccess() {
      Created? || Ok?
    }

    function HttpStatus(): (code: int)
      ensures IsSuccess() <==> 200 <= code < 300
    {
      match this
      case Created(_) => 201
      case Ok(_) => 200
      case Validation => 400
      case AssigneeNotFound => 404
      case NotFound => 404
      case Unauthorized => 401
      case ServerError => 500
    }
  }

  /** JavaScript truthiness of an optional string field of a request body. */
  predicate Truthy(s: Option<string>) {
    s.Some? && s.value != ""
  }

  /** The user directory: no two emails name the same user. */
  ghost predicate EmailsUnique(users: map<Email, UserId>) {
    forall e, e' :: e in users && e' in users && e != e' ==> users[e] != users[e']
  }

  /** Only a task's creator may update or delete it. */
  predicate MayEdit(caller: UserId, t: Task) {
    t.createdBy == caller
  }

  /** The creator or the assignee may toggle a task's status. */
  predicate MayToggle(caller: UserId, t: Task) {
    t.createdBy == caller || t.assignedTo == Some(caller)
  }

  /** Every caller allowed to edit a task may also toggle it; an assignee who did not create it may only toggle. */
  lemma EditImpliesToggle(caller: UserId, t: Task)
    ensures MayEdit(caller, t) ==> MayToggle(caller, t)
    ensures t.assignedTo == Some(caller) && t.createdBy != caller ==> MayToggle(caller, t) && !MayEdit(caller, t)
    ensures t.assignedTo.None? ==> (MayToggle(caller, t) <==> MayEdit(caller, t))
  {
  }

  /** The fields an update request may set. */
  datatype Patch = Patch(title: Option<string>, description: Option<string>, status: Option<Status>)

  /** The document after an update: the fields the patch names take its values, the others stay. */
  function ApplyPatch(t: Task, p: Patch): (r: Task)
    ensures r.id == t.id && r.createdBy == t.createdBy && r.assignedTo == t.assignedTo
    ensures p.title.Some? ==> r.title == p.title.value
    ensures p.title.None? ==> r.title == t.title
    ensures p.description.Some? ==> r.description == p.description
    ensures p.description.None? ==> r.description == t.description
    ensures p.status.Some? ==> r.status == p.status.value
    ensures p.status.None? ==> r.status == t.status
    ensures p == Patch(None, None, None) ==> r == t
  {
    t.(title := if p.title.Some? then p.title.value else t.title,
       description := if p.description.Some? then p.description else t.description,
       status := if p.status.Some? then p.status.value else t.status)
  }

  /** Applying the same patch twice has the effect of applying it once. */
  lemma ApplyPatchIdempotent(t: Task, p: Patch)
    ensures ApplyPatch(ApplyPatch(t, p), p) == ApplyPatch(t, p)
  {
  }

  class TaskStore {
    /** The task collection, keyed by document id. */
    var tasks: map<TaskId, Task>
    /** Every id at or above this one is unused: the source of fresh ids. */
    var nextId: TaskId
    /** The user directory consulted to resolve an assignee email. */
    const users: map<Email, UserId>

    ghost predicate Valid()
      reads this
    {
      && EmailsUnique(users)
      && forall id :: id in tasks ==> tasks[id].id == id && id < nextId
    }

    constructor (users: map<Email, UserId>)
      requires EmailsUnique(users)
      ensures Valid()
      ensures this.users == users && tasks == map[]
    {
      this.users := users;
      tasks := map[];
      nextId := 0;
    }

    /** GET /my: exactly the tasks the caller created. */
    method GetMyTasks(caller: UserId) returns (r: set<Task>)
      ensures forall t :: t in r <==> t in tasks.Values && t.createdBy == caller
    {
      r := set id | id in tasks && tasks[id].createdBy == caller :: tasks[id];
    }

    /** GET /assigned: exactly the tasks assigned to the caller. */
    method GetAssignedTasks(caller: UserId) returns (r: set<Task>)
      ensures forall t :: t in r <==> t in tasks.Values && t.assignedTo == Some(caller)
    {
      r := set id | id in tasks && tasks[id].assignedTo == Some(caller) :: tasks[id];
    }

    /**
     * POST /create: a falsy title is a validation error, checked before any
     * lookup; a truthy assignee email must name a user; on success exactly
     * one new pending task, created by the caller, is stored.
     */
    method CreateTask(caller: UserId, title: Option<string>, description: Option<string>,
                      assignedToEmail: Option<string>) returns (o: Outcome<Task>)
      requires Valid()
      modifies this`tasks, this`nextId
      ensures Valid()
      ensures !Truthy(title) ==> o == Validation
      ensures Truthy(title) && Truthy(assignedToEmail) && assignedToEmail.value !in users ==> o == AssigneeNotFound
      ensures o.Created? <==> Truthy(title) && (Truthy(assignedToEmail) ==> assignedToEmail.value in users)
      ensures o.Validation? || o.AssigneeNotFound? || o.Created?
      ensures !o.Created? ==> tasks == old(tasks)
      ensures o.Created? ==>
                && o.value.id !in old(tasks)
                && tasks == old(tasks)[o.value.id := o.value]
                && o.value.title == title.value
                && o.value.description == description
                && o.value.status == Pending
                && o.value.createdBy == caller
                && o.value.assignedTo == (if Truthy(assignedToEmail) then Some(users[assignedToEmail.value]) else None)
    {
      if !Truthy(title) {
        return Validation;
      }
      var assignedToId: Option<UserId> := None;
      if Truthy(assignedToEmail) {
        if assignedToEmail.value !in users {
          return AssigneeNotFound;
        }
        assignedToId := Some(users[assignedToEmail.value]);
      }
      var task := NewTask(nextId, title.value, description, caller, assignedToId);
      tasks := tasks[nextId := task];
      nextId := nextId + 1;
      o := Created(task);
    }

    /** PUT /update/:id: absent id is 404, a caller other than the creator 401, else the patch is stored. */
    method UpdateTask(caller: UserId, id: TaskId, patch: Patch) returns (o: Outcome<Task>)
      requires Valid()
      modifies this`tasks
      ensures Valid()
      ensures id !in old(tasks) ==> o == NotFound && tasks == old(tasks)
      ensures id in old(tasks) && !MayEdit(caller, old(tasks)[id]) ==> o == Unauthorized && tasks == old(tasks)
      ensures id in old(tasks) && MayEdit(caller, old(tasks)[id]) ==>
                o == Ok(ApplyPatch(old(tasks)[id], patch)) && tasks == old(tasks)[id := o.value]
    {
      if id !in tasks {
        return NotFound;
      }
      var task := tasks[id];
      if !MayEdit(caller, task) {
        return Unauthorized;
      }
      var updated := ApplyPatch(task, patch);
      tasks := tasks[id := updated];
      o := Ok(updated);
    }

    /** DELETE /delete/:id: absent id is 404, a caller other than the creator 401, else exactly that task goes. */
    method DeleteTask(caller: UserId, id: TaskId) returns (o: Outcome<TaskId>)
      requires Valid()
      modifies this`tasks
      ensures Valid()
      ensures id !in old(tasks) ==> o == NotFound && tasks == old(tasks)
      ensures id in old(tasks) && !MayEdit(caller, old(tasks)[id]) ==> o == Unauthorized && tasks == old(tasks)
      ensures id in old(tasks) && MayEdit(caller, old(tasks)[id]) ==> o == Ok(id) && tasks == old(tasks) - {id}
    {
      if id !in tasks {
        return NotFound;
      }
      var task := tasks[id];
      if !MayEdit(caller, task) {
        return Unauthorized;
      }
      tasks := tasks - {id};
      o := Ok(id);
    }

    /**
     * PUT /toggle/:id: absent id is 404, a caller who is neither creator nor
     * assignee 401. Saving runs the schema's validators, so a task whose title
     * an earlier update emptied is refused with 500 and stays as it was;
     * otherwise the status flips.
     */
    method ToggleTaskStatus(caller: UserId, id: TaskId) returns (o: Outcome<Task>)
      requires Valid()
      modifies this`tasks
      ensures Valid()
      ensures id !in old(tasks) ==> o == NotFound && tasks == old(tasks)
      ensures id in old(tasks) && !MayToggle(caller, old(tasks)[id]) ==> o == Unauthorized && tasks == old(tasks)
      ensures id in old(tasks) && MayToggle(caller, old(tasks)[id]) && !HasTitle(old(tasks)[id]) ==>
                o == ServerError && tasks == old(tasks)
      ensures id in old(tasks) && MayToggle(caller, old(tasks)[id]) && HasTitle(old(tasks)[id]) ==>
                o == Ok(Toggled(old(tasks)[id])) && tasks == old(tasks)[id := o.value]
    {
      if id !in tasks {
        return NotFound;
      }
      var task := tasks[id];
      if !MayToggle(caller, task) {
        return Unauthorized;
      }
      if !HasTitle(task) {
        return ServerError;
      }
      task := task.(status := if task.status == Completed then Pending else Completed);
      tasks := tasks[id := task];
      o := Ok(task);
    }
  }

  /**
   * Alice (1) creates a private task and one assigned to Bob (2) by email;
   * Bob sees only the assigned one, may toggle it but not delete it, and
   * Carol (3) may not delete it either; a create naming an unknown email
   * fails and stores nothing.
   */
  method AssignmentScenario()
    returns (privateTask: Outcome<Task>, bobTask: Outcome<Task>, unknown: Outcome<Task>,
             bobSees: set<Task>, bobToggle: Outcome<Task>, bobDelete: Outcome<TaskId>,
             carolDelete: Outcome<TaskId>)
    ensures privateTask.Created? && privateTask.value.assignedTo == None
    ensures bobTask.Created? && bobTask.value.createdBy == 1 && bobTask.value.assignedTo == Some(2)
    ensures bobTask.value.status == Pending
    ensures unknown == AssigneeNotFound && unknown.HttpStatus() == 404
    ensures bobTask.value in bobSees && privateTask.value !in bobSees
    ensures bobToggle.Ok? && bobToggle.value.status == Completed
    ensures bobDelete == Unauthorized && carolDelete == Unauthorized
  {
    var store := new TaskStore(map["alice@test.com" := 1, "bob@test.com" := 2, "carol@test.com" := 3]);
    privateTask := store.CreateTask(1, Some("Alice Private Task"), Some("Nobody else sees this"), None);
    bobTask := store.CreateTask(1, Some("Bob Task"), Some("Bob needs to do this"), Some("bob@test.com"));
    var before := store.tasks;
    unknown := store.CreateTask(1, Some("Lost Task"), None, Some("nobody@test.com"));
    assert store.tasks == before;
    bobSees := store.GetAssignedTasks(2);
    var id := bobTask.value.id;
    assert store.tasks[id] == bobTask.value;
    bobToggle := store.ToggleTaskStatus(2, id);
    bobDelete := store.DeleteTask(2, id);
    carolDelete := store.DeleteTask(3, id);
  }

  /**
   * An update stores an empty title unvalidated; a later toggle of that
   * task fails the save's required-title check with 500 and stores nothing.
   */
  method EmptiedTitleScenario() returns (created: Outcome<Task>, emptied: Outcome<Task>, toggled: Outcome<Task>)
    ensures created.Created?
    ensures emptied.Ok? && emptied.value.title == ""
    ensures toggled == ServerError && toggled.HttpStatus() == 500
  {
    var store := new TaskStore(map["alice@test.com" := 1]);
    created := store.CreateTask(1, Some("Write report"), None, None);
    var id := created.value.id;
    emptied := store.UpdateTask(1, id, Patch(Some(""), None, None));
    toggled := store.ToggleTaskStatus(1, id);
  }
}
