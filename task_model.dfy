/**
 * The task record of the backend (backend/models/Task.js): a title, an
 * optional description, a two-valued status, a required creator and an
 * optional assignee. Identifiers are abstract numbers; the store chooses
 * fresh ones.
 */
module TaskModel {

  type TaskId = nat
  type UserId = nat
  type Email = string

  datatype Option<+T> = None | Some(value: T)

  /** The status enum: a stored task is always in exactly one of these. */
  datatype Status = Pending | Completed

  /** The string the schema stores for a status; the client compares filters against it. */
  function StatusName(s: Status): (name: string)
    ensures name == "pending" || name == "completed"
  {
    match s
    case Pending => "pending"
    case Completed => "completed"
  }

  lemma StatusNameInjective(s: Status, s': Status)
    ensures StatusName(s) == StatusName(s') <==> s == s'
  {
  }

  /**
   * A task document. `createdBy` is not optional, so a task without a
   * creator cannot be written down; `assignedTo` and `description` are.
   */
  datatype Task = Task(
    id: TaskId,
    title: string,
    description: Option<string>,
    status: Status,
    createdBy: UserId,
    assignedTo: Option<UserId>)

  /** What the schema's `required` on `title` demands of a created document. */
  predicate HasTitle(t: Task) {
    t.title != ""
  }

  /**
   * The document `Task.create` builds: the schema's defaults give status
   * pending; an absent assignee is stored as null. The schema rejects a
   * missing title, so callers must supply one.
   */
  function NewTask(id: TaskId, title: string, description: Option<string>,
                   createdBy: UserId, assignedTo: Option<UserId>): (t: Task)
    requires title != ""
    ensures HasTitle(t) && t.status == Pending
    ensures t.id == id && t.createdBy == createdBy && t.assignedTo == assignedTo
    ensures t.title == title && t.description == description
  {
    Task(id, title, description, Pending, createdBy, assignedTo)
  }

  /** The other status: the two-state cycle pending <-> completed. */
  function Flip(s: Status): (r: Status)
    ensures r != s
  {
    if s == Completed then Pending else Completed
  }

  /** The task with its status flipped and every other field as it was. */
  function Toggled(t: Task): (r: Task)
    ensures r.status == Flip(t.status) && r.status != t.status
    ensures r.(status := t.status) == t
  {
    t.(status := Flip(t.status))
  }

  /** Toggling twice restores the original task. */
  lemma ToggleInvolution(t: Task)
    ensures Toggled(Toggled(t)) == t
  {
  }
}
