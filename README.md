# Task manager: task ownership, authorization and the client task cache

This project is a Dafny model of the core of a small task-tracking service.
Users create tasks and may assign a task to another user by email. The model
covers three parts.

- **Backend task handlers** (`backend/controllers/taskController.js`, over the
  record of `backend/models/Task.js`). The handlers list the caller's created
  tasks and the tasks assigned to the caller. They also create, update, delete
  and toggle tasks. The caller's id is one the authentication guard has already
  resolved.
  - Update and delete are for the creator only.
  - Toggle is for the creator or the assignee.
  - Each handler answers with one outcome kind: validation (400), assignee not
    found (404), task not found (404), unauthorized (401), a save rejected by
    the schema (500), or success.
- **Client task cache** (`frontend/src/context/TaskContext.jsx`). The provider
  holds the created list, the assigned list and a loading flag. It reconciles
  them with each server reply:
  - a fetch replaces a list;
  - a create appends;
  - a delete filters by id;
  - a toggle replaces by id in both lists.
- **Dashboard filter** (`frontend/src/pages/Dashboard.jsx`). The page narrows
  both lists by one status filter. The value `all` passes everything through.

The modules follow the source files:

- `TaskModel` (task_model.dfy) holds the task record, the status enum and the
  status flip.
- `TaskController` (task_controller.dfy) is a `TaskStore` class. It holds a map
  from task id to task, a counter that supplies fresh ids, and an injective
  email-to-user directory. Each handler is a method whose contract states the
  whole new store for every outcome.
- `TaskContext` (task_context.dfy) is a `TaskProvider` class. Its methods take
  the server reply (and, for delete, the user's confirmation answer) as inputs.
  The new lists are given by the pure functions `RemoveById` and `ReplaceById`.
- `Lists` (lists.dfy) is the order-preserving filter both client files use. It
  comes with a subsequence predicate and lemmas.
- `Dashboard` (dashboard.dfy) holds `FilterTasks` and the render decision.

Three facts about the code shape the model:

- The code has no real-time channel, so the handlers send no notifications.
- `updateTask` stores the request body without running schema validators. So
  an update can store an empty title, and the store invariant does not include
  "every title is non-empty". Only created tasks are shown to have a title.
  A later toggle of such a task fails, because `save()` does run the
  validators: the handler answers 500 and stores nothing.
- The body of an update is not restricted to title, description and status in
  the code. The narrowing the model makes is listed under "Left out".

## Model

| member | source | states |
|---|---|---|
| TaskModel.StatusName | backend/models/Task.js:13-17 | a stored status is exactly the string `pending` or `completed` |
| TaskModel.StatusNameInjective | backend/models/Task.js:15 | the two enum values have distinct names, so comparing names compares statuses |
| TaskModel.NewTask | backend/models/Task.js:5-27 | a created document has a non-empty title, status pending by default, the given required creator, and the given assignee (null when absent) |
| TaskModel.Flip | backend/controllers/taskController.js:134 | the flipped status differs from the old one |
| TaskModel.Toggled | backend/controllers/taskController.js:134 | toggling changes the status and no other field |
| TaskModel.ToggleInvolution | backend/controllers/taskController.js:134 | toggling twice restores the original task |
| TaskController.EditImpliesToggle | backend/controllers/taskController.js:126-132 | the creator may both edit and toggle; an assignee who is not the creator may toggle but not edit; on an unassigned task only the creator may toggle |
| TaskController.Outcome.HttpStatus | backend/controllers/taskController.js:37-139 | the status code of each response: 201 for a create, 200 for other successes, 400 for a missing title, 404 for an unknown assignee or task, 401 for a forbidden caller, 500 for a rejected save; exactly the successes are in the 2xx range |
| TaskController.ApplyPatch | backend/controllers/taskController.js:81-83 | an update sets exactly the fields the patch names, and every field it leaves out keeps its value; id, creator and assignee are kept; an empty patch changes nothing |
| TaskController.ApplyPatchIdempotent | backend/controllers/taskController.js:81-83 | repeating an update with the same body gives the same document |
| TaskController.TaskStore.constructor | backend/models/User.js:10-14 | the store starts empty over a directory in which no two emails name the same user |
| TaskController.TaskStore.GetMyTasks | backend/controllers/taskController.js:7-15 | a task is returned if and only if it is stored and the caller created it |
| TaskController.TaskStore.GetAssignedTasks | backend/controllers/taskController.js:20-28 | a task is returned if and only if it is stored and assigned to the caller |
| TaskController.TaskStore.CreateTask | backend/controllers/taskController.js:33-63 | a falsy title gives 400 before any lookup. A truthy email naming no user gives 404. Failures store nothing. Success stores exactly one task under a fresh id: created by the caller, assigned to the resolved user or null, status pending. Other tasks are unchanged |
| TaskController.TaskStore.UpdateTask | backend/controllers/taskController.js:68-89 | an absent id gives 404 before any authorization check. A caller other than the creator gives 401. Both leave the store unchanged. Otherwise only that task is replaced by the patched one |
| TaskController.TaskStore.DeleteTask | backend/controllers/taskController.js:94-113 | an absent id gives 404 and a caller other than the creator gives 401, both with the store unchanged. Otherwise exactly that task is removed and its id is returned |
| TaskController.TaskStore.ToggleTaskStatus | backend/controllers/taskController.js:118-141 | an absent id gives 404. A caller who is neither creator nor assignee gives 401. A task whose title is empty fails the save's validation with 500. All three leave the store unchanged. Otherwise only that task changes, to its toggled version |
| TaskController.AssignmentScenario | backend/test-backend.js:71-145 | Alice's private task is invisible to Bob. Her task for Bob is pending and assigned to him, and he sees it. Bob may toggle it (to completed) but not delete it, and neither may Carol. An unknown email gives 404. The create and list steps follow the script. The toggle, the refused deletes and the unknown email follow the handlers at backend/controllers/taskController.js:118-141, 94-113 and 43-47 |
| TaskController.EmptiedTitleScenario | backend/controllers/taskController.js:81-140 | an update stores an empty title, and a later toggle of that task is refused with 500 |
| Lists.Filter | frontend/src/pages/Dashboard.jsx:31 | the result holds only elements that pass the test and drops none that pass (with multiplicity). It is no longer than the input and is a subsequence of it |
| Lists.FilterAppend | frontend/src/pages/Dashboard.jsx:31 | filtering distributes over concatenation, so relative order is kept |
| Lists.FilterAll | frontend/src/pages/Dashboard.jsx:30 | a test every element passes returns the list unchanged |
| Lists.FilterNone | frontend/src/pages/Dashboard.jsx:31 | a test no element passes returns the empty list |
| TaskContext.RemoveById | frontend/src/context/TaskContext.jsx:70 | no entry with the id remains, every other entry remains with all its copies, and order is kept |
| TaskContext.RemoveAbsent | frontend/src/context/TaskContext.jsx:70 | removing an id no entry carries leaves the list unchanged |
| TaskContext.ReplaceById | frontend/src/context/TaskContext.jsx:83-84 | the length is unchanged; entries with the id become the reply and all others stay in place |
| TaskContext.ReplaceAbsent | frontend/src/context/TaskContext.jsx:83-84 | replacing by an id no entry carries leaves the list unchanged |
| TaskContext.ReplaceTwice | frontend/src/context/TaskContext.jsx:83-84 | two replacements by the same id keep only the second reply |
| TaskContext.TaskProvider.constructor | frontend/src/context/TaskContext.jsx:9-11 | both lists start empty and the page is not loading |
| TaskContext.TaskProvider.GetTasks | frontend/src/context/TaskContext.jsx:26-35 | on success the created list becomes the fetched list; on failure it is unchanged. The assigned list is untouched, and loading ends either way |
| TaskContext.TaskProvider.GetAssignedTasks | frontend/src/context/TaskContext.jsx:38-47 | on success the assigned list becomes the fetched list; on failure it is unchanged. The created list is untouched, and loading ends either way |
| TaskContext.TaskProvider.CreateTask | frontend/src/context/TaskContext.jsx:50-62 | returns true exactly on success. On success the new task is appended at the end of the created list; on failure the list is unchanged. The assigned list is untouched, and loading stays set on both paths |
| TaskContext.TaskProvider.CreateTaskSettled | frontend/src/context/TaskContext.jsx:50-62 | the same as CreateTask, except that loading is cleared on both paths |
| TaskContext.TaskProvider.DeleteTask | frontend/src/context/TaskContext.jsx:65-75 | a declined confirmation sends no request and changes nothing. A successful delete removes every entry with the id from the created list only. A failed delete changes nothing |
| TaskContext.TaskProvider.ToggleTaskStatus | frontend/src/context/TaskContext.jsx:78-89 | on success the reply replaces the entries with the task's id in both lists; on failure both lists are unchanged |
| Dashboard.FilterTasks | frontend/src/pages/Dashboard.jsx:29-32 | `all` returns the list unchanged. Any other filter keeps exactly the tasks whose status string equals it, with all their copies, in order, and never lengthens the list |
| Dashboard.FilterPartition | frontend/src/pages/Dashboard.jsx:29-32 | a filter naming no status shows nothing; the pending and completed views together are as long as the list |
| Dashboard.FilterSplit | frontend/src/pages/Dashboard.jsx:29-32 | the pending and completed views of a list add up to its length |
| Dashboard.Render | frontend/src/pages/Dashboard.jsx:25-35 | the page shows the loading notice exactly while loading; otherwise it shows both lists under the same filter |
| Dashboard.CreateThenRender | frontend/src/context/TaskContext.jsx:50-62 | after fetching both lists and creating a task with the provider as written, the page shows only the loading notice |
| Dashboard.CreateThenRenderSettled | frontend/src/context/TaskContext.jsx:50-62 | with loading cleared after the create, the page shows the created list with the new task last |

## Left out

- Token issuing and verification and the authentication guard are not part of this model. The caller's user id is a trusted parameter.
- Real-time notifications: the code has no channel or room logic, so no notification is modelled.
- Registration, login, user records beyond the email directory, Express wiring, CORS, the database connection and the route table are left out.
- The 500 branches are left out, except the one where the toggle's `save()` rejects an empty title. The rest come from storage failures, and from the CastError `findById` raises for a malformed id. Task ids are abstract numbers here, so a malformed id cannot be written.
- Task ids are abstract numbers handed out by a counter, not generated ObjectIds. Timestamps are not modelled.
- Listing replies return whole tasks. The `populate` projection of the counterpart user to name and email is left out.
- TaskController.TaskStore.UpdateTask: the patch is narrowed to title, description and status, and status is typed. The code passes the request body unfiltered and without validators. So it can also overwrite the creator or assignee, or store a status outside the enum.
- TaskController.TaskStore.CreateTask: the title, description and email are strings or absent. Request bodies with non-string values are not modelled.
- TaskController.TaskStore.GetMyTasks: the reply is a set. The database's return order is not modelled.
- TaskController.TaskStore.GetAssignedTasks: the reply is a set. The database's return order is not modelled.
- Concurrency between requests is not modelled; requests are handled one at a time. The React handlers read the lists captured at render time, and that stale-closure interleaving is not modelled either.
- Rendering, routing, toasts, axios transport, `window.confirm` and localStorage are left out. Server replies and the confirmation answer are method inputs.

## Findings

| source | as written | input that shows it | evidently intended | confidence | as-written member | corrected member |
|---|---|---|---|---|---|---|
| frontend/src/context/TaskContext.jsx:50-62 | both branches of the try/catch return, so `setIsLoading(false)` on line 61 is never reached. The loading flag stays set after every create, and the dashboard keeps showing only its loading notice | fetch both lists, then create any task with a successful reply | loading is cleared once the create settles, as it is after the fetches | high, not executed | Dashboard.CreateThenRender | Dashboard.CreateThenRenderSettled |
