# Task manager: task record service and task list, modelled in Dafny

This project models the core of a personal task tracker. The backend part is
the task record service, the six Express route handlers that list, filter,
read, create, update and delete a user's tasks. The frontend part is three
pieces of the task list page: drag-and-drop reordering, "mark as completed"
and the status column filter.

- `wrappers.dfy` (module `Wrappers`): `Option` and `Min`.
- `task_model.dfy` (module `TaskModel`): the Task document schema. It holds
  the record type, the closed status enumeration with its `"Pending"`
  default, and the `trim` setter as JavaScript's `String.prototype.trim`. It
  also holds the `required` and `enum` validators (`Conforms`), `Task.create`
  (`Create`: cast, then validate) and the update cast (`ApplyUpdate`: setters
  only).
- `task_controllers.dfy` (module `TaskControllers`): the handlers over an
  in-memory table `map<TaskId, Task>` that stands for the task collection.
  - Queries are functions on the map: `GetTasks`, `GetTask` and
    `GetFilteredTasks`.
  - Mutations are step functions from the old table to the reply and the
    new table: `PostStep`, `PutStep` and `DeleteStep`.
  - The class `TaskCollection` holds the table as a field. Its methods
    `PostTask`, `PutTask` and `DeleteTask` update the field in place. Each
    is proved to behave as its step function.
  - Every handler takes the caller's user id as a parameter. Every reply is
    a `Response`: `Ok` (200, `status: true`), `BadRequest` (400),
    `Forbidden` (403) or `ServerError` (500). Each reply carries the
    handler's exact message.
- `tasks_view.dfy` (module `TasksView`):
  - `HandleDragEnd` copies the rows into a fresh array and splices it twice,
    with `SpliceRemove` then `SpliceInsert`. These are loops on the array
    buffer. It is proved equal to `Moved`. Lemmas about `Moved` give the
    permutation, the landing position and the order of the other rows.
  - `MarkAsCompleted` models `find` followed by the object spread.
  - `OnFilter` and `FilterRows` model the status filter.

Order of guards, as in the handlers:
- `getTask`: id format, then a lookup scoped to the caller. Another user's
  task looks exactly like a missing one (`GetTaskHidesForeignTasks`).
- `putTask`: the four body fields, then id format, then a store-wide lookup,
  then ownership. So a request with missing fields and a bad id reports the
  missing fields.
- `deleteTask`: id format, then a store-wide lookup, then ownership.
- Both `putTask` and `deleteTask` reveal another user's task with 403, where
  a missing id gives 400 (`PutDeleteRevealForeignTasks`).

Where the code departs from what the API is meant to guarantee, the model follows the code:
- `findByIdAndUpdate` passes no `runValidators` option. Mongoose runs the
  `trim` setters on the update but not the `enum` or `required` validators.
  An update can therefore store a status outside the three values, or a
  whitespace-only title trimmed to `""` (`PutSkipsValidators`). The claim
  that a stored status is always in the enumeration holds for documents
  written by `postTask` (`HandleNonPutPreservesConforms`), not after an
  update. What every operation preserves is the weaker `Stored` invariant:
  texts trimmed (`HandlePreservesStored`, `TaskCollection.Valid`).
- On create, a whitespace-only title or description passes the handler's
  truthiness check. The trim setter then empties it and the `required`
  validator throws. The handler's catch turns that into a 500, not a 400.
  The same holds for a status outside the enumeration.
- Create-then-read returns the submitted title and description trimmed, not
  verbatim (`PostThenGet`).
- `getFilteredTasks` rejects an empty `status` as well as a missing one.

## Model

| member | source | states |
|---|---|---|
| `TaskModel.ParseStatus` | backend/models/Task.js:24-27 | a string is accepted exactly when it is the label of a status, and it maps to that status |
| `TaskModel.ParseLabel` | backend/models/Task.js:26 | each of the three statuses is accepted by the enum validator as itself |
| `TaskModel.StatusEnumIsExactly` | backend/models/Task.js:26 | the accepted statuses are exactly "Pending", "In Progress" and "Completed" |
| `TaskModel.TrimStart` | backend/models/Task.js:13 | the result is a suffix of the input with a non-whitespace first character; everything dropped is whitespace |
| `TaskModel.TrimEnd` | backend/models/Task.js:18 | the result is a prefix of the input with a non-whitespace last character; everything dropped is whitespace |
| `TaskModel.Trim` | backend/models/Task.js:10-19 | a trimmed value has no leading or trailing whitespace |
| `TaskModel.TrimIsSlice` | backend/models/Task.js:10-19 | trimming keeps a contiguous slice and drops only whitespace before and after it |
| `TaskModel.TrimOfTrimmed` | backend/models/Task.js:13 | trimming an already trimmed string changes nothing |
| `TaskModel.TrimIdempotent` | backend/models/Task.js:18 | trimming twice is trimming once |
| `TaskModel.TrimEmptyIff` | backend/models/Task.js:10-19 | a text trims to the empty string (and so fails `required`) exactly when it is all whitespace |
| `TaskModel.Create` | backend/models/Task.js:3-28 | creation succeeds iff title and description are not all whitespace, the date is given and the status is absent or in the enum; the document then conforms to the schema, keeps the given user and date, has trimmed texts and the status given or "Pending" |
| `TaskModel.ApplyUpdate` | backend/controllers/taskControllers.js:84-88 | an updated document keeps its owner and has trimmed texts |
| `TaskControllers.GetTasks` | backend/controllers/taskControllers.js:5-8 | replies 200 with exactly the stored tasks whose user is the caller, unchanged |
| `TaskControllers.GetTask` | backend/controllers/taskControllers.js:16-26 | a malformed id gives 400 "Task id not valid"; otherwise 200 with the task iff it exists and belongs to the caller, else 400 "No task found.." |
| `TaskControllers.GetFilteredTasks` | backend/controllers/taskControllers.js:122-138 | 400 iff the status query is missing or empty; otherwise 200 with exactly the caller's tasks of that status, with the "no tasks" message iff none match |
| `TaskControllers.PostStep` | backend/controllers/taskControllers.js:34-52 | a missing or empty title, description or due date gives 400 with the table unchanged; success iff the schema accepts; a schema rejection gives 500 with the table unchanged; on success exactly one new entry is added, owned by the caller whatever the body says, with trimmed texts, the given date and status, or "Pending" when the status is falsy |
| `TaskControllers.PutStep` | backend/controllers/taskControllers.js:60-90 | missing fields give 400 before anything else; with the fields present, a malformed id gives 400 "Task id not valid" and an unknown id 400 "Task with given id not found"; success iff the fields are present, the id is valid and exists and the caller owns it; 403 iff the task exists but belongs to someone else; failures leave the table unchanged; success replaces exactly title, description, due date and status of that task, keeps its owner and every other entry |
| `TaskControllers.DeleteStep` | backend/controllers/taskControllers.js:98-115 | malformed id gives 400, a missing id 400 "Task with given id not found", another user's task 403; failures leave the table unchanged; success removes exactly that key and nothing else |
| `TaskControllers.TaskCollection.PostTask` | backend/controllers/taskControllers.js:34-52 | the reply and the new table are those of `PostStep`; the table keeps its invariant |
| `TaskControllers.TaskCollection.PutTask` | backend/controllers/taskControllers.js:60-90 | the reply and the new table are those of `PutStep`; the table keeps its invariant |
| `TaskControllers.TaskCollection.DeleteTask` | backend/controllers/taskControllers.js:98-115 | the reply and the new table are those of `DeleteStep`; the table keeps its invariant |
| `TaskControllers.OwnerIsImmutable` | backend/controllers/taskControllers.js:44-88 | no request changes the owner of a task that survives it |
| `TaskControllers.OnlyOwnerMutates` | backend/controllers/taskControllers.js:73-114 | a request by anyone but the owner leaves the task present and exactly as it was |
| `TaskControllers.HandlePreservesStored` | backend/models/Task.js:10-19 | every request keeps all keys valid ids and all stored texts trimmed |
| `TaskControllers.HandleNonPutPreservesConforms` | backend/models/Task.js:3-28 | create and delete keep every stored document within the schema |
| `TaskControllers.PutSkipsValidators` | backend/controllers/taskControllers.js:84-88 | a successful update with a status outside the enum or a whitespace-only title stores a document that does not conform to the schema |
| `TaskControllers.GetTaskBadIdIgnoresTable` | backend/controllers/taskControllers.js:18-20 | a malformed id gives 400 "Task id not valid" whatever the table holds |
| `TaskControllers.GetTaskHidesForeignTasks` | backend/controllers/taskControllers.js:22-25 | reading another user's task gives the same reply as if it did not exist |
| `TaskControllers.PutDeleteRevealForeignTasks` | backend/controllers/taskControllers.js:73-112 | update and delete answer 403 for another user's task but 400 "Task with given id not found" once it is absent |
| `TaskControllers.ListedOnlyForOwner` | backend/controllers/taskControllers.js:7 | a task is listed for a caller iff the caller owns it |
| `TaskControllers.FilteredIsSliceOfList` | backend/controllers/taskControllers.js:132 | the filtered list is the caller's full list restricted to the requested status |
| `TaskControllers.PostThenGet` | backend/controllers/taskControllers.js:44-52 | after a create the creator reads back the created task, with the submitted texts trimmed and the submitted date |
| `TaskControllers.PutThenGet` | backend/controllers/taskControllers.js:84-90 | after an update the owner reads back the four new fields |
| `TaskControllers.DeleteTwice` | backend/controllers/taskControllers.js:104-115 | after a delete, reading the id says "No task found.." and a second delete says "Task with given id not found" and changes nothing |
| `TaskControllers.CreatedTaskIsPrivate` | backend/controllers/taskControllers.js:16-115 | another user's update or delete of a newly created task gets 403 and changes nothing, their read gets "No task found..", while the creator can read it |
| `TasksView.SpliceRemove` | frontend/src/components/Tasks.jsx:69 | removing at an index returns that element and leaves the rest in order, shifted left |
| `TasksView.SpliceInsert` | frontend/src/components/Tasks.jsx:70 | inserting puts the element at the index clamped to the length and shifts the rest right |
| `TasksView.HandleDragEnd` | frontend/src/components/Tasks.jsx:65-73 | with no destination the list is unchanged; otherwise the new list is the old one with the dragged row moved, computed on a copy, and the original rows are not modified |
| `TasksView.MovedIsPermutation` | frontend/src/components/Tasks.jsx:68-72 | the reordered list has the same length and the same rows |
| `TasksView.MovedLandsAtDestination` | frontend/src/components/Tasks.jsx:69-70 | the dragged row ends at the destination index (clamped to the list) |
| `TasksView.MovedKeepsOthersInOrder` | frontend/src/components/Tasks.jsx:69-70 | every other row keeps its relative order |
| `TasksView.MovedAt` | frontend/src/components/Tasks.jsx:69-70 | each position of the new list, stated by index: rows between source and destination shift by one, the rest stay |
| `TasksView.MovedInPlace` | frontend/src/components/Tasks.jsx:69-70 | dropping a row where it was picked up changes nothing |
| `TasksView.FindIndex` | frontend/src/components/Tasks.jsx:39 | finds the first row with the id, or reports that no row has it |
| `TasksView.MarkAsCompleted` | frontend/src/components/Tasks.jsx:38-49 | an id not in the list gives "Task not found!" and no update; otherwise the update data is the first matching row with only its status set to "Completed" |
| `TasksView.MarkAsCompletedUpdatesOnlyStatus` | frontend/src/components/Tasks.jsx:46-58 | for any stored task with non-empty title, description and due date (even one whose status an earlier update put outside the enum), sending that data as the owner's update changes exactly the status of that task to "Completed" in the store |
| `TasksView.FilterRows` | frontend/src/components/Tasks.jsx:110 | a row is kept iff its status equals the selected value |
| `TasksView.FilterRowsAppend` | frontend/src/components/Tasks.jsx:110 | filtering distributes over concatenation and keeps or drops a single row by its status, so the kept rows stay in list order |
| `TasksView.ClientFilterMatchesServerFilter` | frontend/src/components/Tasks.jsx:105-110 | filtering the caller's listed rows by a status shows exactly the tasks the server's filtered query returns |

## Left out

- The `try/catch` 500 replies for store or runtime failures. The only 500
  modelled is the schema validation error thrown by `Task.create`.
- The authentication middleware. The caller's id is a parameter of every
  handler.
- `validateObjectId`: its module is not part of this model. It is the
  parameter `isObjectId`, and stored keys are assumed to satisfy it.
- Casting the caller's id to an ObjectId when a task is created. The
  middleware always supplies a well-formed id; a failed cast would be
  another 500.
- The ObjectId generator. The fresh id of a created task is the parameter
  `newId`, required to be unused.
- `createdAt`, `updatedAt` and the version key. They depend on the clock.
- Date casting: `dueDate` is opaque text. A due date that Mongoose cannot
  cast (another 500) is not modelled.
- Request bodies with non-string JSON values (numbers, booleans, arrays),
  and a repeated `status` query parameter.
- The order of listed tasks. Listings are returned as maps, so the store's
  natural order is not captured.
- The race between `findById` and `findByIdAndUpdate`/`findByIdAndDelete`.
  Each request is atomic in the model.
- Everything around the list that is presentation or network:
  - `fetchTasks`, `handleDelete` and the re-fetch after an update (network
    calls and toasts);
  - the date formatting and `dayjs`/`localeCompare` sorters;
  - pagination and table rendering;
  - the drag-and-drop library's own state.
- HandleDragEnd: requires the source index to lie in the list. The library
  gives the index of a rendered row. A source beyond the end, where JS
  `splice` would remove nothing and insert `undefined`, is not modelled.
- FilterRows: models one selected status. The table's combination of
  several selected values is not modelled.
