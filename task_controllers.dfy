/**
 * The task record service: the six route handlers of the task API, over an
 * in-memory table `map<TaskId, Task>` that stands for the task collection.
 *
 * Every handler takes the caller's user id (resolved by the authentication
 * middleware) as a parameter. The id-format check of the request parameter
 * is the parameter `isObjectId`. Each handler is a fixed chain of guards
 * followed by one query or one mutation; its reply is a `Response`.
 */
module TaskControllers {
  import opened Wrappers
  import opened TaskModel

  // Reply messages, exactly as the handlers send them.
  const MSG_TASKS_FOUND := "Tasks found successfully.."
  const MSG_ID_NOT_VALID := "Task id not valid"
  const MSG_NO_TASK := "No task found.."
  const MSG_TASK_FOUND := "Task found successfully.."
  const MSG_CREATE_REQUIRED := "Title, description, and due date are required"
  const MSG_CREATED := "Task created successfully.."
  const MSG_UPDATE_REQUIRED := "Title, description, due date, and status are required"
  const MSG_ID_NOT_FOUND := "Task with given id not found"
  const MSG_UPDATE_FORBIDDEN := "You can't update task of another user"
  const MSG_UPDATED := "Task updated successfully.."
  const MSG_DELETE_FORBIDDEN := "You can't delete task of another user"
  const MSG_DELETED := "Task deleted successfully.."
  const MSG_STATUS_REQUIRED := "Status query parameter is required"
  const MSG_NO_FILTERED := "No tasks found with the specified status"
  const MSG_FILTERED := "Filtered tasks found successfully.."
  const MSG_INTERNAL := "Internal Server Error"

  /** What a successful reply carries besides its message. */
  datatype Payload =
    | TaskList(tasks: map<TaskId, Task>)
    | OneTask(id: TaskId, task: Task)
    | NoPayload

  /** A reply: HTTP code, the body's boolean `status` flag and its `msg`. */
  datatype Response =
    | Ok(payload: Payload, msg: string)
    | BadRequest(msg: string)
    | Forbidden(msg: string)
    | ServerError(msg: string)
  {
    function Code(): nat {
      match this
      case Ok(_, _) => 200
      case BadRequest(_) => 400
      case Forbidden(_) => 403
      case ServerError(_) => 500
    }

    /** The `status` flag of the JSON body. */
    predicate Flag() {
      Ok?
    }
  }

  /**
   * The fields of a JSON request body. The handlers read only the four task
   * fields; `user` is there because clients may send one (it is ignored).
   */
  datatype Body = Body(title: Option<string>, description: Option<string>, dueDate: Option<string>,
                       status: Option<string>, user: Option<UserId>)

  /** JavaScript truthiness of a string field: present and not "". */
  predicate Truthy(f: Option<string>) {
    f.Some? && f.value != ""
  }

  /** The fields `postTask` demands. */
  predicate CreateFieldsGiven(body: Body) {
    Truthy(body.title) && Truthy(body.description) && Truthy(body.dueDate)
  }

  /** The fields `putTask` demands. */
  predicate UpdateFieldsGiven(body: Body) {
    CreateFieldsGiven(body) && Truthy(body.status)
  }

  /** A reply together with the table after the request. */
  datatype Step = Step(response: Response, tasks: map<TaskId, Task>)

  // ---------------------------------------------------------------------
  // Queries
  // ---------------------------------------------------------------------

  /** `getTasks`: `Task.find({ user })`. */
  function GetTasks(tasks: map<TaskId, Task>, caller: UserId): (r: Response)
    ensures r.Ok? && r.msg == MSG_TASKS_FOUND && r.payload.TaskList?
    ensures forall id :: id in r.payload.tasks <==> id in tasks && tasks[id].user == caller
    ensures forall id :: id in r.payload.tasks ==> r.payload.tasks[id] == tasks[id]
  {
    Ok(TaskList(map id | id in tasks && tasks[id].user == caller :: tasks[id]), MSG_TASKS_FOUND)
  }

  /** `getTask`: the lookup is `findOne({ user, _id })`, scoped to the caller. */
  function GetTask(tasks: map<TaskId, Task>, isObjectId: TaskId -> bool, caller: UserId, id: TaskId): (r: Response)
    ensures !isObjectId(id) ==> r == BadRequest(MSG_ID_NOT_VALID)
    ensures r.Ok? <==> isObjectId(id) && id in tasks && tasks[id].user == caller
    ensures r.Ok? ==> r == Ok(OneTask(id, tasks[id]), MSG_TASK_FOUND)
    ensures isObjectId(id) && !r.Ok? ==> r == BadRequest(MSG_NO_TASK)
  {
    if !isObjectId(id) then BadRequest(MSG_ID_NOT_VALID)
    else if id in tasks && tasks[id].user == caller then Ok(OneTask(id, tasks[id]), MSG_TASK_FOUND)
    else BadRequest(MSG_NO_TASK)
  }

  /** `getFilteredTasks`: `Task.find({ user, status })` once `status` is given. */
  function GetFilteredTasks(tasks: map<TaskId, Task>, caller: UserId, status: Option<string>): (r: Response)
    ensures r.BadRequest? <==> !Truthy(status)
    ensures r.BadRequest? ==> r.msg == MSG_STATUS_REQUIRED
    ensures !r.BadRequest? ==> r.Ok? && r.payload.TaskList?
    ensures r.Ok? ==> forall id :: id in r.payload.tasks <==>
      id in tasks && tasks[id].user == caller && tasks[id].status == status.value
    ensures r.Ok? ==> forall id :: id in r.payload.tasks ==> r.payload.tasks[id] == tasks[id]
    ensures r.Ok? ==> r.msg == if r.payload.tasks == map[] then MSG_NO_FILTERED else MSG_FILTERED
  {
    if !Truthy(status) then BadRequest(MSG_STATUS_REQUIRED)
    else
      var found := map id | id in tasks && tasks[id].user == caller && tasks[id].status == status.value :: tasks[id];
      Ok(TaskList(found), if |found| == 0 then MSG_NO_FILTERED else MSG_FILTERED)
  }

  // ---------------------------------------------------------------------
  // Mutations, as functions from the table before to reply and table after
  // ---------------------------------------------------------------------

  /** `postTask`; `newId` is the fresh ObjectId the store assigns on insert. */
  function PostStep(tasks: map<TaskId, Task>, caller: UserId, newId: TaskId, body: Body): (out: Step)
    requires newId !in tasks
    ensures !CreateFieldsGiven(body) ==>
      out == Step(BadRequest(MSG_CREATE_REQUIRED), tasks)
    ensures out.response.Ok? <==>
      && CreateFieldsGiven(body)
      && Trim(body.title.value) != "" && Trim(body.description.value) != ""
      && (Truthy(body.status) ==> ParseStatus(body.status.value).Some?)
    ensures out.response.ServerError? <==>
      CreateFieldsGiven(body) && !out.response.Ok?
    ensures out.response.ServerError? ==> out.response.msg == MSG_INTERNAL
    ensures !out.response.Ok? ==> out.tasks == tasks
    ensures out.response.Ok? ==>
      && newId in out.tasks
      && out.tasks == tasks[newId := out.tasks[newId]]
      && out.response == Ok(OneTask(newId, out.tasks[newId]), MSG_CREATED)
      && Conforms(out.tasks[newId])
      && out.tasks[newId].user == caller
      && out.tasks[newId].title == Trim(body.title.value)
      && out.tasks[newId].description == Trim(body.description.value)
      && out.tasks[newId].dueDate == body.dueDate.value
      && out.tasks[newId].status == if Truthy(body.status) then body.status.value else DEFAULT_STATUS.Label()
  {
    if !CreateFieldsGiven(body) then
      Step(BadRequest(MSG_CREATE_REQUIRED), tasks)
    else
      var status := if Truthy(body.status) then body.status.value else DEFAULT_STATUS.Label();
      assert ParseStatus(DEFAULT_STATUS.Label()).Some? by { ParseLabel(DEFAULT_STATUS); }
      var created := Create(caller, body.title.value, body.description.value, body.dueDate.value, Some(status));
      if created.None? then Step(ServerError(MSG_INTERNAL), tasks)
      else Step(Ok(OneTask(newId, created.value), MSG_CREATED), tasks[newId := created.value])
  }

  /** `putTask`: body fields, then id format, then store-wide lookup, then ownership. */
  function PutStep(tasks: map<TaskId, Task>, isObjectId: TaskId -> bool, caller: UserId, id: TaskId, body: Body): (out: Step)
    ensures !UpdateFieldsGiven(body) ==>
      out.response == BadRequest(MSG_UPDATE_REQUIRED)
    ensures UpdateFieldsGiven(body) && !isObjectId(id) ==>
      out.response == BadRequest(MSG_ID_NOT_VALID)
    ensures UpdateFieldsGiven(body) && isObjectId(id) && id !in tasks ==>
      out.response == BadRequest(MSG_ID_NOT_FOUND)
    ensures out.response.Ok? <==>
      && UpdateFieldsGiven(body)
      && isObjectId(id) && id in tasks && tasks[id].user == caller
    ensures out.response.Forbidden? <==>
      && UpdateFieldsGiven(body)
      && isObjectId(id) && id in tasks && tasks[id].user != caller
    ensures out.response.Forbidden? ==> out.response.msg == MSG_UPDATE_FORBIDDEN
    ensures !out.response.Ok? ==> out.tasks == tasks
    ensures out.response.Ok? ==>
      && id in tasks && id in out.tasks
      && out.tasks == tasks[id := out.tasks[id]]
      && out.response == Ok(OneTask(id, out.tasks[id]), MSG_UPDATED)
      && out.tasks[id].user == tasks[id].user
      && out.tasks[id].title == Trim(body.title.value)
      && out.tasks[id].description == Trim(body.description.value)
      && out.tasks[id].dueDate == body.dueDate.value
      && out.tasks[id].status == body.status.value
  {
    if !UpdateFieldsGiven(body) then
      Step(BadRequest(MSG_UPDATE_REQUIRED), tasks)
    else if !isObjectId(id) then
      Step(BadRequest(MSG_ID_NOT_VALID), tasks)
    else if id !in tasks then
      Step(BadRequest(MSG_ID_NOT_FOUND), tasks)
    else if tasks[id].user != caller then
      Step(Forbidden(MSG_UPDATE_FORBIDDEN), tasks)
    else
      var t := ApplyUpdate(tasks[id], body.title.value, body.description.value, body.dueDate.value, body.status.value);
      Step(Ok(OneTask(id, t), MSG_UPDATED), tasks[id := t])
  }

  /** `deleteTask`: id format, then store-wide lookup, then ownership. */
  function DeleteStep(tasks: map<TaskId, Task>, isObjectId: TaskId -> bool, caller: UserId, id: TaskId): (out: Step)
    ensures !isObjectId(id) ==> out.response == BadRequest(MSG_ID_NOT_VALID)
    ensures isObjectId(id) && id !in tasks ==> out.response == BadRequest(MSG_ID_NOT_FOUND)
    ensures out.response.Ok? <==> isObjectId(id) && id in tasks && tasks[id].user == caller
    ensures out.response.Forbidden? <==> isObjectId(id) && id in tasks && tasks[id].user != caller
    ensures out.response.Forbidden? ==> out.response.msg == MSG_DELETE_FORBIDDEN
    ensures !out.response.Ok? ==> out.tasks == tasks
    ensures out.response.Ok? ==>
      && out.response == Ok(NoPayload, MSG_DELETED)
      && id in tasks
      && out.tasks == tasks - {id}
  {
    if !isObjectId(id) then
      Step(BadRequest(MSG_ID_NOT_VALID), tasks)
    else if id !in tasks then
      Step(BadRequest(MSG_ID_NOT_FOUND), tasks)
    else if tasks[id].user != caller then
      Step(Forbidden(MSG_DELETE_FORBIDDEN), tasks)
    else
      Step(Ok(NoPayload, MSG_DELETED), tasks - {id})
  }

  // ---------------------------------------------------------------------
  // The collection, updated in place by the three mutating handlers
  // ---------------------------------------------------------------------

  class TaskCollection {
    const isObjectId: TaskId -> bool
    var tasks: map<TaskId, Task>

    /**
     * The invariant of the collection: keys are ObjectIds and every stored
     * document has trimmed texts. The constructor establishes it and each
     * handler preserves it, so every handler requires it of the state it
     * starts from.
     */
    ghost predicate Valid()
      reads this
    {
      forall id :: id in tasks ==> isObjectId(id) && Stored(tasks[id])
    }

    constructor (isObjectId: TaskId -> bool)
      ensures this.isObjectId == isObjectId && tasks == map[] && Valid()
    {
      this.isObjectId := isObjectId;
      tasks := map[];
    }

    method PostTask(caller: UserId, newId: TaskId, body: Body) returns (r: Response)
      requires Valid() && isObjectId(newId) && newId !in tasks
      modifies this
      ensures Valid()
      ensures Step(r, tasks) == PostStep(old(tasks), caller, newId, body)
    {
      if !CreateFieldsGiven(body) {
        return BadRequest(MSG_CREATE_REQUIRED);
      }
      var status := if Truthy(body.status) then body.status.value else DEFAULT_STATUS.Label();
      var created := Create(caller, body.title.value, body.description.value, body.dueDate.value, Some(status));
      if created.None? {
        return ServerError(MSG_INTERNAL);
      }
      tasks := tasks[newId := created.value];
      r := Ok(OneTask(newId, created.value), MSG_CREATED);
    }

    method PutTask(caller: UserId, id: TaskId, body: Body) returns (r: Response)
      requires Valid()
      modifies this
      ensures Valid()
      ensures Step(r, tasks) == PutStep(old(tasks), isObjectId, caller, id, body)
    {
      if !UpdateFieldsGiven(body) {
        return BadRequest(MSG_UPDATE_REQUIRED);
      }
      if !isObjectId(id) {
        return BadRequest(MSG_ID_NOT_VALID);
      }
      if id !in tasks {
        return BadRequest(MSG_ID_NOT_FOUND);
      }
      if tasks[id].user != caller {
        return Forbidden(MSG_UPDATE_FORBIDDEN);
      }
      var t := ApplyUpdate(tasks[id], body.title.value, body.description.value, body.dueDate.value, body.status.value);
      tasks := tasks[id := t];
      r := Ok(OneTask(id, t), MSG_UPDATED);
    }

    method DeleteTask(caller: UserId, id: TaskId) returns (r: Response)
      requires Valid()
      modifies this
      ensures Valid()
      ensures Step(r, tasks) == DeleteStep(old(tasks), isObjectId, caller, id)
    {
      if !isObjectId(id) {
        return BadRequest(MSG_ID_NOT_VALID);
      }
      if id !in tasks {
        return BadRequest(MSG_ID_NOT_FOUND);
      }
      if tasks[id].user != caller {
        return Forbidden(MSG_DELETE_FORBIDDEN);
      }
      tasks := tasks - {id};
      r := Ok(NoPayload, MSG_DELETED);
    }
  }

  // ---------------------------------------------------------------------
  // Properties that relate the handlers
  // ---------------------------------------------------------------------

  /** A mutating request, as the router dispatches it. */
  datatype Request =
    | Post(newId: TaskId, body: Body)
    | Put(id: TaskId, body: Body)
    | Delete(id: TaskId)

  /** The id of a `Post` is fresh, as the store guarantees. */
  predicate Admissible(tasks: map<TaskId, Task>, req: Request) {
    req.Post? ==> req.newId !in tasks
  }

  function Handle(tasks: map<TaskId, Task>, isObjectId: TaskId -> bool, caller: UserId, req: Request): Step
    requires Admissible(tasks, req)
  {
    match req
    case Post(newId, body) => PostStep(tasks, caller, newId, body)
    case Put(id, body) => PutStep(tasks, isObjectId, caller, id, body)
    case Delete(id) => DeleteStep(tasks, isObjectId, caller, id)
  }

  /** Whatever is requested, a task that survives keeps its owner. */
  lemma OwnerIsImmutable(tasks: map<TaskId, Task>, isObjectId: TaskId -> bool, caller: UserId, req: Request, id: TaskId)
    requires Admissible(tasks, req)
    requires id in tasks && id in Handle(tasks, isObjectId, caller, req).tasks
    ensures Handle(tasks, isObjectId, caller, req).tasks[id].user == tasks[id].user
  {
    match req
    case Post(newId, body) =>
      var out := PostStep(tasks, caller, newId, body);
      if out.response.Ok? {
        assert id != newId;
      }
    case Put(target, body) =>
      var out := PutStep(tasks, isObjectId, caller, target, body);
      if out.response.Ok? && id != target {
        assert out.tasks[id] == tasks[id];
      }
    case Delete(target) =>
      var out := DeleteStep(tasks, isObjectId, caller, target);
      if out.response.Ok? {
        assert out.tasks[id] == tasks[id];
      }
  }

  /** Only a task's owner can change or remove it: for anyone else the task is left exactly as it was. */
  lemma OnlyOwnerMutates(tasks: map<TaskId, Task>, isObjectId: TaskId -> bool, caller: UserId, req: Request, id: TaskId)
    requires Admissible(tasks, req)
    requires id in tasks && tasks[id].user != caller
    ensures var after := Handle(tasks, isObjectId, caller, req).tasks;
            id in after && after[id] == tasks[id]
  {
    match req
    case Post(newId, body) =>
      var out := PostStep(tasks, caller, newId, body);
      if out.response.Ok? {
        assert id != newId;
      }
    case Put(target, body) =>
      var out := PutStep(tasks, isObjectId, caller, target, body);
      if out.response.Ok? {
        assert id != target;
      }
    case Delete(target) =>
      var out := DeleteStep(tasks, isObjectId, caller, target);
      if out.response.Ok? {
        assert id != target;
      }
  }

  /** Every request keeps the table's keys ObjectIds and its texts trimmed. */
  lemma {:induction false} HandlePreservesStored(tasks: map<TaskId, Task>, isObjectId: TaskId -> bool, caller: UserId, req: Request)
    requires Admissible(tasks, req)
    requires req.Post? ==> isObjectId(req.newId)
    requires forall id :: id in tasks ==> isObjectId(id) && Stored(tasks[id])
    ensures var after := Handle(tasks, isObjectId, caller, req).tasks;
            forall id :: id in after ==> isObjectId(id) && Stored(after[id])
  {
    var after := Handle(tasks, isObjectId, caller, req).tasks;
    match req
    case Post(newId, body) =>
      var out := PostStep(tasks, caller, newId, body);
      if out.response.Ok? {
        forall id | id in after
          ensures isObjectId(id) && Stored(after[id])
        {
          if id != newId {
            assert after[id] == tasks[id];
          }
        }
      }
    case Put(target, body) =>
      var out := PutStep(tasks, isObjectId, caller, target, body);
      if out.response.Ok? {
        forall id | id in after
          ensures isObjectId(id) && Stored(after[id])
        {
          if id != target {
            assert after[id] == tasks[id];
          }
        }
      }
    case Delete(target) =>
  }

  /** Creation and deletion keep every stored document within the schema. */
  lemma HandleNonPutPreservesConforms(tasks: map<TaskId, Task>, isObjectId: TaskId -> bool, caller: UserId, req: Request)
    requires Admissible(tasks, req) && !req.Put?
    requires forall id :: id in tasks ==> Conforms(tasks[id])
    ensures var after := Handle(tasks, isObjectId, caller, req).tasks;
            forall id :: id in after ==> Conforms(after[id])
  {
    var after := Handle(tasks, isObjectId, caller, req).tasks;
    match req
    case Post(newId, body) =>
      var out := PostStep(tasks, caller, newId, body);
      if out.response.Ok? {
        forall id | id in after
          ensures Conforms(after[id])
        {
          if id != newId {
            assert after[id] == tasks[id];
          }
        }
      }
    case Delete(target) =>
  }

  /**
   * The update skips the schema's validators: a status outside the enum, or
   * a whitespace-only title, is stored as sent (the title trimmed to ""), so
   * the updated document no longer conforms to the schema.
   */
  lemma {:induction false} PutSkipsValidators(tasks: map<TaskId, Task>, isObjectId: TaskId -> bool, caller: UserId, id: TaskId, body: Body)
    requires PutStep(tasks, isObjectId, caller, id, body).response.Ok?
    requires ParseStatus(body.status.value).None? || AllWhitespace(body.title.value)
    ensures var after := PutStep(tasks, isObjectId, caller, id, body).tasks;
            && (AllWhitespace(body.title.value) ==> after[id].title == "")
            && !Conforms(after[id])
  {
    TrimEmptyIff(body.title.value);
  }


  /** `getTask` rejects a malformed id from the id alone, whatever the table holds. */
  lemma GetTaskBadIdIgnoresTable(t1: map<TaskId, Task>, t2: map<TaskId, Task>, isObjectId: TaskId -> bool, caller: UserId, id: TaskId)
    requires !isObjectId(id)
    ensures GetTask(t1, isObjectId, caller, id) == GetTask(t2, isObjectId, caller, id) == BadRequest(MSG_ID_NOT_VALID)
  {
  }

  /** Another user's task is answered exactly as if it did not exist. */
  lemma GetTaskHidesForeignTasks(tasks: map<TaskId, Task>, isObjectId: TaskId -> bool, caller: UserId, id: TaskId)
    requires id in tasks && tasks[id].user != caller
    ensures GetTask(tasks, isObjectId, caller, id) == GetTask(tasks - {id}, isObjectId, caller, id)
  {
  }

  /** Updating and deleting reveal another user's task with 403, where a missing id gives 400. */
  lemma PutDeleteRevealForeignTasks(tasks: map<TaskId, Task>, isObjectId: TaskId -> bool, caller: UserId, id: TaskId, body: Body)
    requires isObjectId(id) && id in tasks && tasks[id].user != caller
    requires UpdateFieldsGiven(body)
    ensures PutStep(tasks, isObjectId, caller, id, body) == Step(Forbidden(MSG_UPDATE_FORBIDDEN), tasks)
    ensures PutStep(tasks - {id}, isObjectId, caller, id, body) == Step(BadRequest(MSG_ID_NOT_FOUND), tasks - {id})
    ensures DeleteStep(tasks, isObjectId, caller, id) == Step(Forbidden(MSG_DELETE_FORBIDDEN), tasks)
    ensures DeleteStep(tasks - {id}, isObjectId, caller, id) == Step(BadRequest(MSG_ID_NOT_FOUND), tasks - {id})
  {
  }

  /** Each task is listed for its owner and for nobody else. */
  lemma ListedOnlyForOwner(tasks: map<TaskId, Task>, caller: UserId, id: TaskId)
    requires id in tasks
    ensures id in GetTasks(tasks, caller).payload.tasks <==> tasks[id].user == caller
  {
  }

  /** The filtered list is the caller's list cut down to one status. */
  lemma {:induction false} FilteredIsSliceOfList(tasks: map<TaskId, Task>, caller: UserId, status: string)
    requires status != ""
    ensures var all := GetTasks(tasks, caller).payload.tasks;
            GetFilteredTasks(tasks, caller, Some(status)).payload.tasks
              == map id | id in all && all[id].status == status :: all[id]
  {
    var all := GetTasks(tasks, caller).payload.tasks;
    var some := GetFilteredTasks(tasks, caller, Some(status)).payload.tasks;
    assert some.Keys == (map id | id in all && all[id].status == status :: all[id]).Keys;
  }

  /** What was created is what the creator then reads back, texts trimmed. */
  lemma PostThenGet(tasks: map<TaskId, Task>, isObjectId: TaskId -> bool, caller: UserId, newId: TaskId, body: Body)
    requires newId !in tasks && isObjectId(newId)
    requires PostStep(tasks, caller, newId, body).response.Ok?
    ensures var after := PostStep(tasks, caller, newId, body).tasks;
            var got := GetTask(after, isObjectId, caller, newId);
            && got.Ok? && got.payload == PostStep(tasks, caller, newId, body).response.payload
            && got.payload.task.title == Trim(body.title.value)
            && got.payload.task.description == Trim(body.description.value)
            && got.payload.task.dueDate == body.dueDate.value
  {
  }

  /** After an update the owner reads back the four new fields. */
  lemma PutThenGet(tasks: map<TaskId, Task>, isObjectId: TaskId -> bool, caller: UserId, id: TaskId, body: Body)
    requires PutStep(tasks, isObjectId, caller, id, body).response.Ok?
    ensures var got := GetTask(PutStep(tasks, isObjectId, caller, id, body).tasks, isObjectId, caller, id);
            && got.Ok?
            && got.payload.task.title == Trim(body.title.value)
            && got.payload.task.description == Trim(body.description.value)
            && got.payload.task.dueDate == body.dueDate.value
            && got.payload.task.status == body.status.value
  {
  }

  /** After a delete the task is gone: reading it and deleting it again both report it missing. */
  lemma DeleteTwice(tasks: map<TaskId, Task>, isObjectId: TaskId -> bool, caller: UserId, id: TaskId)
    requires DeleteStep(tasks, isObjectId, caller, id).response.Ok?
    ensures var after := DeleteStep(tasks, isObjectId, caller, id).tasks;
            && GetTask(after, isObjectId, caller, id) == BadRequest(MSG_NO_TASK)
            && DeleteStep(after, isObjectId, caller, id) == Step(BadRequest(MSG_ID_NOT_FOUND), after)
  {
  }

  /**
   * A freshly created task is private: another user's update and delete are
   * refused with 403 and leave the table alone, another user's read says it
   * does not exist, and its creator reads it back.
   */
  lemma CreatedTaskIsPrivate(tasks: map<TaskId, Task>, isObjectId: TaskId -> bool, caller: UserId, other: UserId,
                             newId: TaskId, body: Body, change: Body)
    requires newId !in tasks && isObjectId(newId) && other != caller
    requires PostStep(tasks, caller, newId, body).response.Ok?
    requires UpdateFieldsGiven(change)
    ensures var after := PostStep(tasks, caller, newId, body).tasks;
            && PutStep(after, isObjectId, other, newId, change) == Step(Forbidden(MSG_UPDATE_FORBIDDEN), after)
            && DeleteStep(after, isObjectId, other, newId) == Step(Forbidden(MSG_DELETE_FORBIDDEN), after)
            && GetTask(after, isObjectId, other, newId) == BadRequest(MSG_NO_TASK)
            && GetTask(after, isObjectId, caller, newId).Ok?
  {
  }


}
