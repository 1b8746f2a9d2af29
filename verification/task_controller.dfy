/** The task handlers: every lookup, update and deletion is scoped by
    `(_id, user == caller)`, creation stamps the caller as owner, and the listing
    is paginated over the caller's tasks only. `caller` is `req.user.id`, set by
    the authentication middleware in front of every task route. Whether a path
    id casts to an ObjectId is given as `idIsValid`; one that does not makes the
    query fail with a cast error before anything is read or written. */
module TaskController {
  import opened Common
  import opened FieldFilter
  import opened Pagination
  import opened Store
  import opened TaskModel

  const EmptyCreateBody := AppError("Request body cannot be empty", 400)
  const TitleRequired := AppError("Task title is required", 400)
  const EmptyUpdateBody := AppError("Update body cannot be empty", 400)
  const TaskNotFound := AppError("No task found with that ID", 404)

  /** The fields `createTask` copies from the body. */
  const CreateFields := ["title", "description", "priority", "dueDate"]

  /** Every stored task satisfies the schema. */
  predicate AllValid(tasks: map<Id, Task>)
  {
    forall id :: id in tasks ==> ValidTask(tasks[id])
  }

  /** `findOne({ _id: id, user: caller })` finds a document: both ids are cast
      before they are compared with the stored ones. */
  predicate Owns(tasks: map<Id, Task>, id: Id, caller: Id)
  {
    Canon(id) in tasks && tasks[Canon(id)].user == Canon(caller)
  }

  /** The caller's tasks: what `{ user: caller }` selects. */
  function OwnedBy(tasks: map<Id, Task>, caller: Id): (r: map<Id, Task>)
    ensures forall id :: id in r <==> id in tasks && tasks[id].user == Canon(caller)
    ensures forall id :: id in r ==> r[id] == tasks[id]
  {
    map id | id in tasks && tasks[id].user == Canon(caller) :: tasks[id]
  }

  /** The document `createTask` hands to `Task.create`: the body's title,
      description, priority and due date where the body defines them, and the
      caller as owner whatever the body says. */
  function CreationDoc(body: Body, caller: Id): (d: Body)
    ensures d.Keys == body.Keys * {"title", "description", "priority", "dueDate"} + {"user"}
    ensures d["user"] == Str(caller)
    ensures "completed" !in d
    ensures forall k :: k in d && k != "user" ==> d[k] == body[k]
  {
    Project(body, CreateFields)["user" := Str(caller)]
  }

  /** POST /tasks. A missing or empty body and a falsy title are refused before
      anything is written; otherwise the task is created with `newId`, the id the
      store assigns. */
  method CreateTask(tasks: Collection<Task>, caller: Id, body: Option<Body>, newId: Id)
    returns (r: Result<Task>)
    requires newId !in tasks.docs && Canonical(newId)
    modifies tasks
    ensures body == None || body == Some(map[]) ==> r == Err(EmptyCreateBody)
    ensures body.Some? && body.value != map[] && !TruthyField(body.value, "title") ==> r == Err(TitleRequired)
    ensures body.Some? && body.value != map[] && TruthyField(body.value, "title") ==>
      r == NewTask(CreationDoc(body.value, caller))
    ensures r.Ok? ==> r.value.user == Canon(caller) && !r.value.completed && ValidTask(r.value)
    ensures r.Ok? ==> tasks.docs == old(tasks.docs)[newId := r.value]
    ensures r.Err? ==> tasks.docs == old(tasks.docs)
    ensures AllValid(old(tasks.docs)) ==> AllValid(tasks.docs)
  {
    if body.None? || body.value == map[] {
      return Err(EmptyCreateBody);
    }
    var b := body.value;
    if !TruthyField(b, "title") {
      return Err(TitleRequired);
    }
    var doc := CreationDoc(b, caller);
    r := NewTask(doc);
    if r.Ok? {
      tasks.docs := tasks.docs[newId := r.value];
    }
  }

  /** GET /tasks: the caller's tasks, one page of them. */
  function GetMyTasks(tasks: map<Id, Task>, order: seq<Id>, caller: Id,
                      pageArg: Option<int>, limitArg: Option<int>): (r: Result<Listing<Task>>)
    ensures ValidatePaging(pageArg, limitArg).Err? ==> r == Err(ValidatePaging(pageArg, limitArg).error)
    ensures r.Ok? <==> ValidatePaging(pageArg, limitArg).Ok?
    ensures r.Ok? ==>
      var p := ValidatePaging(pageArg, limitArg).value;
      && r.value.currentPage == p.page && r.value.limit == p.limit
      && r.value.total == |OwnedBy(tasks, caller)|
      && r.value.totalPages == TotalPages(r.value.total, p.limit)
      && |r.value.items| <= p.limit
    ensures r.Ok? ==>
      var p, listed := ValidatePaging(pageArg, limitArg).value, Listed(OwnedBy(tasks, caller), order);
      && |r.value.items| == (if Skip(p) >= |listed| then 0 else if Skip(p) + p.limit <= |listed| then p.limit else |listed| - Skip(p))
      && forall i :: 0 <= i < |r.value.items| ==> Skip(p) + i < |listed| && r.value.items[i] == listed[Skip(p) + i]
    ensures r.Ok? ==> forall i :: 0 <= i < |r.value.items| ==>
      r.value.items[i].user == Canon(caller) && r.value.items[i] in tasks.Values
  {
    var p :- ValidatePaging(pageArg, limitArg);
    var owned := OwnedBy(tasks, caller);
    var listed := Listed(owned, order);
    ListedOwned(tasks, order, caller);
    Ok(Listing(Window(listed, Skip(p), p.limit), |owned|, p.page, TotalPages(|owned|, p.limit), p.limit))
  }

  /** Every task in the caller's ordered listing is a stored task the caller owns. */
  lemma ListedOwned(tasks: map<Id, Task>, order: seq<Id>, caller: Id)
    ensures var listed := Listed(OwnedBy(tasks, caller), order);
      forall i :: 0 <= i < |listed| ==> listed[i].user == Canon(caller) && listed[i] in tasks.Values
  {
    var owned := OwnedBy(tasks, caller);
    assert forall v :: v in owned.Values ==> v.user == Canon(caller) && v in tasks.Values;
  }

  /** When the order lists every task once, a page holds `limit` tasks, fewer on
      the last page, none past it. */
  lemma GetMyTasksPageSize(tasks: map<Id, Task>, order: seq<Id>, caller: Id,
                           pageArg: Option<int>, limitArg: Option<int>)
    requires Distinct(order) && forall id :: id in tasks ==> id in order
    requires GetMyTasks(tasks, order, caller, pageArg, limitArg).Ok?
    ensures var l := GetMyTasks(tasks, order, caller, pageArg, limitArg).value;
      var skip := (l.currentPage - 1) * l.limit;
      |l.items| == if skip >= l.total then 0 else if skip + l.limit <= l.total then l.limit else l.total - skip
  {
    var owned := OwnedBy(tasks, caller);
    ListedComplete(owned, order);
  }

  /** What a caller's listing shows does not depend on other users' tasks:
      adding, replacing or removing a task the caller does not own changes nothing. */
  lemma GetMyTasksIsolated(tasks: map<Id, Task>, order: seq<Id>, caller: Id,
                           pageArg: Option<int>, limitArg: Option<int>, id: Id, t: Task)
    requires (id in tasks ==> tasks[id].user != Canon(caller)) && t.user != Canon(caller)
    ensures GetMyTasks(tasks[id := t], order, caller, pageArg, limitArg)
         == GetMyTasks(tasks, order, caller, pageArg, limitArg)
    ensures GetMyTasks(tasks - {id}, order, caller, pageArg, limitArg)
         == GetMyTasks(tasks, order, caller, pageArg, limitArg)
  {
    var owned := OwnedBy(tasks, caller);
    var replaced := tasks[id := t];
    var removed := tasks - {id};
    assert OwnedBy(replaced, caller) == owned by {
      assert forall k :: k in OwnedBy(replaced, caller) <==> k in owned;
    }
    assert OwnedBy(removed, caller) == owned by {
      assert forall k :: k in OwnedBy(removed, caller) <==> k in owned;
    }
    ListingDependsOnlyOnOwned(replaced, tasks, order, caller, pageArg, limitArg);
    ListingDependsOnlyOnOwned(removed, tasks, order, caller, pageArg, limitArg);
  }

  lemma ListingDependsOnlyOnOwned(a: map<Id, Task>, b: map<Id, Task>, order: seq<Id>, caller: Id,
                                  pageArg: Option<int>, limitArg: Option<int>)
    requires OwnedBy(a, caller) == OwnedBy(b, caller)
    ensures GetMyTasks(a, order, caller, pageArg, limitArg) == GetMyTasks(b, order, caller, pageArg, limitArg)
  {
  }

  /** GET /tasks/:id: found only when the task exists and the caller owns it. */
  function GetTask(tasks: map<Id, Task>, id: Id, idIsValid: bool, caller: Id): (r: Result<Task>)
    ensures !idIsValid ==> r == Err(ValidationFailed)
    ensures r.Ok? <==> idIsValid && Owns(tasks, id, caller)
    ensures r.Ok? ==> r.value == tasks[Canon(id)] && r.value.user == Canon(caller)
    ensures idIsValid && r.Err? ==> r == Err(TaskNotFound)
  {
    if !idIsValid then Err(ValidationFailed)
    else if Owns(tasks, id, caller) then Ok(tasks[Canon(id)]) else Err(TaskNotFound)
  }

  /** Another user's task answers exactly as a task that does not exist. */
  lemma GetTaskHidesForeignTasks(tasks: map<Id, Task>, id: Id, idIsValid: bool, caller: Id)
    requires Canon(id) in tasks && tasks[Canon(id)].user != Canon(caller)
    ensures GetTask(tasks, id, idIsValid, caller) == GetTask(tasks - {Canon(id)}, id, idIsValid, caller)
  {
  }

  /** PATCH /tasks/:id. The raw body is the update: an empty body is refused,
      the body is cast and validated before the query runs, and only the task
      matching `(id, caller)` is written. Because `user` is a schema path, the
      update can hand the task to another owner. */
  method UpdateTask(tasks: Collection<Task>, id: Id, idIsValid: bool, caller: Id, body: Option<Body>)
    returns (r: Result<Task>)
    modifies tasks
    ensures body == None || body == Some(map[]) ==> r == Err(EmptyUpdateBody)
    ensures body.Some? && body.value != map[] && (!idIsValid || !UpdateValid(body.value)) ==> r == Err(ValidationFailed)
    ensures body.Some? && body.value != map[] && idIsValid && UpdateValid(body.value) && !Owns(old(tasks.docs), id, caller) ==>
      r == Err(TaskNotFound)
    ensures r.Ok? <==> body.Some? && body.value != map[] && idIsValid && UpdateValid(body.value) && Owns(old(tasks.docs), id, caller)
    ensures r.Ok? ==> r == ApplyUpdate(old(tasks.docs)[Canon(id)], body.value)
    ensures r.Ok? ==> tasks.docs == old(tasks.docs)[Canon(id) := r.value]
    ensures r.Err? ==> tasks.docs == old(tasks.docs)
    ensures AllValid(old(tasks.docs)) ==> AllValid(tasks.docs)
  {
    if body.None? || body.value == map[] {
      return Err(EmptyUpdateBody);
    }
    var b := body.value;
    if !idIsValid || !UpdateValid(b) {
      return Err(ValidationFailed);
    }
    if !Owns(tasks.docs, id, caller) {
      return Err(TaskNotFound);
    }
    r := ApplyUpdate(tasks.docs[Canon(id)], b);
    tasks.docs := tasks.docs[Canon(id) := r.value];
  }

  /** DELETE /tasks/:id: removes the task matching `(id, caller)` and nothing else. */
  method DeleteTask(tasks: Collection<Task>, id: Id, idIsValid: bool, caller: Id) returns (r: Result<Task>)
    modifies tasks
    ensures !idIsValid ==> r == Err(ValidationFailed)
    ensures r.Ok? <==> idIsValid && Owns(old(tasks.docs), id, caller)
    ensures r.Ok? ==> r.value == old(tasks.docs)[Canon(id)] && tasks.docs == old(tasks.docs) - {Canon(id)}
    ensures idIsValid && r.Err? ==> r == Err(TaskNotFound)
    ensures r.Err? ==> tasks.docs == old(tasks.docs)
    ensures AllValid(old(tasks.docs)) ==> AllValid(tasks.docs)
  {
    if !idIsValid {
      return Err(ValidationFailed);
    }
    if !Owns(tasks.docs, id, caller) {
      return Err(TaskNotFound);
    }
    r := Ok(tasks.docs[Canon(id)]);
    tasks.docs := tasks.docs - {Canon(id)};
  }
}
