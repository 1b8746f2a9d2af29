/** The task schema: its typed document, the validity the schema enforces, the
    per-path casting, setters and validators, the default-filling creation of a
    document (`Task.create`) and the application of an update body to a stored
    document (`findOneAndUpdate` with `runValidators`). */
module TaskModel {
  import opened Common
  import opened Text

  const TitleMaxLength := 100
  const DescriptionMaxLength := 500

  /** The schema paths a body can set; any other key is dropped (strict mode). */
  const SchemaPaths := {"title", "description", "completed", "priority", "dueDate", "user"}

  datatype Priority = Low | Medium | High

  /** A stored task. `dueDate` keeps the submitted value (Date casting is not part
      of this model); the creation and update timestamps are not modelled. */
  datatype Task = Task(
    title: string,
    description: Option<string>,
    completed: bool,
    priority: Priority,
    dueDate: Option<Value>,
    user: Id)

  /** A title the schema accepts: required (non-empty), trimmed, at most 100 long. */
  predicate ValidTitle(s: string)
  {
    s != "" && Trimmed(s) && Utf16Length(s) <= TitleMaxLength
  }

  /** A description the schema accepts: optional, trimmed, at most 500 long. */
  predicate ValidDescription(d: Option<string>)
  {
    d.Some? ==> Trimmed(d.value) && Utf16Length(d.value) <= DescriptionMaxLength
  }

  /** Every stored task satisfies the schema. The priority enum and the required
      owner are carried by the types of `priority` and `user`. */
  predicate ValidTask(t: Task)
  {
    ValidTitle(t.title) && ValidDescription(t.description)
  }

  /** Casting a value to a String path: numbers and booleans are rendered,
      `null` clears the path (`None` inside `Ok`), an object whose `_id` is a
      non-empty string casts to that string, and every other array or object
      fails. */
  function CastString(v: Value): (r: Result<Option<string>>)
    ensures v.Str? ==> r == Ok(Some(v.s))
    ensures v.Num? ==> r == Ok(Some(IntToString(v.n)))
    ensures v.Bool? ==> r == Ok(Some(if v.b then "true" else "false"))
    ensures r == Ok(None) <==> v == Null
    ensures r.Err? <==> v.Composite? && (v.idField == None || v.idField == Some(""))
    ensures v.Composite? && r.Ok? ==> r == Ok(Some(v.idField.value))
  {
    match v
    case Str(s) => Ok(Some(s))
    case Num(n) => Ok(Some(IntToString(n)))
    case Bool(b) => Ok(Some(if b then "true" else "false"))
    case Null => Ok(None)
    case Composite(idField) =>
      if idField.Some? && idField.value != "" then Ok(Some(idField.value)) else Err(ValidationFailed)
  }

  /** Casting a value to a Boolean path, with Mongoose's sets of values that
      convert to true (`true`, "true", 1, "1", "yes") and to false (`false`,
      "false", 0, "0", "no"); anything else fails. */
  function CastBool(v: Value): (r: Result<Option<bool>>)
    ensures v.Bool? ==> r == Ok(Some(v.b))
    ensures r == Ok(None) <==> v == Null
  {
    match v
    case Bool(b) => Ok(Some(b))
    case Str(s) =>
      if s == "true" || s == "1" || s == "yes" then Ok(Some(true))
      else if s == "false" || s == "0" || s == "no" then Ok(Some(false))
      else Err(ValidationFailed)
    case Num(n) =>
      if n == 1 then Ok(Some(true)) else if n == 0 then Ok(Some(false)) else Err(ValidationFailed)
    case Null => Ok(None)
    case Composite(_) => Err(ValidationFailed)
  }

  /** The `title` path: cast, trimmed by the setter, then required and
      `maxlength: 100` checked on the trimmed value. */
  function SetTitle(v: Value): (r: Result<string>)
    ensures r.Ok? ==> ValidTitle(r.value)
    ensures v.Str? ==> (r.Ok? <==> Trim(v.s) != "" && Utf16Length(Trim(v.s)) <= TitleMaxLength)
    ensures v.Str? && r.Ok? ==> r.value == Trim(v.s)
    ensures v == Null ==> r.Err?
  {
    var cast :- CastString(v);
    match cast
    case None => Err(ValidationFailed)
    case Some(s) =>
      var t := Trim(s);
      if t == "" || Utf16Length(t) > TitleMaxLength then Err(ValidationFailed) else Ok(t)
  }

  /** The `description` path: cast, trimmed, `maxlength: 500`; `null` clears it. */
  function SetDescription(v: Value): (r: Result<Option<string>>)
    ensures r.Ok? ==> ValidDescription(r.value)
    ensures v.Str? ==> (r.Ok? <==> Utf16Length(Trim(v.s)) <= DescriptionMaxLength)
    ensures v.Str? && r.Ok? ==> r.value == Some(Trim(v.s))
    ensures v == Null ==> r == Ok(None)
  {
    var cast :- CastString(v);
    match cast
    case None => Ok(None)
    case Some(s) =>
      var t := Trim(s);
      if Utf16Length(t) > DescriptionMaxLength then Err(ValidationFailed) else Ok(Some(t))
  }

  /** The `completed` path: a Boolean. */
  function SetCompleted(v: Value): (r: Result<bool>)
    ensures v.Bool? ==> r == Ok(v.b)
    ensures v == Null ==> r.Err?
  {
    var cast :- CastBool(v);
    match cast
    case None => Err(ValidationFailed)
    case Some(b) => Ok(b)
  }

  /** The enum `["low", "medium", "high"]`. */
  function ParsePriority(s: string): (r: Option<Priority>)
    ensures r == Some(Low) <==> s == "low"
    ensures r == Some(Medium) <==> s == "medium"
    ensures r == Some(High) <==> s == "high"
  {
    if s == "low" then Some(Low)
    else if s == "medium" then Some(Medium)
    else if s == "high" then Some(High)
    else None
  }

  /** The `priority` path: a String that must be one of the enum's values. */
  function SetPriority(v: Value): (r: Result<Priority>)
    ensures r.Ok? ==> v.Str? || v.Composite?
    ensures v.Str? ==> (r.Ok? <==> v.s in {"low", "medium", "high"})
    ensures v.Str? && r.Ok? ==> ParsePriority(v.s) == Some(r.value)
    ensures v.Composite? ==> (r.Ok? <==> v.idField.Some? && v.idField.value in {"low", "medium", "high"})
    ensures v.Composite? && r.Ok? ==> ParsePriority(v.idField.value) == Some(r.value)
  {
    var cast :- CastString(v);
    match cast
    case None => Err(ValidationFailed)
    case Some(s) =>
      match ParsePriority(s)
      case None => Err(ValidationFailed)
      case Some(p) => Ok(p)
  }

  /** The `dueDate` path: kept as given; `null` clears it. */
  function SetDueDate(v: Value): (r: Option<Value>)
    ensures r == None <==> v == Null
    ensures r.Some? ==> r.value == v
  {
    if v == Null then None else Some(v)
  }

  /** The `user` path: a required reference; only a string id is accepted, and
      it is stored as the ObjectId it names. */
  function SetOwner(v: Value): (r: Result<Id>)
    ensures r.Ok? <==> v.Str?
    ensures r.Ok? ==> r.value == Canon(v.s) && Canonical(r.value)
  {
    match v
    case Str(s) => Ok(Canon(s))
    case _ => Err(ValidationFailed)
  }

  /** The document a new task starts from: the schema defaults
      (`completed: false`, `priority: "medium"`) and no optional paths. The
      required paths hold placeholders that creation always overwrites. */
  const Blank := Task("", None, false, Medium, None, "")

  /** `Task.create(doc)`: fail when a required path (`title`, `user`) is
      missing, otherwise set every path given on the defaults. */
  function NewTask(doc: Body): (r: Result<Task>)
    ensures r.Ok? ==> ValidTask(r.value)
    ensures "title" !in doc || "user" !in doc ==> r == Err(ValidationFailed)
    ensures r.Ok? <==> "title" in doc && "user" in doc && UpdateValid(doc)
    ensures r.Ok? ==> SetTitle(doc["title"]) == Ok(r.value.title)
    ensures r.Ok? ==> doc["user"].Str? && r.value.user == Canon(doc["user"].s)
    ensures r.Ok? && "completed" !in doc ==> !r.value.completed
    ensures r.Ok? && "priority" !in doc ==> r.value.priority == Medium
    ensures r.Ok? && "description" !in doc ==> r.value.description == None
    ensures r.Ok? && "dueDate" !in doc ==> r.value.dueDate == None
    ensures r.Ok? && "completed" in doc ==> SetCompleted(doc["completed"]) == Ok(r.value.completed)
    ensures r.Ok? && "priority" in doc ==> SetPriority(doc["priority"]) == Ok(r.value.priority)
    ensures r.Ok? && "description" in doc ==> SetDescription(doc["description"]) == Ok(r.value.description)
    ensures r.Ok? && "dueDate" in doc ==> SetDueDate(doc["dueDate"]) == r.value.dueDate
  {
    if "title" !in doc || "user" !in doc then Err(ValidationFailed)
    else ApplyUpdate(Blank, doc)
  }

  /** Every schema path a body sets casts and validates. This depends on the
      body only: update validators see the update, not the stored document. */
  predicate UpdateValid(body: Body)
  {
    && ("title" in body ==> SetTitle(body["title"]).Ok?)
    && ("description" in body ==> SetDescription(body["description"]).Ok?)
    && ("completed" in body ==> SetCompleted(body["completed"]).Ok?)
    && ("priority" in body ==> SetPriority(body["priority"]).Ok?)
    && ("user" in body ==> SetOwner(body["user"]).Ok?)
  }

  /** An update body applied to a stored task: each schema path present in the
      body is cast, set and validated; keys outside the schema are dropped. The
      `user` path is a schema path like any other, so an update body can change a
      task's owner. Mongoose reports every failing path at once; here any
      failure is the one `ValidationFailed`. */
  function ApplyUpdate(t: Task, body: Body): (r: Result<Task>)
    ensures ValidTask(t) && r.Ok? ==> ValidTask(r.value)
    ensures r.Ok? <==> UpdateValid(body)
    ensures r.Ok? && "title" !in body ==> r.value.title == t.title
    ensures r.Ok? && "description" !in body ==> r.value.description == t.description
    ensures r.Ok? && "completed" !in body ==> r.value.completed == t.completed
    ensures r.Ok? && "priority" !in body ==> r.value.priority == t.priority
    ensures r.Ok? && "dueDate" !in body ==> r.value.dueDate == t.dueDate
    ensures r.Ok? && "user" !in body ==> r.value.user == t.user
    ensures r.Ok? && "title" in body ==> SetTitle(body["title"]) == Ok(r.value.title)
    ensures r.Ok? && "description" in body ==> SetDescription(body["description"]) == Ok(r.value.description)
    ensures r.Ok? && "completed" in body ==> SetCompleted(body["completed"]) == Ok(r.value.completed)
    ensures r.Ok? && "priority" in body ==> SetPriority(body["priority"]) == Ok(r.value.priority)
    ensures r.Ok? && "dueDate" in body ==> SetDueDate(body["dueDate"]) == r.value.dueDate
    ensures r.Ok? && "user" in body ==> body["user"].Str? && r.value.user == Canon(body["user"].s)
    ensures (forall k :: k in body ==> k !in SchemaPaths) ==> r == Ok(t)
  {
    var title := if "title" in body then SetTitle(body["title"]) else Ok(t.title);
    var description := if "description" in body then SetDescription(body["description"]) else Ok(t.description);
    var completed := if "completed" in body then SetCompleted(body["completed"]) else Ok(t.completed);
    var priority := if "priority" in body then SetPriority(body["priority"]) else Ok(t.priority);
    var dueDate := if "dueDate" in body then SetDueDate(body["dueDate"]) else t.dueDate;
    var user := if "user" in body then SetOwner(body["user"]) else Ok(t.user);
    if title.Err? || description.Err? || completed.Err? || priority.Err? || user.Err? then
      Err(ValidationFailed)
    else
      Ok(Task(title.value, description.value, completed.value, priority.value, dueDate, user.value))
  }

  /** Applying the same update twice gives the same task as applying it once. */
  lemma ApplyUpdateIdempotent(t: Task, body: Body)
    requires UpdateValid(body)
    ensures ApplyUpdate(ApplyUpdate(t, body).value, body) == ApplyUpdate(t, body)
  {
  }

  /** The schema does not protect the owner: a body carrying `user` reassigns a
      valid task to another account. */
  lemma OwnerCanBeReassigned(t: Task, other: Id)
    requires ValidTask(t) && Canon(other) != t.user
    ensures ApplyUpdate(t, map["user" := Str(other)]) == Ok(t.(user := Canon(other)))
  {
  }
}
