# Todo-Management-API: request-decision logic in Dafny

This project models the request handlers of a task-management HTTP backend
(Express over Mongoose). Authenticated users create, list, read, update and
delete their own tasks. Administrators list, update and soft-delete accounts.
Users read, update and soft-delete their own account. The model covers the
decisions each handler makes:

- which error it answers with, and in which order the checks run;
- what it writes to the store, and that nothing else changes.

The stores are modelled as `Store.Collection` objects. Each holds a `map` from
document id to document, and the handlers reassign that map.

- Tasks are typed documents (`TaskModel.Task`). The schema in
  `models/task.model.js` is modelled as a validity predicate (`ValidTask`),
  per-path casting, setters and validators, a default-filling creation
  (`NewTask`), and the application of an update body (`ApplyUpdate`).
- Accounts are documents keyed by field name (`Accounts.Account`). The account
  schema is not part of this model.
- A handler's outcome is a `Result`: `Ok` with the response data, or `Err`.
  An `AppError` carries the message and HTTP status the handler passes to
  `next(...)`. `ValidationFailed` is a cast or validation error raised by the
  persistence layer.
- The caller identity (`req.user.id`) is a parameter. The authentication and
  role middleware in front of the routes are not part of this model.
- Ids are strings, and stores are keyed by the form an ObjectId renders: hex
  digits in lower case (`Common.Canonical`). Every query casts the ids it is
  given (`Common.Canon`), so a path id spelled with upper-case hex digits names
  the same document as its lower-case form.

Modules, one per file:

- `Common`: ids and their ObjectId cast, JSON values, JavaScript truthiness,
  results and errors.
- `FieldFilter`: the allow-list projection `filterAllowedFields`.
- `Text`: `trim`, UTF-16 length, number-to-string.
- `Pagination`: query defaulting, bounds, skip, page count, window.
- `Store`: the collection class and ordered listing.
- `TaskModel`: the task schema.
- `Accounts`: account updates and soft delete.
- `TaskController`, `AdminController`, `UserController`: the three controllers.

Properties proved:

- **The allow-list projection.** It keeps exactly the allowed keys of the
  body, with their values. It is idempotent. The key-by-key loop computes it.
- **Pagination.** Page and limit come from `parsed || default`. The bounds
  errors come in the source's order. `totalPages` is the exact integer ceiling
  of `total / limit`. A page is the slice of the ordered listing that starts
  at `skip` and holds at most `limit` items. For a non-empty
  collection listed in a complete order, a page past the admin listing's
  overflow check exists and is non-empty; with no accounts the check lets page
  1 through with no items and a page count of 0.
- **Task ownership scoping.** Get, update and delete act only on the task
  matching `(id, caller)`. Another user's task answers with the same error
  value as a missing one. Creation stamps the caller as owner whatever the body
  says. The listing shows only the caller's tasks. Other users' tasks cannot
  change what a caller's listing shows.
- **The task schema.** Every task the handlers store is valid: a trimmed,
  non-empty title of at most 100 UTF-16 units; a trimmed description of at
  most 500; a priority in the enum; an owner. `completed` defaults to false
  and `priority` to medium. Trimming is idempotent. Applying an update twice
  equals applying it once.
- **Account guards.** A self-update with a truthy `password` or
  `passwordConfirm` is refused whatever else it holds. A self-update can
  change only `name` and `email`. An admin update can change only `name`,
  `email`, `role` and `active`. The admin soft delete refuses a path id equal
  to the caller's id string, before any write (but see "## Findings"). Soft
  delete changes only the target's `active` field and is idempotent.

Behaviour one would not expect from the routes' purpose, which the model
reproduces as the code has it:

- **Task owner.** One would expect a task's owner to be fixed once the task is
  created. `updateTask` passes the raw request body as the update
  (`Downloads/todo-express-app/controllers/task.controller.js:97-101`), and
  `user` is a schema path. So a body carrying `user` reassigns the task.
  `TaskModel.OwnerCanBeReassigned` proves this.
- **Unfiltered task updates.** Only the account updates pass an allow-listed
  field set; a task update passes whatever the body holds.
- **Admins can lock themselves out.** `deleteUser` refuses the caller's own id,
  but `updateUser` lets `active` through its allow-list and has no caller check
  (`controllers/admin.controller.js:74-89`). A `PATCH` of the caller's own
  account with `{ active: false }` deactivates it.
  `AdminController.AdminCanDeactivateSelf` proves this.

## Model

| member | source | states |
|---|---|---|
| FieldFilter.Project | controllers/admin.controller.js:14-20 | the projection's keys are exactly the body's keys that are in the allow-list, each with its original value |
| FieldFilter.FilterAllowedFields | controllers/user.controller.js:9-15 | the key-by-key loop over the body's keys builds exactly the projection: a key is kept iff it is in the body and allowed, with its value unchanged |
| FieldFilter.ProjectIdempotent | controllers/admin.controller.js:14-20 | projecting twice with the same allow-list equals projecting once |
| FieldFilter.ProjectBlocksOtherKeys | controllers/user.controller.js:9-15 | no key outside the allow-list survives the projection, whatever the body holds |
| FieldFilter.ProjectEmptyIff | controllers/admin.controller.js:82-84 | the filtered body is empty exactly when the body holds none of the allowed keys |
| Text.TrimStart | models/task.model.js:8 | the result is a suffix of the input, what was dropped is all whitespace, and it does not start with whitespace |
| Text.TrimEnd | models/task.model.js:14 | the result is a prefix of the input, what was dropped is all whitespace, and it does not end with whitespace |
| Text.Trim | models/task.model.js:8 | `trim: true`: the result has no leading or trailing whitespace, is no longer than the input, and is empty exactly when the input is whitespace only |
| Text.TrimOfTrimmed | models/task.model.js:14 | trimming leaves a string without whitespace at either end unchanged |
| Text.TrimIdempotent | models/task.model.js:8 | trimming twice equals trimming once |
| Text.Utf16Length | models/task.model.js:9 | the length `maxlength` measures lies between the character count and twice it, and equals the character count for Basic Multilingual Plane text |
| Common.Canon | controllers/admin.controller.js:86 | the id a query looks up has the path id's length, no upper-case hex digit, each character the path id's with hex letters lowered, and an id already in that form is its own cast |
| Common.CanonIdempotent | controllers/admin.controller.js:116-117 | casting a cast id changes nothing |
| Text.IntToString | models/task.model.js:6 | a number cast to a String path is a minus sign exactly when negative followed by decimal digits, without a leading zero, whose value is the number's magnitude |
| Pagination.OrDefault | controllers/admin.controller.js:27-28 | an absent or NaN parse and 0 give the default; any other parsed value is kept |
| Pagination.ValidatePaging | controllers/admin.controller.js:27-36 | page or limit below 1 after defaulting gives 400 "Page and limit must be positive numbers"; otherwise a limit above 100 gives 400 "Limit cannot be greater than 100"; otherwise success with 1 <= page and 1 <= limit <= 100 |
| Pagination.Skip | controllers/admin.controller.js:38 | skip is 0 exactly on page 1, and skip plus limit is where page `page` ends |
| Pagination.TotalPages | controllers/admin.controller.js:56 | the page count is the least number of `limit`-sized pages holding `total` items, and is 0 exactly when total is 0 |
| Pagination.Window | controllers/admin.controller.js:41 | the window holds at most `limit` items, the items of the listing from position `skip` on, and is empty when skip is past the end |
| Pagination.PageWithinTotal | controllers/admin.controller.js:46-48 | skip is below the total exactly when the page number is at most the page count |
| Store.Listed | Downloads/todo-express-app/controllers/task.controller.js:51 | the ordered listing holds only documents of the collection and no more entries than the order lists |
| Store.ListedCount | controllers/admin.controller.js:41-42 | for an order without repetitions, the listing has one document per listed id that names a document |
| Store.ListedComplete | controllers/admin.controller.js:41-42 | when the order lists every document once, the listing has as many entries as the count of documents |
| TaskModel.CastString | models/task.model.js:5-16 | a string is kept, a number is its decimal rendering, a boolean "true"/"false", null clears the path, an object with a non-empty string `_id` casts to that string, and exactly the other arrays and objects fail |
| TaskModel.CastBool | models/task.model.js:18-21 | a boolean is kept and null clears the path |
| TaskModel.SetTitle | models/task.model.js:5-10 | an accepted title is the trimmed input, non-empty and at most 100 units long; a string is accepted exactly when its trimmed form is non-empty and within 100; null fails the required check |
| TaskModel.SetDescription | models/task.model.js:12-16 | an accepted description is the trimmed input, at most 500 units long; a string is accepted exactly when its trimmed form is within 500; null clears it |
| TaskModel.SetCompleted | models/task.model.js:18-21 | a boolean sets `completed` to that boolean |
| TaskModel.ParsePriority | models/task.model.js:25 | exactly "low", "medium" and "high" parse, each to its own priority |
| TaskModel.SetPriority | models/task.model.js:23-27 | a priority is accepted exactly when it casts to one of the three enum strings (a string, or an object whose `_id` is one), and it is the priority that string parses to |
| TaskModel.SetDueDate | models/task.model.js:29-31 | null clears the due date; any other value is kept |
| TaskModel.SetOwner | models/task.model.js:33-37 | the owner path accepts exactly a string id, and stores the id it names, in lower-case form |
| TaskModel.NewTask | models/task.model.js:3-42 | creation succeeds exactly when the title and owner are present and every schema path given casts and validates; a created task is valid; the title, owner, description, completed flag, priority and due date given are the values their paths set; `completed` defaults to false, `priority` to medium, description and due date to none |
| TaskModel.ApplyUpdate | Downloads/todo-express-app/controllers/task.controller.js:97-101 | an update keeps a valid task valid; it succeeds exactly when every schema path in the body validates; each path present takes its set value, including `user`; each path absent is unchanged; a body with no schema path leaves the task as it is |
| TaskModel.ApplyUpdateIdempotent | Downloads/todo-express-app/controllers/task.controller.js:97-101 | applying the same update twice equals applying it once |
| TaskModel.OwnerCanBeReassigned | Downloads/todo-express-app/controllers/task.controller.js:97-99 | a body `{ user: other }` moves a valid task to another owner |
| TaskController.OwnedBy | Downloads/todo-express-app/controllers/task.controller.js:51-52 | the caller's tasks are exactly the stored tasks whose owner is the caller's cast id, unchanged |
| TaskController.CreationDoc | Downloads/todo-express-app/controllers/task.controller.js:19-25 | the document handed to creation holds only the body's title, description, priority and due date, and the caller as owner |
| TaskController.CreateTask | Downloads/todo-express-app/controllers/task.controller.js:8-31 | a missing or empty body gives 400 and a falsy title gives 400, both without a write; a created task is valid, owned by the caller whatever the body says, not completed, and is the only addition to the store; store validity is preserved |
| TaskController.GetMyTasks | Downloads/todo-express-app/controllers/task.controller.js:36-66 | the same defaulting and bounds errors as the admin listing, and success exactly when paging is valid; the total counts only the caller's tasks; the page count is its ceiling; the tasks returned are the caller's ordered tasks from position `skip` on, `limit` of them or fewer at the end, each a stored task owned by the caller |
| TaskController.GetMyTasksPageSize | Downloads/todo-express-app/controllers/task.controller.js:48-57 | with a complete order, a page holds `limit` tasks, fewer on the last page, none past it |
| TaskController.GetMyTasksIsolated | Downloads/todo-express-app/controllers/task.controller.js:51-52 | adding, replacing or removing another user's task does not change the caller's listing |
| TaskController.GetTask | Downloads/todo-express-app/controllers/task.controller.js:71-87 | an id that does not cast fails with a cast error; otherwise success exactly when the task the id names exists and the caller owns it, returning that task; otherwise 404 "No task found with that ID" |
| TaskController.GetTaskHidesForeignTasks | Downloads/todo-express-app/controllers/task.controller.js:72-79 | another user's task answers exactly as if it did not exist |
| TaskController.UpdateTask | Downloads/todo-express-app/controllers/task.controller.js:92-111 | an empty body gives 400, an id that does not cast or an invalid body a cast or validation error, a missing or foreign task 404, all without a write; otherwise only the `(id, caller)` task is replaced by the updated one; store validity is preserved |
| TaskController.DeleteTask | Downloads/todo-express-app/controllers/task.controller.js:116-130 | an id that does not cast fails with a cast error; otherwise success exactly when the caller owns the task the id names, which alone is removed; otherwise 404; a failure leaves the store unchanged |
| Accounts.Merge | controllers/admin.controller.js:86-89 | the update's fields take the given values and every other field keeps its value |
| Accounts.Deactivate | controllers/admin.controller.js:116-120 | only the target's `active` becomes false; the set of accounts and every other account are unchanged |
| Accounts.DeactivateIdempotent | controllers/user.controller.js:80-82 | soft-deleting twice equals soft-deleting once |
| Accounts.FilteredMergeKeepsOthers | controllers/admin.controller.js:74-89 | a field outside the allow-list is neither added, removed nor changed by a filtered update |
| Accounts.FilteredMergeSetsAllowed | controllers/admin.controller.js:74-89 | an allowed field the body carries takes the body's value |
| AdminController.GetAllUsers | controllers/admin.controller.js:26-63 | the bounds errors of the pagination checks; a skip at or past a non-zero total gives 404 "This page does not exist"; otherwise the total is the account count, the page count its ceiling (0 for no accounts), and the accounts returned are the ordered accounts from position `skip` on, `limit` of them or fewer at the end |
| AdminController.GetAllUsersPageExists | controllers/admin.controller.js:46-61 | for a non-empty collection listed in a complete order, past the overflow check the page number is at most the page count and the page holds `limit` accounts, fewer only on the last page, never none |
| AdminController.UpdateUser | controllers/admin.controller.js:69-101 | an invalid id gives 400, a body without name/email/role/active gives 400, a missing account 404, all without a write; otherwise only the account the id names (in any hex case) changes, by the filtered fields |
| AdminController.AdminCanDeactivateSelf | controllers/admin.controller.js:74-89 | a body `{ active: false }` passes the admin allow-list and the update deactivates the caller's own account |
| AdminController.DeleteUser | controllers/admin.controller.js:107-130 | an invalid id gives 400, then a path id equal to the caller's id string gives 400 before any write, then a missing account 404; otherwise only the `active` field of the account the id names becomes false |
| AdminController.SelfDeleteGuardBypassed | controllers/admin.controller.js:112-120 | the caller's id with a hex letter in upper case differs from the caller's id string yet names the caller's account, which the soft delete then deactivates |
| AdminController.DeleteUserCastGuard | controllers/admin.controller.js:107-130 | as DeleteUser, with the self-delete refusal on every spelling of the caller's id; the caller's account is never changed |
| UserController.GetMe | controllers/user.controller.js:21-34 | the account the caller's id names when it exists; otherwise 404 "User not found" |
| UserController.UpdateMe | controllers/user.controller.js:43-73 | a truthy `password` or `passwordConfirm` gives 400 whatever else the body holds, then a body without name/email gives 400, both without a write; otherwise only the caller's account changes, by the filtered fields, and a missing account yields no account and no write |
| UserController.SelfUpdateCannotEscalate | controllers/user.controller.js:55-65 | a self-update leaves `role`, `active` and every field other than name and email as they were |
| UserController.DeleteMe | controllers/user.controller.js:79-88 | the caller's account becomes inactive and nothing else changes |

## Left out

- Authentication and role checks (`protect`, `restrictTo`, token verification, the deactivated-account check): their source is not part of this model. The caller's id is a parameter, and admin handlers assume the role check passed.
- Route wiring, CORS/JSON/cookie middleware, the database connection and the process-level error handlers: plumbing with no decision logic.
- `mongoose.Types.ObjectId.isValid`, and whether a task path id casts to an ObjectId, are library behaviour; the outcome is the parameter `idIsValid`. A task id that does not cast fails as a `ValidationFailed`, the model's single persistence-layer error.
- Common.Canon: it lowers the hex letters of an id, which is the ObjectId cast of a 24-digit hex string. Library versions that also accept any 12-character string as an ObjectId, read as 12 raw bytes, are not modelled.
- The task handlers import the schema as `../models/taskModel` (`Downloads/todo-express-app/controllers/task.controller.js:1`); that file is not part of this model. It is assumed to be the schema of `models/task.model.js`.
- Text.IntToString: it renders every integer in positional notation. JavaScript's `String(n)` switches to exponent form from 1e21 up (for example "1e+100"), so the length such a title is checked against differs. Numbers are integers here, and floating-point rendering is not modelled.
- The account schema (`models/user.model.js`) is not part of this model. Account fields are stored as submitted, without casting or validation. `find` and `findById` are assumed to return every account, with no query hook that hides deactivated ones.
- The global error handler is not part of this model, so the HTTP status of `ValidationFailed` is not modelled. Mongoose reports every failing path at once; the model reports one `ValidationFailed`.
- Sort order and timestamps: the `sort("-createdAt")` order is the parameter `order`, and `createdAt`/`updatedAt` are not stored.
- The id Mongoose assigns to a new task is the parameter `newId`, required not to be in use and to be in the lower-case form stored ids have.
- The `Promise.all` over the listing query and the count runs as one sequential step. Atomicity of single-document updates is assumed.
- The response envelope (`status`, `data`, `results`) is not modelled; `results` is the length of `Listing.items`.
- `parseInt` on query strings: its outcome is an `Option<int>` (`None` for NaN). JavaScript numbers are unbounded integers here, so precision loss beyond 2^53 and fractional numbers are not modelled.
- `dueDate` is not cast to a `Date`; the submitted value is stored as is.
- Mongoose update operators (`$set`, `$unset`, ...) and `_id` or timestamp keys in an update body are not modelled; only the six schema paths of the task apply, and other keys are dropped.
- TaskModel.SetCompleted: JSON `null` for `completed` is refused as a validation failure, where Mongoose would store null. This keeps the stored task typed.
- TaskModel.SetPriority: JSON `null` for `priority` is refused as a validation failure, where Mongoose would store null. This keeps the stored task typed.
- TaskModel.SetOwner: any string is accepted as an owner id; the ObjectId format of the owner reference is not checked, and an object carrying an `_id` is refused where Mongoose casts it.
- UserController.UpdateMe and AdminController.UpdateUser: a request without a body, where `Object.keys` throws, is not modelled. The body is always an object.

## Findings

| source | as written | input that shows it | evidently intended | confidence | as-written member | corrected member |
|---|---|---|---|---|---|---|
| controllers/admin.controller.js:112 | the self-delete guard compares the path id string with the caller's id string | `DELETE /admin/users/<caller's id with its hex letters a-f in upper case>`: the id is valid, the strings differ, and `findByIdAndUpdate` casts it to the caller's ObjectId and deactivates the caller | refuse every spelling of the caller's id, by comparing the ids the strings name | medium, not executed | AdminController.DeleteUser, with AdminController.SelfDeleteGuardBypassed | AdminController.DeleteUserCastGuard |
