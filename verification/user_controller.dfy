/** The self-service account handlers: read, update and soft-delete the caller's
    own account. `caller` is `req.user.id`, set by the authentication middleware
    in front of these routes; `findById(caller)` finds the account stored under
    `Canon(caller)`. */
module UserController {
  import opened Common
  import opened FieldFilter
  import opened Store
  import opened Accounts

  const UserNotFound := AppError("User not found", 404)
  const PasswordRoute := AppError("This route is not for password updates. Please use /updatePassword.", 400)
  const NoValidFields := AppError("No valid fields to update", 400)

  /** The fields a user may set on their own account. */
  const SelfFields := ["name", "email"]

  /** GET /users/me. */
  function GetMe(accounts: map<Id, Account>, caller: Id): (r: Result<Account>)
    ensures r.Ok? <==> Canon(caller) in accounts
    ensures r.Ok? ==> r.value == accounts[Canon(caller)]
    ensures r.Err? ==> r == Err(UserNotFound)
  {
    if Canon(caller) in accounts then Ok(accounts[Canon(caller)]) else Err(UserNotFound)
  }

  /** The body asks for a password change (`password` or `passwordConfirm` is truthy). */
  predicate AsksPasswordChange(body: Body)
  {
    TruthyField(body, "password") || TruthyField(body, "passwordConfirm")
  }

  /** PATCH /users/updateMe. A password change is refused whatever else the body
      holds, the body is filtered to `name` and `email` and must keep one of
      them, and only the caller's account is written. When the caller's account
      no longer exists the update finds nothing and answers with no account. */
  method UpdateMe(users: Collection<Account>, caller: Id, body: Body)
    returns (r: Result<Option<Account>>)
    modifies users
    ensures AsksPasswordChange(body) ==> r == Err(PasswordRoute)
    ensures !AsksPasswordChange(body) && Project(body, SelfFields) == map[] ==> r == Err(NoValidFields)
    ensures r.Ok? <==> !AsksPasswordChange(body) && Project(body, SelfFields) != map[]
    ensures r.Ok? && Canon(caller) in old(users.docs) ==>
      && r.value == Some(Merge(old(users.docs)[Canon(caller)], Project(body, SelfFields)))
      && users.docs == old(users.docs)[Canon(caller) := r.value.value]
    ensures r.Ok? && Canon(caller) !in old(users.docs) ==> r.value == None && users.docs == old(users.docs)
    ensures r.Err? ==> users.docs == old(users.docs)
  {
    if AsksPasswordChange(body) {
      return Err(PasswordRoute);
    }
    var filtered := FilterAllowedFields(body, SelfFields);
    if filtered == map[] {
      return Err(NoValidFields);
    }
    if Canon(caller) in users.docs {
      var updated := Merge(users.docs[Canon(caller)], filtered);
      users.docs := users.docs[Canon(caller) := updated];
      r := Ok(Some(updated));
    } else {
      r := Ok(None);
    }
  }

  /** A self-update cannot touch `role`, `active` or any field other than `name`
      and `email`, whatever the body submits. */
  lemma SelfUpdateCannotEscalate(a: Account, body: Body, k: string)
    requires k != "name" && k != "email"
    ensures k in Merge(a, Project(body, SelfFields)) <==> k in a
    ensures k in a ==> Merge(a, Project(body, SelfFields))[k] == a[k]
  {
  }

  /** DELETE /users/deleteMe: the caller's account becomes inactive; nothing
      else changes. */
  method DeleteMe(users: Collection<Account>, caller: Id)
    modifies users
    ensures users.docs == Deactivate(old(users.docs), Canon(caller))
  {
    users.docs := Deactivate(users.docs, Canon(caller));
  }
}
