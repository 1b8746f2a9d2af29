/** The admin handlers over the account collection: the paginated listing,
    updates restricted to `name`, `email`, `role` and `active`, and the soft
    delete that refuses to deactivate the calling admin. The caller has passed
    the authentication and `admin` role checks in front of these routes;
    `caller` is its id. Whether a path id is a well-formed ObjectId
    (`mongoose.Types.ObjectId.isValid`) is given as `idIsValid`; a well-formed id
    names the account stored under `Canon(id)`. */
module AdminController {
  import opened Common
  import opened FieldFilter
  import opened Pagination
  import opened Store
  import opened Accounts

  const InvalidUserId := AppError("Invalid user ID", 400)
  const NoValidFields := AppError("No valid fields to update", 400)
  const UserNotFound := AppError("No user found with that ID", 404)
  const SelfDelete := AppError("You cannot delete your own admin account.", 400)
  const PageMissing := AppError("This page does not exist", 404)

  /** The fields an admin may set on any account. */
  const AdminFields := ["name", "email", "role", "active"]

  /** GET /admin/users: one page of all accounts, refusing a page past the last
      one unless the collection is empty. */
  function GetAllUsers(accounts: map<Id, Account>, order: seq<Id>,
                       pageArg: Option<int>, limitArg: Option<int>): (r: Result<Listing<Account>>)
    ensures ValidatePaging(pageArg, limitArg).Err? ==> r == Err(ValidatePaging(pageArg, limitArg).error)
    ensures ValidatePaging(pageArg, limitArg).Ok? ==>
      var p := ValidatePaging(pageArg, limitArg).value;
      && (Skip(p) >= |accounts| && |accounts| != 0 ==> r == Err(PageMissing))
      && (Skip(p) < |accounts| || |accounts| == 0 ==> r.Ok?)
    ensures r.Ok? ==>
      var p := ValidatePaging(pageArg, limitArg).value;
      && r.value.currentPage == p.page && r.value.limit == p.limit
      && r.value.total == |accounts|
      && r.value.totalPages == TotalPages(|accounts|, p.limit)
      && (|accounts| == 0 ==> r.value.totalPages == 0)
      && |r.value.items| <= p.limit
      && (forall i :: 0 <= i < |r.value.items| ==> r.value.items[i] in accounts.Values)
    ensures r.Ok? ==>
      var p, listed := ValidatePaging(pageArg, limitArg).value, Listed(accounts, order);
      && |r.value.items| == (if Skip(p) >= |listed| then 0 else if Skip(p) + p.limit <= |listed| then p.limit else |listed| - Skip(p))
      && forall i :: 0 <= i < |r.value.items| ==> Skip(p) + i < |listed| && r.value.items[i] == listed[Skip(p) + i]
  {
    var p :- ValidatePaging(pageArg, limitArg);
    var skip := Skip(p);
    var users := Window(Listed(accounts, order), skip, p.limit);
    var total := |accounts|;
    if skip >= total && total != 0 then Err(PageMissing)
    else Ok(Listing(users, total, p.page, TotalPages(total, p.limit), p.limit))
  }

  /** A listing that passes the overflow check is on an existing page: its page
      number is at most the page count, and, when the order lists every account
      once, it holds `limit` accounts, fewer only on the last page. */
  lemma GetAllUsersPageExists(accounts: map<Id, Account>, order: seq<Id>,
                              pageArg: Option<int>, limitArg: Option<int>)
    requires Distinct(order) && forall id :: id in accounts ==> id in order
    requires GetAllUsers(accounts, order, pageArg, limitArg).Ok?
    requires |accounts| > 0
    ensures var l := GetAllUsers(accounts, order, pageArg, limitArg).value;
      && 1 <= l.currentPage <= l.totalPages
      && 1 <= |l.items|
      && |l.items| == if l.currentPage < l.totalPages then l.limit else |accounts| - (l.currentPage - 1) * l.limit
  {
    var p := ValidatePaging(pageArg, limitArg).value;
    PageWithinTotal(p, |accounts|);
    ListedComplete(accounts, order);
    var n := TotalPages(|accounts|, p.limit);
    if p.page < n {
      MulMonotone(p.page, n - 1, p.limit);
    }
  }

  /** PATCH /admin/users/:id. The id is checked, the body is filtered to the
      admin fields and must keep at least one, and only the target account is
      written. There is no check against the caller's own id. */
  method UpdateUser(users: Collection<Account>, id: Id, idIsValid: bool, body: Body)
    returns (r: Result<Account>)
    modifies users
    ensures !idIsValid ==> r == Err(InvalidUserId)
    ensures idIsValid && Project(body, AdminFields) == map[] ==> r == Err(NoValidFields)
    ensures idIsValid && Project(body, AdminFields) != map[] && Canon(id) !in old(users.docs) ==> r == Err(UserNotFound)
    ensures r.Ok? <==> idIsValid && Project(body, AdminFields) != map[] && Canon(id) in old(users.docs)
    ensures r.Ok? ==> r.value == Merge(old(users.docs)[Canon(id)], Project(body, AdminFields))
    ensures r.Ok? ==> users.docs == old(users.docs)[Canon(id) := r.value]
    ensures r.Err? ==> users.docs == old(users.docs)
  {
    if !idIsValid {
      return Err(InvalidUserId);
    }
    var filtered := FilterAllowedFields(body, AdminFields);
    if filtered == map[] {
      return Err(NoValidFields);
    }
    if Canon(id) !in users.docs {
      return Err(UserNotFound);
    }
    var updated := Merge(users.docs[Canon(id)], filtered);
    users.docs := users.docs[Canon(id) := updated];
    r := Ok(updated);
  }

  /** An admin can lock their own account through PATCH: a body setting
      `active` to false passes the allow-list, and the merge deactivates the
      caller's account exactly as a soft delete would. */
  lemma AdminCanDeactivateSelf(accounts: map<Id, Account>, caller: Id)
    requires Canon(caller) in accounts
    ensures var fields := Project(map["active" := Bool(false)], AdminFields);
      && fields != map[]
      && Merge(accounts[Canon(caller)], fields) == accounts[Canon(caller)]["active" := Bool(false)]
  {
    var fields := Project(map["active" := Bool(false)], AdminFields);
    assert "active" in fields;
  }

  /** DELETE /admin/users/:id, as written. The id is checked, a path id equal to
      the caller's id as a string is refused before any write, and otherwise the
      account the id names is soft-deleted. */
  method DeleteUser(users: Collection<Account>, id: Id, idIsValid: bool, caller: Id)
    returns (r: Result<Account>)
    modifies users
    ensures !idIsValid ==> r == Err(InvalidUserId)
    ensures idIsValid && id == caller ==> r == Err(SelfDelete)
    ensures idIsValid && id != caller && Canon(id) !in old(users.docs) ==> r == Err(UserNotFound)
    ensures r.Ok? <==> idIsValid && id != caller && Canon(id) in old(users.docs)
    ensures r.Ok? ==> r.value == old(users.docs)[Canon(id)]["active" := Bool(false)]
    ensures r.Ok? ==> users.docs == Deactivate(old(users.docs), Canon(id))
    ensures r.Err? ==> users.docs == old(users.docs)
  {
    if !idIsValid {
      return Err(InvalidUserId);
    }
    if id == caller {
      return Err(SelfDelete);
    }
    if Canon(id) !in users.docs {
      return Err(UserNotFound);
    }
    users.docs := Deactivate(users.docs, Canon(id));
    r := Ok(users.docs[Canon(id)]);
  }

  /** The self-delete guard compares strings, not the ids they name: the
      caller's id with its hex letters in upper case is a different string, so
      it passes the guard, yet it names the caller's account, which `DeleteUser`
      then deactivates. */
  lemma SelfDeleteGuardBypassed(accounts: map<Id, Account>, caller: Id, i: nat)
    requires Canonical(caller) && caller in accounts
    requires i < |caller| && 'a' <= caller[i] <= 'f'
    ensures UpperHex(caller) != caller
    ensures Canon(UpperHex(caller)) == caller
    ensures Deactivate(accounts, Canon(UpperHex(caller)))[caller] == accounts[caller]["active" := Bool(false)]
  {
    assert UpperHex(caller)[i] != caller[i];
  }

  /** DELETE /admin/users/:id with the self-delete guard comparing the ids the
      strings name. Otherwise as `DeleteUser`; the caller's own account is never
      changed, whatever spelling of its id the path carries. */
  method DeleteUserCastGuard(users: Collection<Account>, id: Id, idIsValid: bool, caller: Id)
    returns (r: Result<Account>)
    modifies users
    ensures !idIsValid ==> r == Err(InvalidUserId)
    ensures idIsValid && Canon(id) == Canon(caller) ==> r == Err(SelfDelete)
    ensures idIsValid && Canon(id) != Canon(caller) && Canon(id) !in old(users.docs) ==> r == Err(UserNotFound)
    ensures r.Ok? <==> idIsValid && Canon(id) != Canon(caller) && Canon(id) in old(users.docs)
    ensures r.Ok? ==> r.value == old(users.docs)[Canon(id)]["active" := Bool(false)]
    ensures r.Ok? ==> users.docs == Deactivate(old(users.docs), Canon(id))
    ensures r.Err? ==> users.docs == old(users.docs)
    ensures Canon(caller) in old(users.docs) ==>
      Canon(caller) in users.docs && users.docs[Canon(caller)] == old(users.docs)[Canon(caller)]
  {
    if !idIsValid {
      return Err(InvalidUserId);
    }
    if Canon(id) == Canon(caller) {
      return Err(SelfDelete);
    }
    if Canon(id) !in users.docs {
      return Err(UserNotFound);
    }
    users.docs := Deactivate(users.docs, Canon(id));
    r := Ok(users.docs[Canon(id)]);
  }
}
