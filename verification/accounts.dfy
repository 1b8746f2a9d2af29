/** Accounts as the account controllers see them. The account schema is not part
    of this model, so an account is the document's fields by name; an update
    with a plain field set overwrites those fields, and a soft delete sets
    `active` to false. */
module Accounts {
  import opened Common
  import opened FieldFilter

  type Account = map<string, Value>

  /** `findByIdAndUpdate(id, fields)` on one document: the given fields take the
      given values and every other field keeps its value. */
  function Merge(a: Account, fields: Body): (r: Account)
    ensures r.Keys == a.Keys + fields.Keys
    ensures forall k :: k in fields ==> r[k] == fields[k]
    ensures forall k :: k in a && k !in fields ==> r[k] == a[k]
  {
    a + fields
  }

  /** `findByIdAndUpdate(id, { active: false })` on the collection: the account
      `id`, if there is one, becomes inactive; every other account is untouched. */
  function Deactivate(accounts: map<Id, Account>, id: Id): (r: map<Id, Account>)
    ensures r.Keys == accounts.Keys
    ensures id in accounts ==> r[id] == accounts[id]["active" := Bool(false)]
    ensures forall other :: other in accounts && other != id ==> r[other] == accounts[other]
  {
    if id in accounts then accounts[id := accounts[id]["active" := Bool(false)]] else accounts
  }

  /** Deactivating an account twice is deactivating it once. */
  lemma DeactivateIdempotent(accounts: map<Id, Account>, id: Id)
    ensures Deactivate(Deactivate(accounts, id), id) == Deactivate(accounts, id)
  {
    if id in accounts {
      var once := accounts[id]["active" := Bool(false)];
      assert once["active" := Bool(false)] == once;
    }
  }

  /** An update filtered through an allow-list leaves every field outside the
      allow-list as it was: present with the same value, or absent. */
  lemma FilteredMergeKeepsOthers(a: Account, body: Body, allowed: seq<string>, k: string)
    requires k !in allowed
    ensures k in Merge(a, Project(body, allowed)) <==> k in a
    ensures k in a ==> Merge(a, Project(body, allowed))[k] == a[k]
  {
  }

  /** An update filtered through an allow-list sets exactly the allowed fields
      the body carries, to the body's values. */
  lemma FilteredMergeSetsAllowed(a: Account, body: Body, allowed: seq<string>, k: string)
    requires k in allowed && k in body
    ensures Merge(a, Project(body, allowed))[k] == body[k]
  {
  }
}
