/** The allow-list projection `filterAllowedFields(obj, ...allowedFields)` that
    both account controllers apply to a request body before it reaches the store. */
module FieldFilter {
  import opened Common

  /** The keys of an allow-list, as a set. */
  function AllowedSet(allowed: seq<string>): (s: set<string>)
    ensures forall k :: k in s <==> k in allowed
  {
    set k | k in allowed
  }

  /** The projection of `obj` onto `allowed`: exactly the keys of `obj` that are
      allowed, each with its original value. */
  function Project(obj: Body, allowed: seq<string>): (r: Body)
    ensures r.Keys == obj.Keys * AllowedSet(allowed)
    ensures forall k :: k in r ==> r[k] == obj[k]
  {
    map k | k in obj && k in allowed :: obj[k]
  }

  /** Builds the projection key by key, as the `forEach` over `Object.keys(obj)` does. */
  method FilterAllowedFields(obj: Body, allowed: seq<string>) returns (r: Body)
    ensures r == Project(obj, allowed)
    ensures forall k :: k in r <==> k in obj && k in allowed
    ensures forall k :: k in r ==> r[k] == obj[k]
  {
    r := map[];
    var pending := obj.Keys;
    while pending != {}
      invariant pending <= obj.Keys
      invariant forall k :: k in r <==> k in obj && k !in pending && k in allowed
      invariant forall k :: k in r ==> r[k] == obj[k]
      decreases pending
    {
      var key :| key in pending;
      if key in allowed {
        r := r[key := obj[key]];
      }
      pending := pending - {key};
    }
  }

  /** Projecting twice onto the same allow-list is projecting once. */
  lemma ProjectIdempotent(obj: Body, allowed: seq<string>)
    ensures Project(Project(obj, allowed), allowed) == Project(obj, allowed)
  {
  }

  /** A projection never introduces keys outside the allow-list, so nothing else
      reaches an update however the body is built. */
  lemma ProjectBlocksOtherKeys(obj: Body, allowed: seq<string>, key: string)
    requires key !in allowed
    ensures key !in Project(obj, allowed)
  {
  }

  /** The projection is empty exactly when the body holds no allowed key. */
  lemma ProjectEmptyIff(obj: Body, allowed: seq<string>)
    ensures Project(obj, allowed) == map[] <==> forall k :: k in allowed ==> k !in obj
  {
  }
}
