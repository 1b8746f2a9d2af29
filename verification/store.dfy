/** The persistence collaborator: a collection of documents keyed by id, as a
    Mongoose model's collection. Handlers read and reassign `docs`. The order a
    query returns documents in (`sort("-createdAt")`) is given as a sequence of
    ids. */
module Store {
  import opened Common

  class Collection<T> {
    var docs: map<Id, T>

    constructor (initial: map<Id, T>)
      ensures docs == initial
    {
      docs := initial;
    }
  }

  /** The documents of `docs`, in the order `order` lists their ids; ids that
      name no document are passed over. */
  function Listed<T(==)>(docs: map<Id, T>, order: seq<Id>): (r: seq<T>)
    ensures |r| <= |order|
    ensures forall i :: 0 <= i < |r| ==> r[i] in docs.Values
  {
    if order == [] then []
    else (if order[0] in docs then [docs[order[0]]] else []) + Listed(docs, order[1..])
  }

  /** `order` lists ids without repetition. */
  predicate Distinct(order: seq<Id>)
  {
    forall i, j :: 0 <= i < j < |order| ==> order[i] != order[j]
  }

  /** Listing a collection in an order without repetitions yields one document
      per listed id that names a document. */
  lemma {:induction false} ListedCount<T>(docs: map<Id, T>, order: seq<Id>)
    requires Distinct(order)
    ensures |Listed(docs, order)| == |docs.Keys * set i | i in order|
  {
    if order != [] {
      var rest := order[1..];
      ListedCount(docs, rest);
      var x := order[0];
      var s := docs.Keys * set i | i in order;
      var s' := docs.Keys * set i | i in rest;
      assert x !in s' by {
        forall j | 0 <= j < |rest|
          ensures rest[j] != x
        {
          assert order[j + 1] == rest[j];
        }
      }
      if x in docs {
        assert s == s' + {x};
      } else {
        assert s == s';
      }
    }
  }

  /** When the order lists every id of the collection once, the listing holds
      the whole collection. */
  lemma ListedComplete<T>(docs: map<Id, T>, order: seq<Id>)
    requires Distinct(order)
    requires forall id :: id in docs ==> id in order
    ensures |Listed(docs, order)| == |docs|
  {
    ListedCount(docs, order);
    assert docs.Keys * (set i | i in order) == docs.Keys;
  }
}
