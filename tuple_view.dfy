/** `trading_bots::details::tuple_view`: the narrowed view of a storage (a tuple with
    pairwise distinct element kinds) onto a requested list of kinds. The view is given as
    the storage positions it refers to; `Project` reads the elements at those positions. */
module TupleView {
  import opened Outcomes
  import opened Mp

  /** The position of `kind` in `storage` (its first one, the only one in a storage). */
  function PositionOf<T(==)>(storage: seq<T>, kind: T): (i: nat)
    requires kind in storage
    ensures i < |storage| && storage[i] == kind && kind !in storage[..i]
  {
    if storage[0] == kind then 0
    else
      var i := 1 + PositionOf(storage[1..], kind);
      assert storage[..i] == [storage[0]] + storage[1..][..i - 1];
      i
  }

  predicate AllPresent<T(==)>(storage: seq<T>, requested: seq<T>) {
    forall k :: k in requested ==> k in storage
  }

  /** `make_tuple_view<components_ts...>(storage)`. Each condition the source checks at
      compile time is an error here, in the order the compiler meets them: the storage must
      be a `StorageType` (distinct kinds), each `std::get<component>(storage)` must name a
      present kind, and the view type requires distinct requested kinds. */
  function MakeTupleView<T(==)>(storage: seq<T>, requested: seq<T>): (r: Result<seq<nat>>)
    ensures r.Ok? <==> AreUniqueTtps(storage) && AllPresent(storage, requested) && AreUniqueTtps(requested)
    ensures r.Err? ==> (r.error == MissingKind <==> AreUniqueTtps(storage) && !AllPresent(storage, requested))
    ensures r.Err? ==> r.error in {MissingKind, DuplicateKinds}
    ensures r.Ok? ==> |r.value| == |requested|
    ensures r.Ok? ==> forall i :: 0 <= i < |requested| ==> r.value[i] < |storage| && storage[r.value[i]] == requested[i]
    ensures r.Ok? ==> forall i, j :: 0 <= i < |requested| && 0 <= j < |storage| && storage[j] == requested[i] ==> j == r.value[i]
    ensures r.Ok? ==> AreUniqueTtps(r.value)
  {
    if !AreUniqueTtps(storage) then Err(DuplicateKinds)
    else if !AllPresent(storage, requested) then Err(MissingKind)
    else if !AreUniqueTtps(requested) then Err(DuplicateKinds)
    else
      var view: seq<nat> := seq(|requested|, i requires 0 <= i < |requested| => PositionOf(storage, requested[i]));
      AreUniqueTtpsIsPairwiseDistinct(storage);
      AreUniqueTtpsIsPairwiseDistinct(requested);
      assert PairwiseDistinct<nat>(view) by {
        forall i, j | 0 <= i < j < |view| ensures view[i] != view[j] {
          assert storage[view[i]] == requested[i] && storage[view[j]] == requested[j];
          assert requested[i] != requested[j];
        }
      }
      AreUniqueTtpsIsPairwiseDistinct<nat>(view);
      Ok(view)
  }

  /** The elements a view refers to, in the view's order. */
  function Project<E>(storage: seq<E>, view: seq<nat>): (r: seq<E>)
    requires forall i :: 0 <= i < |view| ==> view[i] < |storage|
    ensures |r| == |view| && forall i :: 0 <= i < |view| ==> r[i] == storage[view[i]]
  {
    seq(|view|, i requires 0 <= i < |view| => storage[view[i]])
  }

  /** A view exposes exactly the requested kinds, in the requested order: reading the kinds
      of the projected elements gives back the request. */
  lemma ProjectionHasRequestedKinds<T>(storage: seq<T>, requested: seq<T>)
    requires MakeTupleView(storage, requested).Ok?
    ensures Project(storage, MakeTupleView(storage, requested).value) == requested
  {
  }

  /** An empty request, such as `long_term`'s `std::tuple<>`, yields the empty view of any
      storage. */
  lemma EmptyRequestGivesEmptyView<T>(storage: seq<T>)
    requires AreUniqueTtps(storage)
    ensures MakeTupleView(storage, []) == Ok([])
  {
  }
}
