/** `trading_bots::details::mp`: compile-time uniqueness tests over template parameter
    packs, modelled as predicates over sequences of values (a type parameter pack is a
    sequence of kinds, a non-type parameter pack a sequence of values). */
module Mp {
  import opened Outcomes

  /** `are_unique_ttps<Ts...>`: the empty pack is unique; `first, rest...` is unique when
      `first` is none of `rest` (the fold of `is_same`) and `rest` is unique. */
  predicate AreUniqueTtps<T(==)>(pack: seq<T>)
    ensures |pack| <= 1 ==> AreUniqueTtps(pack)
    ensures |pack| == 2 ==> (AreUniqueTtps(pack) <==> pack[0] != pack[1])
  {
    pack == [] || (pack[0] !in pack[1..] && AreUniqueTtps(pack[1..]))
  }

  ghost predicate PairwiseDistinct<T>(s: seq<T>) {
    forall i, j :: 0 <= i < j < |s| ==> s[i] != s[j]
  }

  /** The recursion is pairwise distinctness. */
  lemma {:induction false} AreUniqueTtpsIsPairwiseDistinct<T>(pack: seq<T>)
    ensures AreUniqueTtps(pack) <==> PairwiseDistinct(pack)
  {
    if pack != [] {
      var rest := pack[1..];
      AreUniqueTtpsIsPairwiseDistinct(rest);
      if PairwiseDistinct(pack) {
        assert PairwiseDistinct(rest) by {
          forall i, j | 0 <= i < j < |rest| ensures rest[i] != rest[j] {
            assert rest[i] == pack[i + 1] && rest[j] == pack[j + 1];
          }
        }
        assert pack[0] !in rest by {
          forall j | 0 <= j < |rest| ensures rest[j] != pack[0] {
            assert rest[j] == pack[j + 1];
          }
        }
      }
      if AreUniqueTtps(pack) {
        forall i, j | 0 <= i < j < |pack| ensures pack[i] != pack[j] {
          assert pack[j] == rest[j - 1];
          if i > 0 {
            assert pack[i] == rest[i - 1];
          }
        }
      }
    }
  }

  /** Uniqueness of `first, rest...` implies uniqueness of `rest`, and of any sub-pack. */
  lemma UniqueSlice<T>(pack: seq<T>, lo: nat, hi: nat)
    requires AreUniqueTtps(pack) && lo <= hi <= |pack|
    ensures AreUniqueTtps(pack[lo..hi])
  {
    AreUniqueTtpsIsPairwiseDistinct(pack);
    var sub := pack[lo..hi];
    forall i, j | 0 <= i < j < |sub| ensures sub[i] != sub[j] {
      assert sub[i] == pack[lo + i] && sub[j] == pack[lo + j];
    }
    AreUniqueTtpsIsPairwiseDistinct(sub);
  }

  /** `are_unique_nttps<first, values...>`: the primary template needs one value at least;
      a single value is unique; otherwise the same recursion. */
  predicate AreUniqueNttps<T(==)>(values: seq<T>)
    requires |values| >= 1
    ensures |values| == 1 ==> AreUniqueNttps(values)
    ensures |values| == 2 ==> (AreUniqueNttps(values) <==> values[0] != values[1])
  {
    |values| == 1 || (values[0] !in values[1..] && AreUniqueNttps(values[1..]))
  }

  /** On the packs where both are defined, the two tests agree. */
  lemma {:induction false} NttpsAgreeWithTtps<T>(values: seq<T>)
    requires |values| >= 1
    ensures AreUniqueNttps(values) == AreUniqueTtps(values)
  {
    if |values| > 1 {
      NttpsAgreeWithTtps(values[1..]);
    } else {
      assert values[1..] == [];
    }
  }

  /** The type a `unique_ttps`/`unique_nttps` query is applied to: a `std::tuple<...>`,
      an instantiation `T<Ts...>` of another template over types, an instantiation
      `T<values...>` of a template over values, or a type that is no template
      instantiation at all. */
  datatype TypeTerm<T> =
    | Tuple(elements: seq<T>)
    | TypeTemplate(arguments: seq<T>)
    | ValueTemplate(values: seq<T>)
    | NotATemplate

  /** `has_unique_ttps_v<T>`: the uniqueness of the arguments of an instantiation of a
      template over types (a tuple is one); the primary template `static_assert`s, which
      is a compile error for any other type, a template over values included. */
  function HasUniqueTtps<T(==)>(t: TypeTerm<T>): (r: Result<bool>)
    ensures r.Ok? <==> t.Tuple? || t.TypeTemplate?
    ensures r.Err? ==> r.error == NotATemplateInstantiation
    ensures t.Tuple? ==> r == Ok(AreUniqueTtps(t.elements))
    ensures t.TypeTemplate? ==> r == Ok(AreUniqueTtps(t.arguments))
  {
    match t
    case Tuple(es) => Ok(AreUniqueTtps(es))
    case TypeTemplate(args) => Ok(AreUniqueTtps(args))
    case _ => Err(NotATemplateInstantiation)
  }

  /** `has_unique_nttps_v<T>`: the uniqueness of the values of an instantiation of a
      template over values; a compile error for any other type, and for an empty value
      pack, which `are_unique_nttps` does not accept. */
  function HasUniqueNttps<T(==)>(t: TypeTerm<T>): (r: Result<bool>)
    ensures r.Ok? <==> t.ValueTemplate? && |t.values| >= 1
    ensures r.Err? ==> r.error == NotATemplateInstantiation
    ensures r.Ok? ==> r.value == AreUniqueTtps(t.values)
  {
    match t
    case ValueTemplate(vs) =>
      if |vs| >= 1 then
        NttpsAgreeWithTtps(vs);
        Ok(AreUniqueNttps(vs))
      else Err(NotATemplateInstantiation)
    case _ => Err(NotATemplateInstantiation)
  }

  /** `StorageType`: a tuple (`TupleType`) whose element kinds are unique. The concept's
      conjunction stops at `TupleType`, so a non-tuple is simply not a storage. */
  predicate StorageType<T(==)>(t: TypeTerm<T>)
    ensures StorageType(t) <==> t.Tuple? && PairwiseDistinct(t.elements)
  {
    if t.Tuple? then AreUniqueTtpsIsPairwiseDistinct(t.elements); HasUniqueTtps(t) == Ok(true)
    else false
  }

  /** In a storage every present kind sits at exactly one position: lookup by kind is
      unambiguous. */
  lemma StorageLookupIsUnambiguous<T>(t: TypeTerm<T>, kind: T, i: nat, j: nat)
    requires StorageType(t)
    requires i < |t.elements| && j < |t.elements|
    requires t.elements[i] == kind && t.elements[j] == kind
    ensures i == j
  {
    AreUniqueTtpsIsPairwiseDistinct(t.elements);
  }
}
