/** The features (indicator objects) the engine keeps in its storage: `last_record`, the
    windowed `rsi`, `trend` and `roc` of `business::indices`, and the driver's own
    `input::last_record`, `input::rsi` and stub `input::trend`. Each is updated in place
    with every new record; the strategies read them through their queries. */
module Features {
  import opened Outcomes
  import opened DataTypes
  import opened Indices
  import opened Input
  import opened Seqs

  /** The namespace a feature type comes from: `business::indices` or the driver's `input`. */
  datatype Origin = Business | Driver

  /** A feature type. Template instantiations with different `max_duration` are distinct
      types, so the bound is part of the kind. */
  datatype Kind =
    | LastRecordKind(origin: Origin)
    | RsiKind(origin: Origin, maxDuration: nat)
    | TrendKind(maxDuration: nat)
    | RocKind(maxDuration: nat)
    | TrendStubKind

  /** The kinds that keep a bounded window of records. */
  predicate Windowed(k: Kind) {
    k.RsiKind? || k.TrendKind? || k.RocKind?
  }

  /** The template constraints: `rsi` requires `max_duration != 0`, `trend` and `roc`
      require `max_duration > 1`. */
  predicate WellFormedKind(k: Kind) {
    match k
    case RsiKind(_, m) => m != 0
    case TrendKind(m) => m > 1
    case RocKind(m) => m > 1
    case _ => true
  }

  /** The fields of a feature object: the window (`cache`) of the windowed kinds and the
      `value` of `last_record`; the field a kind lacks stays at its initial value. */
  datatype FeatureState = FeatureState(kind: Kind, cache: seq<Record>, value: Record)

  /** What every update keeps: the window never exceeds `max_duration` (the `assert` after
      each `pop_back`), and its closing prices stay positive. */
  predicate ValidFeature(f: FeatureState) {
    WellFormedKind(f.kind) && PositiveCloses(f.cache) &&
    (if Windowed(f.kind) then |f.cache| <= f.kind.maxDuration else f.cache == [])
  }

  /** A default-constructed feature: an empty window, a value-initialised record. */
  function FreshFeature(k: Kind): (f: FeatureState)
    requires WellFormedKind(k)
    ensures ValidFeature(f) && f.kind == k && f.cache == []
  {
    FeatureState(k, [], EmptyRecord)
  }

  /** `update(input)`: `last_record` stores the input, the windowed kinds push it to the
      front of their window and drop the back when it has grown past `max_duration`, and the
      stub `input::trend` does nothing. */
  function UpdateFeature(f: FeatureState, input: Record): (r: FeatureState)
    requires ValidFeature(f) && input.closeLast > 0.0
    ensures ValidFeature(r) && r.kind == f.kind
    ensures f.kind.LastRecordKind? ==> r.value == input && r.cache == f.cache
    ensures Windowed(f.kind) ==> r.cache == PushFront(f.cache, input, f.kind.maxDuration) && r.value == f.value
    ensures f.kind.TrendStubKind? ==> r == f
  {
    if f.kind.LastRecordKind? then f.(value := input)
    else if f.kind.TrendStubKind? then f
    else
      var window := PushFront(f.cache, input, f.kind.maxDuration);
      assert PositiveCloses(window) by {
        forall k | 0 <= k < |window| ensures window[k].closeLast > 0.0 {
          if k > 0 {
            assert window[k] == window[1..][k - 1] == f.cache[k - 1];
          }
        }
      }
      f.(cache := window)
  }

  /** The feature after `update` was called with each of `records` in turn. */
  function FeedFeature(f: FeatureState, records: seq<Record>): (r: FeatureState)
    requires ValidFeature(f) && PositiveCloses(records)
    ensures ValidFeature(r) && r.kind == f.kind
  {
    if records == [] then f
    else
      var init := records[..|records| - 1];
      assert PositiveCloses(init) by {
        forall k | 0 <= k < |init| ensures init[k].closeLast > 0.0 {
          assert init[k] == records[k];
        }
      }
      UpdateFeature(FeedFeature(f, init), records[|records| - 1])
  }

  /** A windowed feature fed from its default state holds the `max_duration` most recent
      records, newest first. */
  lemma {:induction false} FeedWindowed(k: Kind, records: seq<Record>)
    requires WellFormedKind(k) && Windowed(k) && PositiveCloses(records)
    ensures FeedFeature(FreshFeature(k), records).cache == Fed(k.maxDuration, records)
    ensures FeedFeature(FreshFeature(k), records).cache == Reverse(records)[..MinNat(|records|, k.maxDuration)]
  {
    if records != [] {
      FeedWindowed(k, records[..|records| - 1]);
    }
    FedIsNewestFirst(k.maxDuration, records);
  }

  /** A `last_record` fed with a non-empty sequence holds its most recent record. */
  lemma {:induction false} FeedLastRecord(k: Kind, records: seq<Record>)
    requires k.LastRecordKind? && PositiveCloses(records) && records != []
    ensures FeedFeature(FreshFeature(k), records).value == records[|records| - 1]
    ensures FeedFeature(FreshFeature(k), records).cache == []
  {
  }

  /** `rsi.value_for_duration(duration)` on a feature of either origin. The driver's copy
      is only ever read at a non-zero duration, where the two agree. */
  function RsiOf(f: FeatureState, duration: nat): (r: Result<Option<RsiReading>>)
    requires ValidFeature(f) && f.kind.RsiKind?
    requires f.kind.origin == Driver ==> duration != 0
    ensures r == RsiValueForDuration(f.cache, duration)
  {
    if f.kind.origin == Business then RsiValueForDuration(f.cache, duration)
    else InputRsiValueForDuration(f.cache, duration)
  }

  /** A feature object. `kind` is its type; `update` overwrites its fields in place. */
  class Feature {
    const kind: Kind
    var cache: seq<Record>
    var value: Record

    function State(): FeatureState
      reads this
    {
      FeatureState(kind, cache, value)
    }

    constructor (kind: Kind)
      requires WellFormedKind(kind)
      ensures State() == FreshFeature(kind)
    {
      this.kind := kind;
      cache := [];
      value := EmptyRecord;
    }

    method Update(input: Record)
      requires ValidFeature(State()) && input.closeLast > 0.0
      modifies this
      ensures State() == UpdateFeature(old(State()), input)
    {
      if kind.LastRecordKind? {
        value := input;
      } else if !kind.TrendStubKind? {
        cache := [input] + cache;
        if |cache| > kind.maxDuration {
          cache := cache[..|cache| - 1];
        }
      }
    }
  }
}
