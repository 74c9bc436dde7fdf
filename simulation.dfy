/** `run_for_datas` of the driver program: the feature bank (`input::last_record` and
    `input::rsi<>`), one automaton per configured strategy, each starting with the same
    initial amount, and the loop that pops the record stack. Every step first updates every
    feature, then lets each automaton, in configuration order, refresh its price and
    `process` the view of the bank its `components_type` names. The run ends with one
    report per automaton. */
module Simulation {
  import opened Outcomes
  import opened DataTypes
  import opened Indices
  import opened Seqs
  import opened Mp
  import opened TupleView
  import opened Features
  import opened Automata

  /** The kinds of the bank `run_for_datas` builds: `std::tuple{ input::last_record{},
      input::rsi{} }`. */
  const DriverStorage: seq<Kind> := [LastRecordKind(Driver), RsiKind(Driver, DefaultMaxDuration)]

  function KindsOf(features: seq<FeatureState>): (ks: seq<Kind>)
    ensures |ks| == |features| && forall i :: 0 <= i < |features| ==> ks[i] == features[i].kind
  {
    seq(|features|, i requires 0 <= i < |features| => features[i].kind)
  }

  // ---------------------------------------------------------------------------
  // Configuration: what the compiler checks when it instantiates the run

  /** Every strategy satisfies its template constraint, and `views[i]` is the view of the
      storage that `process_dispatcher` builds for automaton `i`. */
  predicate Configured(strategies: seq<Strategy>, storage: seq<Kind>, views: seq<seq<nat>>) {
    |views| == |strategies| &&
    forall i :: 0 <= i < |strategies| ==>
      WellFormedStrategy(strategies[i]) && MakeTupleView(storage, ComponentsType(strategies[i])) == Ok(views[i])
  }

  /** The views of every automaton, or the first configuration error: a strategy whose
      duration is 0, or a `components_type` the storage cannot serve. */
  function Configure(strategies: seq<Strategy>, storage: seq<Kind>): (r: Result<seq<seq<nat>>>)
    ensures r.Ok? <==> forall i :: 0 <= i < |strategies| ==>
      WellFormedStrategy(strategies[i]) && MakeTupleView(storage, ComponentsType(strategies[i])).Ok?
    ensures r.Ok? ==> Configured(strategies, storage, r.value)
    ensures r.Err? ==> r.error in {UnsatisfiedConstraint, MissingKind, DuplicateKinds}
    decreases |strategies|
  {
    if strategies == [] then Ok([])
    else
      var init := strategies[..|strategies| - 1];
      var s := strategies[|strategies| - 1];
      assert strategies == init + [s];
      assert forall i :: 0 <= i < |init| ==> init[i] == strategies[i];
      var views :- Configure(init, storage);
      if !WellFormedStrategy(s) then Err(UnsatisfiedConstraint)
      else
        var view :- MakeTupleView(storage, ComponentsType(s));
        ConfiguredSnoc(init, s, storage, views, view);
        Ok(views + [view])
  }

  /** A configured prefix and one more served strategy make a configured sequence. */
  lemma ConfiguredSnoc(init: seq<Strategy>, s: Strategy, storage: seq<Kind>, views: seq<seq<nat>>, view: seq<nat>)
    requires Configured(init, storage, views)
    requires WellFormedStrategy(s) && MakeTupleView(storage, ComponentsType(s)) == Ok(view)
    ensures Configured(init + [s], storage, views + [view])
  {
    var strategies, all := init + [s], views + [view];
    forall i | 0 <= i < |strategies|
      ensures WellFormedStrategy(strategies[i]) && MakeTupleView(storage, ComponentsType(strategies[i])) == Ok(all[i])
    {
      if i < |init| {
        assert strategies[i] == init[i] && all[i] == views[i];
      }
    }
  }

  /** The driver's bank has no business indicator: a configuration naming one is rejected,
      and only the driver's strategies and `long_term` can run on it. */
  lemma BusinessStrategiesAreRejected(strategies: seq<Strategy>, i: nat)
    requires i < |strategies| && WellFormedStrategy(strategies[i])
    requires strategies[i].RsiCaca? || strategies[i].RsiProportionalWithTrends? ||
             strategies[i].RsiThresholds? || strategies[i].RsiThresholdsAndTrends?
    ensures Configure(strategies, DriverStorage).Err?
  {
    assert RsiKind(Business, DefaultMaxDuration) !in DriverStorage;
    assert !AllPresent(DriverStorage, ComponentsType(strategies[i]));
  }

  /** The configuration constant of `main`: `RSI_proportional<4>`, `<6>`, `<7>`, `<14>` and
      six `RSI_thresholds<14, …>`, all on the driver's bank. Every one reads the driver's
      RSI over at least two records, and every threshold plan buys below where it sells and
      trades a share of at most the whole amount. */
  function MainStrategies(): (ss: seq<Strategy>)
    ensures |ss| == 10
    ensures forall i :: 0 <= i < |ss| ==> (ss[i].DriverRsiProportional? || ss[i].DriverRsiThresholds?) && ss[i].duration >= 2
    ensures forall i :: 0 <= i < |ss| && ss[i].DriverRsiThresholds? ==>
      ss[i].plan.buyThreshold < ss[i].plan.sellThreshold && 0.0 < ss[i].plan.investment <= 1.0
  {
    [DriverRsiProportional(4), DriverRsiProportional(6), DriverRsiProportional(7), DriverRsiProportional(14),
     DriverRsiThresholds(14, InvestmentStrategy(30, 70, 0.5)), DriverRsiThresholds(14, InvestmentStrategy(30, 70, 0.25)),
     DriverRsiThresholds(14, InvestmentStrategy(40, 60, 0.5)), DriverRsiThresholds(14, InvestmentStrategy(40, 60, 0.25)),
     DriverRsiThresholds(14, InvestmentStrategy(45, 55, 0.5)), DriverRsiThresholds(14, InvestmentStrategy(45, 55, 0.25))]
  }

  /** The bank's kinds are distinct: it is a `StorageType`. */
  lemma DriverStorageIsAStorage()
    ensures AreUniqueTtps(DriverStorage)
  {
    assert DriverStorage[1..] == [RsiKind(Driver, DefaultMaxDuration)];
    assert DriverStorage[1..][1..] == [];
  }

  /** A driver strategy reads the one RSI of the bank, at position 1; `long_term` reads
      nothing. */
  lemma DriverStrategyReadsTheRsi(s: Strategy)
    requires s.DriverRsiProportional? || s.DriverRsiThresholds? || s.LongTerm?
    ensures s.LongTerm? ==> MakeTupleView(DriverStorage, ComponentsType(s)) == Ok([])
    ensures !s.LongTerm? ==> MakeTupleView(DriverStorage, ComponentsType(s)) == Ok([1])
  {
    DriverStorageIsAStorage();
    if !s.LongTerm? {
      var rsi := RsiKind(Driver, DefaultMaxDuration);
      assert ComponentsType(s) == [rsi];
      assert [rsi][1..] == [];
      assert AreUniqueTtps([rsi]);
      assert AllPresent(DriverStorage, [rsi]) by {
        assert DriverStorage[1] == rsi;
      }
      var v := MakeTupleView(DriverStorage, [rsi]);
      assert DriverStorage[1] == [rsi][0];
      assert v.value == [v.value[0]] == [1];
    } else {
      EmptyRequestGivesEmptyView(DriverStorage);
    }
  }

  /** A configuration of driver strategies with non-zero durations is served by the
      driver's bank: every automaton reads its RSI. */
  lemma DriverConfigurationIsServed(strategies: seq<Strategy>)
    requires forall i :: 0 <= i < |strategies| ==>
      (strategies[i].DriverRsiProportional? || strategies[i].DriverRsiThresholds?) && strategies[i].duration != 0
    ensures Configure(strategies, DriverStorage).Ok?
    ensures forall i :: 0 <= i < |strategies| ==> Configure(strategies, DriverStorage).value[i] == [1]
  {
    forall i | 0 <= i < |strategies|
      ensures WellFormedStrategy(strategies[i]) && MakeTupleView(DriverStorage, ComponentsType(strategies[i])) == Ok([1])
    {
      DriverStrategyReadsTheRsi(strategies[i]);
    }
  }

  /** Every automaton of `main` is served by the driver's bank and reads its RSI. */
  lemma MainIsConfigured()
    ensures Configure(MainStrategies(), DriverStorage).Ok?
    ensures forall i :: 0 <= i < 10 ==> Configure(MainStrategies(), DriverStorage).value[i] == [1]
  {
    var ss := MainStrategies();
    assert forall i :: 0 <= i < |ss| ==> (ss[i].DriverRsiProportional? || ss[i].DriverRsiThresholds?) && ss[i].duration != 0;
    DriverConfigurationIsServed(ss);
  }

  // ---------------------------------------------------------------------------
  // The engine's state and one step

  /** The bank, the automata in configuration order, and `long_term`'s shared static flag. */
  datatype Engine = Engine(features: seq<FeatureState>, automata: seq<AutomatonState>, longTermFired: bool)

  /** Every wallet has a price that is 0 (no record yet) or the last positive close. */
  predicate PricedSoFar(a: AutomatonState) {
    a.investment.currencyPrice >= 0.0 && WalletInvariant(a.investment)
  }

  predicate ValidEngine(strategies: seq<Strategy>, views: seq<seq<nat>>, e: Engine) {
    Configured(strategies, KindsOf(e.features), views) &&
    (forall i :: 0 <= i < |e.features| ==> ValidFeature(e.features[i])) &&
    |e.automata| == |strategies| &&
    forall i :: 0 <= i < |e.automata| ==> PricedSoFar(e.automata[i])
  }

  /** The view of automaton `i` hands it one valid feature of each kind it asks for. */
  lemma ViewGivesComponents(s: Strategy, features: seq<FeatureState>, view: seq<nat>)
    requires MakeTupleView(KindsOf(features), ComponentsType(s)) == Ok(view)
    requires forall i :: 0 <= i < |features| ==> ValidFeature(features[i])
    ensures forall i :: 0 <= i < |view| ==> view[i] < |features|
    ensures ComponentsFor(s, Project(features, view))
  {
    ProjectionHasRequestedKinds(KindsOf(features), ComponentsType(s));
  }

  /** Every feature of the bank after `update(latest_record)`, in tuple order. */
  function UpdatedBank(features: seq<FeatureState>, record: Record): (r: seq<FeatureState>)
    requires forall i :: 0 <= i < |features| ==> ValidFeature(features[i])
    requires record.closeLast > 0.0
    ensures |r| == |features|
    ensures forall i :: 0 <= i < |features| ==> r[i] == UpdateFeature(features[i], record) && ValidFeature(r[i])
    ensures KindsOf(r) == KindsOf(features)
  {
    seq(|features|, i requires 0 <= i < |features| => UpdateFeature(features[i], record))
  }

  /** One automaton's turn: `update(latest_record)`, then the dispatcher's `process` on its
      view of the (already updated) bank, with `long_term`'s flag as it stands. */
  function ProcessOne(s: Strategy, view: seq<nat>, bank: seq<FeatureState>, a: AutomatonState, fired: bool, record: Record)
    : (r: Result<(AutomatonState, bool)>)
    requires WellFormedStrategy(s) && MakeTupleView(KindsOf(bank), ComponentsType(s)) == Ok(view)
    requires forall i :: 0 <= i < |bank| ==> ValidFeature(bank[i])
    requires PricedSoFar(a) && record.closeLast > 0.0
    ensures r.Ok? ==> Priced(r.value.0) && PricedSoFar(r.value.0)
    ensures r.Ok? ==> TotalCapital(r.value.0) == TotalCapital(Updated(a, record))
    ensures r.Ok? && Solvent(a) ==> Solvent(r.value.0)
  {
    ViewGivesComponents(s, bank, view);
    Processed(s, Updated(a, record), Project(bank, view), fired)
  }

  /** The `for` loop over the automata from position `i` on: each takes its turn in
      order and its new state replaces the old one; the flag of `long_term` passes from one
      automaton to the next. The first exception ends the step. */
  function ProcessFrom(strategies: seq<Strategy>, views: seq<seq<nat>>, bank: seq<FeatureState>,
                       automata: seq<AutomatonState>, fired: bool, record: Record, i: nat): (r: Result<(seq<AutomatonState>, bool)>)
    requires Configured(strategies, KindsOf(bank), views)
    requires forall k :: 0 <= k < |bank| ==> ValidFeature(bank[k])
    requires |automata| == |strategies| && i <= |automata|
    requires forall k :: 0 <= k < |automata| ==> PricedSoFar(automata[k])
    requires record.closeLast > 0.0
    ensures r.Ok? ==> |r.value.0| == |automata|
    ensures r.Ok? ==> forall k :: 0 <= k < i ==> r.value.0[k] == automata[k]
    ensures r.Ok? ==> forall k :: 0 <= k < |automata| ==> PricedSoFar(r.value.0[k])
    ensures r.Ok? ==> forall k :: i <= k < |automata| ==> Priced(r.value.0[k])
    decreases |automata| - i
  {
    if i == |automata| then Ok((automata, fired))
    else
      var next :- ProcessOne(strategies[i], views[i], bank, automata[i], fired, record);
      ProcessFrom(strategies, views, bank, automata[i := next.0], next.1, record, i + 1)
  }

  /** One turn of the `while` loop on the popped record. */
  function Step(strategies: seq<Strategy>, views: seq<seq<nat>>, e: Engine, record: Record): (r: Result<Engine>)
    requires ValidEngine(strategies, views, e) && record.closeLast > 0.0
    ensures r.Ok? ==> ValidEngine(strategies, views, r.value) && KindsOf(r.value.features) == KindsOf(e.features)
    ensures r.Ok? ==> r.value.features == UpdatedBank(e.features, record)
  {
    var bank := UpdatedBank(e.features, record);
    var processed :- ProcessFrom(strategies, views, bank, e.automata, e.longTermFired, record, 0);
    Ok(Engine(bank, processed.0, processed.1))
  }

  /** The loop from `e` over `stack`, whose top is its last element: the remaining records
      are popped and stepped one by one until the stack is empty. */
  function Run(strategies: seq<Strategy>, views: seq<seq<nat>>, e: Engine, stack: seq<Record>): (r: Result<Engine>)
    requires ValidEngine(strategies, views, e) && PositiveCloses(stack)
    ensures r.Ok? ==> ValidEngine(strategies, views, r.value) && KindsOf(r.value.features) == KindsOf(e.features)
    decreases |stack|
  {
    if stack == [] then Ok(e)
    else
      var next :- Step(strategies, views, e, stack[|stack| - 1]);
      PositiveClosesInit(stack);
      Run(strategies, views, next, stack[..|stack| - 1])
  }

  /** A turn of the automata never makes a solvent automaton insolvent. */
  lemma {:induction false} ProcessFromKeepsSolvent(strategies: seq<Strategy>, views: seq<seq<nat>>, bank: seq<FeatureState>,
                                                   automata: seq<AutomatonState>, fired: bool, record: Record, i: nat)
    requires Configured(strategies, KindsOf(bank), views)
    requires forall k :: 0 <= k < |bank| ==> ValidFeature(bank[k])
    requires |automata| == |strategies| && i <= |automata|
    requires forall k :: 0 <= k < |automata| ==> PricedSoFar(automata[k])
    requires record.closeLast > 0.0
    requires ProcessFrom(strategies, views, bank, automata, fired, record, i).Ok?
    ensures var after := ProcessFrom(strategies, views, bank, automata, fired, record, i).value.0;
      forall k :: 0 <= k < |automata| && Solvent(automata[k]) ==> Solvent(after[k])
    decreases |automata| - i
  {
    if i < |automata| {
      var next := ProcessOne(strategies[i], views[i], bank, automata[i], fired, record).value;
      var updated := automata[i := next.0];
      ProcessFromKeepsSolvent(strategies, views, bank, updated, next.1, record, i + 1);
      var after := ProcessFrom(strategies, views, bank, automata, fired, record, i).value.0;
      assert after == ProcessFrom(strategies, views, bank, updated, next.1, record, i + 1).value.0;
      forall k | 0 <= k < |automata| && Solvent(automata[k]) ensures Solvent(after[k]) {
        if k == i {
          assert after[k] == updated[k] == next.0;
        } else {
          assert updated[k] == automata[k];
        }
      }
    }
  }

  /** A run never makes a solvent automaton insolvent. */
  lemma {:induction false} RunKeepsSolvent(strategies: seq<Strategy>, views: seq<seq<nat>>, e: Engine, stack: seq<Record>)
    requires ValidEngine(strategies, views, e) && PositiveCloses(stack)
    requires Run(strategies, views, e, stack).Ok?
    ensures var final := Run(strategies, views, e, stack).value;
      forall i :: 0 <= i < |e.automata| && Solvent(e.automata[i]) ==> Solvent(final.automata[i])
    decreases |stack|
  {
    if stack != [] {
      RunPopsTheTop(strategies, views, e, stack);
      var top := stack[|stack| - 1];
      var bank := UpdatedBank(e.features, top);
      ProcessFromKeepsSolvent(strategies, views, bank, e.automata, e.longTermFired, top, 0);
      var next := Step(strategies, views, e, top).value;
      RunKeepsSolvent(strategies, views, next, stack[..|stack| - 1]);
    }
  }

  /** Feeding a feature `x` then `records` is feeding it `[x] + records`. */
  lemma {:induction false} FeedPrepend(f: FeatureState, x: Record, records: seq<Record>)
    requires ValidFeature(f) && x.closeLast > 0.0 && PositiveCloses(records)
    ensures PositiveCloses([x] + records)
    ensures FeedFeature(UpdateFeature(f, x), records) == FeedFeature(f, [x] + records)
  {
    var all := [x] + records;
    assert PositiveCloses(all) by {
      forall k | 0 <= k < |all| ensures all[k].closeLast > 0.0 {
        if k > 0 {
          assert all[k] == records[k - 1];
        }
      }
    }
    if records != [] {
      var init := records[..|records| - 1];
      assert PositiveCloses(init) by {
        forall k | 0 <= k < |init| ensures init[k].closeLast > 0.0 {
          assert init[k] == records[k];
        }
      }
      FeedPrepend(f, x, init);
      assert all[..|all| - 1] == [x] + init;
    }
  }

  /** The stack is delivered top first: a run feeds every feature of the bank the records
      in reverse stack order, each exactly once. */
  lemma {:induction false} RunFeedsReversedStack(strategies: seq<Strategy>, views: seq<seq<nat>>, e: Engine, stack: seq<Record>)
    requires ValidEngine(strategies, views, e) && PositiveCloses(stack)
    requires Run(strategies, views, e, stack).Ok?
    ensures PositiveCloses(Reverse(stack))
    ensures |Run(strategies, views, e, stack).value.features| == |e.features|
    ensures forall i :: 0 <= i < |e.features| ==>
      Run(strategies, views, e, stack).value.features[i] == FeedFeature(e.features[i], Reverse(stack))
    decreases |stack|
  {
    var reversed := Reverse(stack);
    assert PositiveCloses(reversed) by {
      forall k | 0 <= k < |reversed| ensures reversed[k].closeLast > 0.0 {
        assert reversed[k] == stack[|stack| - 1 - k];
      }
    }
    if stack != [] {
      var top, rest := stack[|stack| - 1], stack[..|stack| - 1];
      var next := Step(strategies, views, e, top).value;
      PositiveClosesInit(stack);
      RunFeedsReversedStack(strategies, views, next, rest);
      assert reversed == [top] + Reverse(rest);
      forall i | 0 <= i < |e.features|
        ensures Run(strategies, views, e, stack).value.features[i] == FeedFeature(e.features[i], reversed)
      {
        FeedPrepend(e.features[i], top, Reverse(rest));
      }
    }
  }

  // ---------------------------------------------------------------------------
  // The whole run and its report

  /** The printed line of one automaton: its total capital, the profit or loss, and the
      rate `(total / initial) * 100 - 100`, which has no real value for an initial amount
      of 0. */
  datatype Report = Report(totalCapital: real, profitAndLoss: real, winOrLossRate: Option<real>)

  function ReportOf(a: AutomatonState, initialAmount: real): (r: Report)
    ensures r.totalCapital == TotalCapital(a) && r.profitAndLoss == TotalCapital(a) - initialAmount
    ensures r.winOrLossRate.Some? <==> initialAmount != 0.0
  {
    Report(TotalCapital(a), TotalCapital(a) - initialAmount,
           if initialAmount == 0.0 then None else Some((TotalCapital(a) / initialAmount) * 100.0 - 100.0))
  }

  /** The rate is the profit or loss as a percentage of the initial amount, so with a
      positive initial amount the printed sign is that of the profit or loss. */
  lemma RateIsRelativeProfit(a: AutomatonState, initialAmount: real)
    requires initialAmount > 0.0
    ensures var r := ReportOf(a, initialAmount);
      r.winOrLossRate == Some(r.profitAndLoss / initialAmount * 100.0) &&
      (r.winOrLossRate.value < 0.0 <==> r.profitAndLoss < 0.0) &&
      (r.winOrLossRate.value == 0.0 <==> r.totalCapital == initialAmount)
  {
    var t := TotalCapital(a);
    assert initialAmount / initialAmount == 1.0;
    assert (t - initialAmount) / initialAmount == t / initialAmount - initialAmount / initialAmount;
  }

  /** What `run_for_datas` prints: the number of records processed and one report per
      automaton, in configuration order. */
  datatype Summary = Summary(recordsQuantity: nat, reports: seq<Report>)

  /** The bank and the automata before the first record: default-constructed features,
      and each automaton with its own wallet and `initial_amount` of cash. */
  function InitialEngine(strategies: seq<Strategy>, initialAmount: real): (e: Engine)
    ensures |e.automata| == |strategies| && !e.longTermFired
    ensures KindsOf(e.features) == DriverStorage
    ensures forall i :: 0 <= i < |e.automata| ==> e.automata[i] == AutomatonState(initialAmount, FreshWallet)
  {
    Engine([FreshFeature(LastRecordKind(Driver)), FreshFeature(RsiKind(Driver, DefaultMaxDuration))],
           seq(|strategies|, _ => AutomatonState(initialAmount, FreshWallet)), false)
  }

  function Reports(automata: seq<AutomatonState>, initialAmount: real): (r: seq<Report>)
    ensures |r| == |automata| && forall i :: 0 <= i < |automata| ==> r[i] == ReportOf(automata[i], initialAmount)
  {
    seq(|automata|, i requires 0 <= i < |automata| => ReportOf(automata[i], initialAmount))
  }

  /** `run_for_datas<strategies...>(path, initial_amount)` on the stack `generate_datas`
      returns for `path`: the configuration is checked first, then the loop runs. */
  function Simulated(strategies: seq<Strategy>, initialAmount: real, stack: seq<Record>): (r: Result<Summary>)
    requires PositiveCloses(stack)
    ensures r.Ok? ==> r.value.recordsQuantity == |stack| && |r.value.reports| == |strategies|
    ensures Configure(strategies, DriverStorage).Err? ==> r == Err(Configure(strategies, DriverStorage).error)
  {
    var views :- Configure(strategies, DriverStorage);
    var e := InitialEngine(strategies, initialAmount);
    var final :- Run(strategies, views, e, stack);
    Ok(Summary(|stack|, Reports(final.automata, initialAmount)))
  }

  /** A configured engine starts valid: the default bank with the automata's views, and
      every automaton holding its initial amount and an empty wallet. */
  lemma InitialEngineIsValid(strategies: seq<Strategy>, views: seq<seq<nat>>, initialAmount: real)
    requires Configure(strategies, DriverStorage) == Ok(views)
    ensures ValidEngine(strategies, views, InitialEngine(strategies, initialAmount))
  {
    var e := InitialEngine(strategies, initialAmount);
    assert Configured(strategies, KindsOf(e.features), views);
  }

  /** A configured run reports on the automata the loop leaves. */
  lemma SimulatedRuns(strategies: seq<Strategy>, views: seq<seq<nat>>, initialAmount: real, stack: seq<Record>)
    requires PositiveCloses(stack) && Configure(strategies, DriverStorage) == Ok(views)
    ensures ValidEngine(strategies, views, InitialEngine(strategies, initialAmount))
    ensures var run := Run(strategies, views, InitialEngine(strategies, initialAmount), stack);
      Simulated(strategies, initialAmount, stack) ==
        if run.Err? then Err(run.error) else Ok(Summary(|stack|, Reports(run.value.automata, initialAmount)))
  {
    InitialEngineIsValid(strategies, views, initialAmount);
  }

  /** No automaton can end a run with a negative total capital when it started with a
      non-negative amount: trades never overdraw the cash or the wallet. */
  lemma CapitalStaysNonNegative(strategies: seq<Strategy>, views: seq<seq<nat>>, initialAmount: real, stack: seq<Record>)
    requires PositiveCloses(stack) && initialAmount >= 0.0 && Configure(strategies, DriverStorage) == Ok(views)
    requires Simulated(strategies, initialAmount, stack).Ok?
    ensures forall i :: 0 <= i < |strategies| ==> Simulated(strategies, initialAmount, stack).value.reports[i].totalCapital >= 0.0
  {
    SimulatedRuns(strategies, views, initialAmount, stack);
    InitialAutomataAreSolvent(strategies, initialAmount);
    RunKeepsSolvent(strategies, views, InitialEngine(strategies, initialAmount), stack);
    var final := Run(strategies, views, InitialEngine(strategies, initialAmount), stack).value;
    SolventReports(final.automata, initialAmount);
  }

  lemma InitialAutomataAreSolvent(strategies: seq<Strategy>, initialAmount: real)
    requires initialAmount >= 0.0
    ensures forall i :: 0 <= i < |strategies| ==> Solvent(InitialEngine(strategies, initialAmount).automata[i])
  {
    FreshWalletIsEmpty();
  }

  lemma SolventReports(automata: seq<AutomatonState>, initialAmount: real)
    requires forall i :: 0 <= i < |automata| ==> Solvent(automata[i]) && PricedSoFar(automata[i])
    ensures forall i :: 0 <= i < |automata| ==> Reports(automata, initialAmount)[i].totalCapital >= 0.0
  {
    forall i | 0 <= i < |automata| ensures TotalCapital(automata[i]) >= 0.0 {
      SolventCapital(automata[i]);
    }
  }

  lemma SolventCapital(a: AutomatonState)
    requires Solvent(a) && PricedSoFar(a)
    ensures TotalCapital(a) >= 0.0
  {
    assert ToUsdt(a.investment) >= 0.0;
  }

  /** With no record, every automaton reports its initial amount: no profit and a rate of 0. */
  lemma EmptyStackReportsInitialAmount(strategies: seq<Strategy>, views: seq<seq<nat>>, initialAmount: real)
    requires Configure(strategies, DriverStorage) == Ok(views) && initialAmount != 0.0
    ensures Simulated(strategies, initialAmount, []).Ok?
    ensures forall i :: 0 <= i < |strategies| ==>
      Simulated(strategies, initialAmount, []).value.reports[i] == Report(initialAmount, 0.0, Some(0.0))
  {
    FreshAutomatonReportsInitialAmount(initialAmount);
    SimulatedRuns(strategies, views, initialAmount, []);
  }

  lemma FreshAutomatonReportsInitialAmount(initialAmount: real)
    requires initialAmount != 0.0
    ensures ReportOf(AutomatonState(initialAmount, FreshWallet), initialAmount) == Report(initialAmount, 0.0, Some(0.0))
  {
    FreshWalletIsEmpty();
    UntouchedReport(AutomatonState(initialAmount, FreshWallet), initialAmount);
  }

  lemma UntouchedReport(a: AutomatonState, initialAmount: real)
    requires initialAmount != 0.0 && a.cash == initialAmount && ToUsdt(a.investment) == 0.0
    ensures ReportOf(a, initialAmount) == Report(initialAmount, 0.0, Some(0.0))
  {
    assert TotalCapital(a) / initialAmount == 1.0;
  }

  /** After a run from the default bank, the RSI window holds the first `max_duration`
      records of the stack's bottom (the first lines of the file), the first line in front. */
  lemma RsiWindowAfterRun(strategies: seq<Strategy>, views: seq<seq<nat>>, initialAmount: real, stack: seq<Record>)
    requires PositiveCloses(stack) && Configure(strategies, DriverStorage) == Ok(views)
    requires Run(strategies, views, InitialEngine(strategies, initialAmount), stack).Ok?
    ensures |Run(strategies, views, InitialEngine(strategies, initialAmount), stack).value.features| == 2
    ensures Run(strategies, views, InitialEngine(strategies, initialAmount), stack).value.features[1].cache
      == stack[..MinNat(|stack|, DefaultMaxDuration)]
  {
    var e := InitialEngine(strategies, initialAmount);
    InitialEngineIsValid(strategies, views, initialAmount);
    var rsi := RsiKind(Driver, DefaultMaxDuration);
    assert e.features[1] == FreshFeature(rsi);
    RunFeedsReversedStack(strategies, views, e, stack);
    var fed := FeedFeature(FreshFeature(rsi), Reverse(stack));
    assert Run(strategies, views, e, stack).value.features[1] == fed;
    FeedWindowed(rsi, Reverse(stack));
    ReverseReverse(stack);
  }

  // ---------------------------------------------------------------------------
  // The objects of `run_for_datas`

  /** Distinct automata, each with its own wallet. */
  predicate Separate(automata: seq<Automaton>) {
    forall i, j :: 0 <= i < |automata| && 0 <= j < |automata| && i != j ==>
      automata[i] != automata[j] && automata[i].investment != automata[j].investment
  }

  /** `make_array_of_variants<automatas_types...>(initial_amount)`. */
  method MakeAutomata(strategies: seq<Strategy>, initialAmount: real) returns (automata: seq<Automaton>)
    ensures |automata| == |strategies| && Separate(automata)
    ensures forall i :: 0 <= i < |automata| ==>
      fresh(automata[i]) && fresh(automata[i].investment) && automata[i].strategy == strategies[i] &&
      automata[i].State() == AutomatonState(initialAmount, FreshWallet)
  {
    automata := [];
    while |automata| < |strategies|
      invariant |automata| <= |strategies| && Separate(automata)
      invariant forall i :: 0 <= i < |automata| ==>
        fresh(automata[i]) && fresh(automata[i].investment) && automata[i].strategy == strategies[i] &&
        automata[i].State() == AutomatonState(initialAmount, FreshWallet)
      decreases |strategies| - |automata|
    {
      var a := new Automaton(strategies[|automata|], initialAmount);
      automata := automata + [a];
    }
  }

  /** The fold over the bank: each feature object is updated in tuple order. */
  method UpdateBank(features: seq<Feature>, record: Record)
    requires forall i, j :: 0 <= i < j < |features| ==> features[i] != features[j]
    requires forall i :: 0 <= i < |features| ==> ValidFeature(features[i].State())
    requires record.closeLast > 0.0
    modifies features
    ensures forall i :: 0 <= i < |features| ==> features[i].State() == UpdateFeature(old(features[i].State()), record)
  {
    for i := 0 to |features|
      invariant forall j :: 0 <= j < i ==> features[j].State() == UpdateFeature(old(features[j].State()), record)
      invariant forall j :: i <= j < |features| ==> features[j].State() == old(features[j].State())
    {
      features[i].Update(record);
    }
  }

  /** The visitor of one automaton: `update(latest_record)`, then the dispatcher hands
      `process` the automaton's view of the bank. */
  method Turn(automaton: Automaton, s: Strategy, view: seq<nat>, bank: seq<FeatureState>, fired: bool, record: Record)
    returns (o: Outcome, firedAfter: bool)
    requires automaton.strategy == s && WellFormedStrategy(s)
    requires MakeTupleView(KindsOf(bank), ComponentsType(s)) == Ok(view)
    requires forall i :: 0 <= i < |bank| ==> ValidFeature(bank[i])
    requires PricedSoFar(automaton.State()) && record.closeLast > 0.0
    modifies automaton, automaton.investment
    ensures var r := ProcessOne(s, view, bank, old(automaton.State()), fired, record);
      (o.Fail? <==> r.Err?) &&
      (r.Err? ==> o.error == r.error) &&
      (r.Ok? ==> automaton.State() == r.value.0 && firedAfter == r.value.1)
  {
    ViewGivesComponents(s, bank, view);
    automaton.Update(record);
    o, firedAfter := automaton.Process(Project(bank, view), fired);
  }

  /** What holds after the first `i` turns of the loop over the automata, which started
      from `states` and `start`: the objects hold `current`, and the run from the first
      automaton goes on from `i` with `current` and `fired`. */
  ghost predicate TurnsDone(strategies: seq<Strategy>, views: seq<seq<nat>>, bank: seq<FeatureState>,
                            automata: seq<Automaton>, states: seq<AutomatonState>, start: bool,
                            current: seq<AutomatonState>, fired: bool, record: Record, i: nat)
    reads automata, set a | a in automata :: a.investment
  {
    Configured(strategies, KindsOf(bank), views) &&
    (forall k :: 0 <= k < |bank| ==> ValidFeature(bank[k])) &&
    |automata| == |strategies| == |current| == |states| && i <= |automata| && Separate(automata) &&
    (forall k :: 0 <= k < |automata| ==> automata[k].strategy == strategies[k] && automata[k].State() == current[k]) &&
    (forall k :: 0 <= k < |current| ==> PricedSoFar(current[k])) &&
    (forall k :: 0 <= k < |states| ==> PricedSoFar(states[k])) &&
    record.closeLast > 0.0 &&
    ProcessFrom(strategies, views, bank, states, start, record, 0) ==
      ProcessFrom(strategies, views, bank, current, fired, record, i)
  }

  /** The turn of automaton `i` of the array, as one step of `ProcessFrom`: the run of
      the automata from the first goes on from `i + 1` with the objects' new states, or
      fails with this turn's error. */
  method TurnAt(strategies: seq<Strategy>, views: seq<seq<nat>>, bank: seq<FeatureState>,
                automata: seq<Automaton>, ghost states: seq<AutomatonState>, ghost start: bool,
                ghost current: seq<AutomatonState>, fired: bool, record: Record, i: nat)
    returns (o: Outcome, firedAfter: bool, ghost after: seq<AutomatonState>)
    requires i < |automata| && TurnsDone(strategies, views, bank, automata, states, start, current, fired, record, i)
    modifies automata[i], automata[i].investment
    ensures o.Fail? ==> ProcessFrom(strategies, views, bank, states, start, record, 0) == Err(o.error)
    ensures o.Pass? ==> TurnsDone(strategies, views, bank, automata, states, start, after, firedAfter, record, i + 1)
  {
    o, firedAfter := Turn(automata[i], strategies[i], views[i], bank, fired, record);
    after := current[i := automata[i].State()];
  }

  /** The `for` loop over the automata on one record: `update` then the dispatcher's
      `process` of each, stopping at the first exception. */
  method ProcessAll(strategies: seq<Strategy>, views: seq<seq<nat>>, bank: seq<FeatureState>,
                    automata: seq<Automaton>, ghost states: seq<AutomatonState>, fired: bool, record: Record)
    returns (o: Outcome, firedAfter: bool)
    requires Configured(strategies, KindsOf(bank), views)
    requires forall i :: 0 <= i < |bank| ==> ValidFeature(bank[i])
    requires |automata| == |strategies| == |states| && Separate(automata)
    requires forall i :: 0 <= i < |automata| ==> automata[i].strategy == strategies[i] && automata[i].State() == states[i]
    requires forall i :: 0 <= i < |states| ==> PricedSoFar(states[i])
    requires record.closeLast > 0.0
    modifies automata, set a | a in automata :: a.investment
    ensures var r := ProcessFrom(strategies, views, bank, states, fired, record, 0);
      (o.Fail? <==> r.Err?) &&
      (r.Err? ==> o.error == r.error) &&
      (r.Ok? ==> firedAfter == r.value.1 && forall i :: 0 <= i < |automata| ==> automata[i].State() == r.value.0[i])
  {
    ghost var current := states;
    firedAfter := fired;
    for i := 0 to |automata|
      invariant TurnsDone(strategies, views, bank, automata, states, fired, current, firedAfter, record, i)
    {
      var step: Outcome;
      step, firedAfter, current := TurnAt(strategies, views, bank, automata, states, fired, current, firedAfter, record, i);
      if step.Fail? {
        return step, firedAfter;
      }
    }
    o := Pass;
  }

  /** One turn of the `while` loop on the popped record: the features of the bank, then
      the automata. */
  method StepObjects(strategies: seq<Strategy>, views: seq<seq<nat>>, lastRecord: Feature, rsi: Feature,
                     automata: seq<Automaton>, ghost states: seq<AutomatonState>, fired: bool, record: Record)
    returns (o: Outcome, firedAfter: bool, ghost statesAfter: seq<AutomatonState>)
    requires lastRecord != rsi && Separate(automata) && |automata| == |strategies|
    requires ValidEngine(strategies, views, Engine([lastRecord.State(), rsi.State()], states, fired))
    requires forall i :: 0 <= i < |automata| ==> automata[i].strategy == strategies[i] && automata[i].State() == states[i]
    requires record.closeLast > 0.0
    modifies lastRecord, rsi, automata, set a | a in automata :: a.investment
    ensures var r := Step(strategies, views, Engine([old(lastRecord.State()), old(rsi.State())], states, fired), record);
      (o.Fail? <==> r.Err?) &&
      (r.Err? ==> o.error == r.error) &&
      (r.Ok? ==> r.value == Engine([lastRecord.State(), rsi.State()], statesAfter, firedAfter)) &&
      (r.Ok? ==> forall i :: 0 <= i < |automata| ==> automata[i].State() == statesAfter[i])
  {
    ghost var before := [lastRecord.State(), rsi.State()];
    assert ValidFeature(before[0]) && ValidFeature(before[1]);
    UpdateDriverBank(lastRecord, rsi, record);
    var bank := [lastRecord.State(), rsi.State()];
    o, firedAfter := ProcessAll(strategies, views, bank, automata, states, fired, record);
    statesAfter := if o.Pass? then ProcessFrom(strategies, views, bank, states, fired, record, 0).value.0 else states;
  }

  /** The two features of the driver's storage, updated in storage order. */
  method UpdateDriverBank(lastRecord: Feature, rsi: Feature, record: Record)
    requires lastRecord != rsi && ValidFeature(lastRecord.State()) && ValidFeature(rsi.State())
    requires record.closeLast > 0.0
    modifies lastRecord, rsi
    ensures [lastRecord.State(), rsi.State()] == UpdatedBank(old([lastRecord.State(), rsi.State()]), record)
  {
    ghost var before := [lastRecord.State(), rsi.State()];
    var features := [lastRecord, rsi];
    UpdateBank(features, record);
    assert lastRecord.State() == UpdateFeature(before[0], record) by { assert features[0] == lastRecord; }
    assert rsi.State() == UpdateFeature(before[1], record) by { assert features[1] == rsi; }
  }

  /** The final loop of `run_for_datas`: one report per automaton, in configuration order. */
  method ReportAll(automata: seq<Automaton>, ghost states: seq<AutomatonState>, initialAmount: real)
    returns (reports: seq<Report>)
    requires |automata| == |states| && forall i :: 0 <= i < |automata| ==> automata[i].State() == states[i]
    ensures reports == Reports(states, initialAmount)
  {
    reports := [];
    for i := 0 to |automata|
      invariant |reports| == i && forall j :: 0 <= j < i ==> reports[j] == ReportOf(states[j], initialAmount)
    {
      reports := reports + [ReportOf(automata[i].State(), initialAmount)];
    }
  }

  /** A run over a non-empty stack steps on its top record, then runs over the rest. */
  lemma RunPopsTheTop(strategies: seq<Strategy>, views: seq<seq<nat>>, e: Engine, stack: seq<Record>)
    requires ValidEngine(strategies, views, e) && PositiveCloses(stack) && stack != []
    ensures PositiveCloses(stack[..|stack| - 1])
    ensures var step := Step(strategies, views, e, stack[|stack| - 1]);
      Run(strategies, views, e, stack) ==
        if step.Err? then Err(step.error) else Run(strategies, views, step.value, stack[..|stack| - 1])
  {
    PositiveClosesInit(stack);
  }

  /** `run_for_datas`: configure, build the bank and the automata, pop and step every
      record, then report. */
  method RunForDatas(strategies: seq<Strategy>, initialAmount: real, records: seq<Record>) returns (r: Result<Summary>)
    requires PositiveCloses(records)
    ensures r == Simulated(strategies, initialAmount, records)
  {
    var views :- Configure(strategies, DriverStorage);
    SimulatedRuns(strategies, views, initialAmount, records);
    var lastRecord := new Feature(LastRecordKind(Driver));
    var rsi := new Feature(RsiKind(Driver, DefaultMaxDuration));
    var automata := MakeAutomata(strategies, initialAmount);
    ghost var initial := InitialEngine(strategies, initialAmount);
    ghost var states := initial.automata;
    var fired := false;
    var stack := records;
    while stack != []
      invariant PositiveCloses(stack) && |states| == |strategies|
      invariant ValidEngine(strategies, views, Engine([lastRecord.State(), rsi.State()], states, fired))
      invariant Run(strategies, views, initial, records) ==
        Run(strategies, views, Engine([lastRecord.State(), rsi.State()], states, fired), stack)
      invariant forall i :: 0 <= i < |automata| ==> automata[i].State() == states[i]
      decreases |stack|
    {
      RunPopsTheTop(strategies, views, Engine([lastRecord.State(), rsi.State()], states, fired), stack);
      var latest := stack[|stack| - 1];
      stack := stack[..|stack| - 1];
      var o: Outcome;
      o, fired, states := StepObjects(strategies, views, lastRecord, rsi, automata, states, fired, latest);
      if o.Fail? {
        return Err(o.error);
      }
    }
    var reports := ReportAll(automata, states, initialAmount);
    return Ok(Summary(|records|, reports));
  }
}
