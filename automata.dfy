/** The trading automata of `trading_bots::automata`: an amount of cash and a `wallet`
    holding the traded asset, the `buy_up_to`/`sell_up_to` moves between them, and the
    `process` of each strategy, which reads its indicators and triggers those moves. The
    strategies of `automatas.hpp` read `business::indices::rsi<>` (and `trend<>`); the
    driver's `RSI_proportional` and `RSI_thresholds` read its own `input::rsi<>`. */
module Automata {
  import opened Outcomes
  import opened DataTypes
  import opened Indices
  import opened Mp
  import opened Features

  /** `investment_strategy` and the driver's `RSI_investment_strategy`: unsigned buy and sell
      thresholds and the coefficient applied to the amount each trade moves. */
  datatype InvestmentStrategy = InvestmentStrategy(buyThreshold: nat, sellThreshold: nat, investment: real)

  /** The automaton types, with their template arguments. */
  datatype Strategy =
    | LongTerm
    | RsiCaca(duration: nat)
    | RsiProportionalWithTrends(duration: nat, trendThreshold: real)
    | RsiThresholds(duration: nat, plan: InvestmentStrategy)
    | RsiThresholdsAndTrends(duration: nat, plan: InvestmentStrategy, trendThreshold: real)
    | DriverRsiProportional(duration: nat)
    | DriverRsiThresholds(duration: nat, plan: InvestmentStrategy)

  /** `RSI_of<duration>::proportional`, the alias for a trend threshold of 0. */
  function Proportional(duration: nat): (s: Strategy)
    ensures s.RsiProportionalWithTrends? && s.duration == duration && s.trendThreshold == 0.0
  {
    RsiProportionalWithTrends(duration, 0.0)
  }

  /** The `requires (duration not_eq 0)` of every RSI strategy template. */
  predicate WellFormedStrategy(s: Strategy) {
    s.LongTerm? || s.duration != 0
  }

  predicate UsesTrend(s: Strategy) {
    s.RsiProportionalWithTrends? || s.RsiThresholdsAndTrends?
  }

  /** The default `max_duration` of `rsi<>` and `trend<>`. */
  const DefaultMaxDuration: nat := 14

  /** `components_type`: the features a strategy reads, in the order of its tuple. The
      list is a valid view request: its kinds are distinct and well formed. */
  function ComponentsType(s: Strategy): (ks: seq<Kind>)
    ensures AreUniqueTtps(ks)
    ensures forall i :: 0 <= i < |ks| ==> WellFormedKind(ks[i]) && Windowed(ks[i])
    ensures s.LongTerm? <==> ks == []
    ensures !s.LongTerm? ==> ks[0].RsiKind? && (|ks| == 2 <==> UsesTrend(s)) && |ks| <= 2
    ensures UsesTrend(s) ==> ks[1].TrendKind?
  {
    match s
    case LongTerm => []
    case RsiCaca(_) => [RsiKind(Business, DefaultMaxDuration)]
    case RsiThresholds(_, _) => [RsiKind(Business, DefaultMaxDuration)]
    case RsiProportionalWithTrends(_, _) => [RsiKind(Business, DefaultMaxDuration), TrendKind(DefaultMaxDuration)]
    case RsiThresholdsAndTrends(_, _, _) => [RsiKind(Business, DefaultMaxDuration), TrendKind(DefaultMaxDuration)]
    case DriverRsiProportional(_) => [RsiKind(Driver, DefaultMaxDuration)]
    case DriverRsiThresholds(_, _) => [RsiKind(Driver, DefaultMaxDuration)]
  }

  /** `components` is a value of `components_type`: one feature of each requested kind. */
  predicate ComponentsFor(s: Strategy, components: seq<FeatureState>) {
    |components| == |ComponentsType(s)| &&
    forall i :: 0 <= i < |components| ==> components[i].kind == ComponentsType(s)[i] && ValidFeature(components[i])
  }

  // ---------------------------------------------------------------------------
  // base

  /** The fields of `base`: `current_amount_USD` and the `investement` wallet. */
  datatype AutomatonState = AutomatonState(cash: real, investment: WalletState)

  /** `total_capital()`: the wallet at its last price plus the cash. */
  function TotalCapital(a: AutomatonState): (t: real)
    ensures Solvent(a) && a.investment.currencyPrice >= 0.0 ==> t >= a.cash >= 0.0
  {
    ToUsdt(a.investment) + a.cash
  }

  /** `is_bankrupt()`: a solvent automaton is bankrupt exactly when it has neither cash nor
      a position worth anything. */
  predicate IsBankrupt(a: AutomatonState)
    ensures Solvent(a) && a.investment.currencyPrice >= 0.0 ==>
      (IsBankrupt(a) <==> a.cash == 0.0 && ToUsdt(a.investment) == 0.0)
  {
    TotalCapital(a) <= 0.0
  }

  /** Neither the cash nor the held quantity is negative. */
  predicate Solvent(a: AutomatonState) {
    a.cash >= 0.0 && WalletInvariant(a.investment)
  }

  /** The wallet has seen a price: every trade divides by it. */
  predicate Priced(a: AutomatonState) {
    a.investment.currencyPrice > 0.0
  }

  /** `base::update`: the wallet takes the record's close as its price. The bankruptcy test
      builds a `runtime_error` without throwing it, so it has no effect. */
  function Updated(a: AutomatonState, lastRecord: Record): (r: AutomatonState)
    ensures r.cash == a.cash && r.investment.currencyAmount == a.investment.currencyAmount
    ensures r.investment.currencyPrice == lastRecord.closeLast
    ensures TotalCapital(r) == a.cash + a.investment.currencyAmount * lastRecord.closeLast
    ensures lastRecord.closeLast > 0.0 ==> Priced(r)
    ensures Solvent(a) ==> Solvent(r)
  {
    a.(investment := UpdateWallet(a.investment, lastRecord))
  }

  /** `buy_up_to(value)`: nothing for a value of 0; otherwise it moves `min(value, cash)`
      from the cash into the wallet, throwing for a negative amount, and the wallet throws
      for an amount of 0. Either error leaves the automaton as it was. */
  function Bought(a: AutomatonState, value: real): (r: Result<AutomatonState>)
    requires Priced(a)
    ensures value == 0.0 ==> r == Ok(a)
    ensures value != 0.0 && Min(value, a.cash) < 0.0 ==> r == Err(CannotBuyLessThanZero)
    ensures value != 0.0 && Min(value, a.cash) == 0.0 ==> r == Err(NonPositiveAddAmount)
    ensures value != 0.0 && Min(value, a.cash) > 0.0 ==> r.Ok? && r.value.cash == a.cash - Min(value, a.cash)
    ensures r.Ok? ==> TotalCapital(r.value) == TotalCapital(a) && r.value.cash <= a.cash
    ensures r.Ok? ==> r.value.investment.currencyPrice == a.investment.currencyPrice
    ensures r.Ok? && WalletInvariant(a.investment) ==> WalletInvariant(r.value.investment)
    ensures r.Ok? && Solvent(a) ==> Solvent(r.value)
  {
    if value == 0.0 then Ok(a)
    else
      var amount := Min(value, a.cash);
      if amount < 0.0 then Err(CannotBuyLessThanZero)
      else
        var w :- AddUsdtAmount(a.investment, amount);
        Ok(AutomatonState(a.cash - amount, w))
  }

  /** `sell_up_to(value)`: nothing for a value of 0; otherwise it moves `min(value,
      to_USDT())` from the wallet into the cash, with the same two errors. */
  function Sold(a: AutomatonState, value: real): (r: Result<AutomatonState>)
    requires Priced(a) && WalletInvariant(a.investment)
    ensures value == 0.0 ==> r == Ok(a)
    ensures value != 0.0 && Min(value, ToUsdt(a.investment)) < 0.0 ==> r == Err(CannotSellLessThanZero)
    ensures value != 0.0 && Min(value, ToUsdt(a.investment)) == 0.0 ==> r == Err(NonPositiveRemoveAmount)
    ensures value != 0.0 && Min(value, ToUsdt(a.investment)) > 0.0 ==>
      r.Ok? && r.value.cash == a.cash + Min(value, ToUsdt(a.investment))
    ensures r.Ok? ==> TotalCapital(r.value) == TotalCapital(a) && r.value.cash >= a.cash
    ensures r.Ok? ==> r.value.investment.currencyPrice == a.investment.currencyPrice
    ensures r.Ok? ==> WalletInvariant(r.value.investment)
    ensures r.Ok? && Solvent(a) ==> Solvent(r.value)
  {
    if value == 0.0 then Ok(a)
    else
      var amount := Min(value, ToUsdt(a.investment));
      if amount < 0.0 then Err(CannotSellLessThanZero)
      else
        var w :- RemoveUsdtAmount(a.investment, amount);
        Ok(AutomatonState(a.cash + amount, w))
  }

  // ---------------------------------------------------------------------------
  // process

  /** The amount a buy leg asks for: a share of the cash. */
  function BuyValue(a: AutomatonState, factor: real): (v: real)
    ensures a.cash >= 0.0 && 0.0 <= factor <= 1.0 ==> 0.0 <= v <= a.cash
    ensures a.cash > 0.0 && factor < 0.0 ==> v < 0.0
  {
    a.cash * factor
  }

  /** The amount a sell leg asks for: a share of the position at its last price. */
  function SellValue(a: AutomatonState, factor: real): (v: real)
    ensures WalletInvariant(a.investment) && Priced(a) && 0.0 <= factor <= 1.0 ==> 0.0 <= v <= ToUsdt(a.investment)
  {
    ToUsdt(a.investment) * factor
  }

  /** The two consecutive `if`s that end every RSI strategy: when its buy leg fires, buy
      `cash * buyFactor`; then, on the state the buy left, when the sell leg fires, sell
      `to_USDT() * sellFactor`. */
  function Legs(a: AutomatonState, buyFactor: Option<real>, sellFactor: Option<real>): (r: Result<AutomatonState>)
    requires Priced(a) && WalletInvariant(a.investment)
    ensures buyFactor.None? && sellFactor.None? ==> r == Ok(a)
    ensures r.Ok? ==> TotalCapital(r.value) == TotalCapital(a)
    ensures r.Ok? ==> Priced(r.value) && WalletInvariant(r.value.investment)
    ensures r.Ok? && Solvent(a) ==> Solvent(r.value)
  {
    var b :- if buyFactor.Some? then Bought(a, BuyValue(a, buyFactor.value)) else Ok(a);
    if sellFactor.Some? then Sold(b, SellValue(b, sellFactor.value)) else Ok(b)
  }

  /** The sell leg works on the state the buy leg left (or on the initial state when the
      buy leg did not fire). */
  lemma LegsAreSequential(a: AutomatonState, b: AutomatonState, buyFactor: Option<real>, sellFactor: Option<real>)
    requires Priced(a) && WalletInvariant(a.investment)
    requires buyFactor.Some? ==> Bought(a, BuyValue(a, buyFactor.value)) == Ok(b)
    requires buyFactor.None? ==> a == b
    ensures Priced(b) && WalletInvariant(b.investment)
    ensures Legs(a, buyFactor, sellFactor) ==
      if sellFactor.Some? then Sold(b, SellValue(b, sellFactor.value)) else Ok(b)
  {
  }

  /** The proportional buy leg: below 50, buy the share `1 - rsi / 50` of the cash. */
  function ProportionalBuy(x: RsiReading): (f: Option<real>)
    ensures f.Some? <==> Below(x, 50.0)
    ensures f.Some? ==> 0.0 < f.value <= 1.0 && f.value == 1.0 - x.rate / 50.0
  {
    if Below(x, 50.0) then Some(1.0 - x.rate / 50.0) else None
  }

  /** The proportional sell leg: above 50, sell the share `rsi / 50 - 1` of the position. */
  function ProportionalSell(x: RsiReading): (f: Option<real>)
    ensures f.Some? <==> Above(x, 50.0)
    ensures f.Some? ==> 0.0 < f.value <= 1.0 && f.value == x.rate / 50.0 - 1.0
  {
    if Above(x, 50.0) then Some(x.rate / 50.0 - 1.0) else None
  }

  /** The threshold legs: strictly below the buy threshold, or strictly above the sell
      threshold, trade the `investment` share. */
  function ThresholdBuy(x: RsiReading, plan: InvestmentStrategy): (f: Option<real>)
    ensures f.Some? <==> Below(x, plan.buyThreshold as real)
    ensures f.Some? ==> f.value == plan.investment
  {
    if Below(x, plan.buyThreshold as real) then Some(plan.investment) else None
  }

  function ThresholdSell(x: RsiReading, plan: InvestmentStrategy): (f: Option<real>)
    ensures f.Some? <==> Above(x, plan.sellThreshold as real)
    ensures f.Some? ==> f.value == plan.investment
  {
    if Above(x, plan.sellThreshold as real) then Some(plan.investment) else None
  }

  /** A leg the trend strategies take only in the direction `wanted`. */
  function Gate(trend: Option<TrendValue>, wanted: TrendValue, leg: Option<real>): (f: Option<real>)
    ensures f.Some? <==> trend == Some(wanted) && leg.Some?
    ensures f.Some? ==> f == leg
  {
    if trend == Some(wanted) then leg else None
  }

  /** The strategies that trade a fixed `investment` share between two thresholds. */
  predicate Thresholded(s: Strategy) {
    s.RsiThresholds? || s.RsiThresholdsAndTrends? || s.DriverRsiThresholds?
  }

  /** The RSI below which a strategy buys: its buy threshold, or 50 for the proportional ones. */
  function BuyLevel(s: Strategy): (l: real)
    requires !s.LongTerm?
    ensures l >= 0.0
    ensures !Thresholded(s) ==> l == 50.0
  {
    if Thresholded(s) then s.plan.buyThreshold as real else 50.0
  }

  /** The RSI above which a strategy sells: its sell threshold, or 50. */
  function SellLevel(s: Strategy): (l: real)
    requires !s.LongTerm?
    ensures l >= 0.0
    ensures !Thresholded(s) ==> l == 50.0
  {
    if Thresholded(s) then s.plan.sellThreshold as real else 50.0
  }

  /** The legs a reading triggers for each RSI strategy: the buy leg fires exactly when the
      RSI is strictly below the buy level (and, for the trend strategies, the trend is up),
      the sell leg exactly when it is strictly above the sell level (and the trend is down).
      Only the threshold strategies without a trend can fire both on the same reading. */
  function Decide(s: Strategy, x: RsiReading, trend: Option<TrendValue>): (legs: (Option<real>, Option<real>))
    requires !s.LongTerm?
    ensures legs.0.Some? <==> (UsesTrend(s) ==> trend == Some(Up)) && Below(x, BuyLevel(s))
    ensures legs.1.Some? <==> (UsesTrend(s) ==> trend == Some(Down)) && Above(x, SellLevel(s))
    ensures legs.0.Some? ==> if Thresholded(s) then legs.0.value == s.plan.investment else 0.0 < legs.0.value <= 1.0
    ensures legs.1.Some? ==> if Thresholded(s) then legs.1.value == s.plan.investment else 0.0 < legs.1.value <= 1.0
    ensures legs.0.Some? && legs.1.Some? ==> s.RsiThresholds? || s.DriverRsiThresholds?
  {
    match s
    case RsiCaca(_) => (ProportionalBuy(x), ProportionalSell(x))
    case DriverRsiProportional(_) => (ProportionalBuy(x), ProportionalSell(x))
    case RsiThresholds(_, plan) => (ThresholdBuy(x, plan), ThresholdSell(x, plan))
    case DriverRsiThresholds(_, plan) => (ThresholdBuy(x, plan), ThresholdSell(x, plan))
    case RsiProportionalWithTrends(_, _) => (Gate(trend, Up, ProportionalBuy(x)), Gate(trend, Down, ProportionalSell(x)))
    case RsiThresholdsAndTrends(_, plan, _) => (Gate(trend, Up, ThresholdBuy(x, plan)), Gate(trend, Down, ThresholdSell(x, plan)))
  }

  /** The trend a strategy reads, if it reads one: `trend.value_for_duration(duration,
      threshold)`. It is read after the RSI, which has already thrown for every duration the
      trend rejects, so it yields a value or none. */
  function TrendRead(s: Strategy, components: seq<FeatureState>): (t: Option<TrendValue>)
    requires WellFormedStrategy(s) && ComponentsFor(s, components) && !s.LongTerm? && s.duration >= 2
    ensures !UsesTrend(s) ==> t == None
    ensures UsesTrend(s) ==> TrendValueForDuration(components[1].cache, s.duration, s.trendThreshold) == Ok(t)
  {
    if UsesTrend(s) then TrendValueForDuration(components[1].cache, s.duration, s.trendThreshold).value
    else None
  }

  /** The `process` of an RSI strategy: read the RSI (then the trend), do nothing without a
      value (or, for a trend strategy, without a trend or on a stable one), otherwise run
      the two legs. */
  function RsiStrategyProcessed(s: Strategy, a: AutomatonState, components: seq<FeatureState>): (r: Result<AutomatonState>)
    requires WellFormedStrategy(s) && ComponentsFor(s, components) && !s.LongTerm?
    requires Priced(a) && WalletInvariant(a.investment)
    ensures s.duration == 1 ==> r == Err(InvalidDuration)
    ensures r.Ok? ==> TotalCapital(r.value) == TotalCapital(a)
    ensures r.Ok? ==> Priced(r.value) && WalletInvariant(r.value.investment)
    ensures r.Ok? && Solvent(a) ==> Solvent(r.value)
  {
    var rsi :- RsiOf(components[0], s.duration);
    var trend := TrendRead(s, components);
    if rsi.None? || (UsesTrend(s) && (trend.None? || trend.value == Stable)) then Ok(a)
    else
      var legs := Decide(s, rsi.value, trend);
      Legs(a, legs.0, legs.1)
  }

  /** `process(components)`, with the flag of `long_term`'s function-local static threaded
      through: it is a single object for every `long_term` automaton, and is set once the
      first call's `buy_up_to(current_amount_USD)` has returned. No `process` changes the
      total capital. */
  function Processed(s: Strategy, a: AutomatonState, components: seq<FeatureState>, fired: bool): (r: Result<(AutomatonState, bool)>)
    requires WellFormedStrategy(s) && ComponentsFor(s, components)
    requires Priced(a) && WalletInvariant(a.investment)
    ensures r.Ok? ==> TotalCapital(r.value.0) == TotalCapital(a)
    ensures r.Ok? ==> Priced(r.value.0) && WalletInvariant(r.value.0.investment)
    ensures r.Ok? && Solvent(a) ==> Solvent(r.value.0)
    ensures !s.LongTerm? && r.Ok? ==> r.value.1 == fired
    ensures s.LongTerm? && r.Ok? ==> r.value.1
    ensures s.LongTerm? && fired ==> r == Ok((a, true))
  {
    if s.LongTerm? then
      if fired then Ok((a, true))
      else
        var b :- Bought(a, a.cash);
        Ok((b, true))
    else
      var b :- RsiStrategyProcessed(s, a, components);
      Ok((b, fired))
  }

  // ---------------------------------------------------------------------------
  // properties of the strategies

  /** Legs with non-negative factors never throw on a solvent automaton: a positive value
      is never clamped below what it asks for by an empty side with cash or position left. */
  lemma LegsOfNonNegativeFactorsSucceed(a: AutomatonState, buyFactor: Option<real>, sellFactor: Option<real>)
    requires Priced(a) && Solvent(a)
    requires buyFactor.Some? ==> buyFactor.value >= 0.0
    requires sellFactor.Some? ==> sellFactor.value >= 0.0
    ensures Legs(a, buyFactor, sellFactor).Ok?
  {
    var b := a;
    if buyFactor.Some? {
      BuyOfNonNegativeShareSucceeds(a, buyFactor.value);
      b := Bought(a, BuyValue(a, buyFactor.value)).value;
    }
    LegsAreSequential(a, b, buyFactor, sellFactor);
    if sellFactor.Some? {
      SellOfNonNegativeShareSucceeds(b, sellFactor.value);
    }
  }

  lemma BuyOfNonNegativeShareSucceeds(a: AutomatonState, factor: real)
    requires Priced(a) && Solvent(a) && factor >= 0.0
    ensures Bought(a, BuyValue(a, factor)).Ok? && Solvent(Bought(a, BuyValue(a, factor)).value)
  {
    var value := BuyValue(a, factor);
    assert value >= 0.0;
    if value != 0.0 {
      assert a.cash > 0.0;
      assert Min(value, a.cash) > 0.0;
    }
  }

  lemma SellOfNonNegativeShareSucceeds(a: AutomatonState, factor: real)
    requires Priced(a) && Solvent(a) && factor >= 0.0
    ensures Sold(a, SellValue(a, factor)).Ok? && Solvent(Sold(a, SellValue(a, factor)).value)
  {
    var position := ToUsdt(a.investment);
    assert position >= 0.0;
    var value := SellValue(a, factor);
    assert value == position * factor;
    assert value >= 0.0;
    if value != 0.0 {
      assert position > 0.0;
      assert Min(value, position) > 0.0;
    }
  }

  /** The legs an RSI strategy runs on a valid duration, if any. */
  lemma RsiStrategyRunsLegs(s: Strategy, a: AutomatonState, components: seq<FeatureState>)
    requires !s.LongTerm? && s.duration >= 2 && ComponentsFor(s, components)
    requires Priced(a) && WalletInvariant(a.investment)
    ensures var rsi := RsiOf(components[0], s.duration).value;
      var trend := TrendRead(s, components);
      RsiStrategyProcessed(s, a, components) ==
        if rsi.None? || (UsesTrend(s) && (trend.None? || trend.value == Stable)) then Ok(a)
        else Legs(a, Decide(s, rsi.value, trend).0, Decide(s, rsi.value, trend).1)
  {
  }

  /** The proportional strategies never throw on a solvent automaton once their duration
      is valid: both their factors lie in (0, 1]. */
  lemma ProportionalNeverFails(s: Strategy, a: AutomatonState, components: seq<FeatureState>, fired: bool)
    requires s.RsiCaca? || s.RsiProportionalWithTrends? || s.DriverRsiProportional?
    requires s.duration >= 2 && ComponentsFor(s, components)
    requires Priced(a) && Solvent(a)
    ensures Processed(s, a, components, fired).Ok?
  {
    RsiStrategyRunsLegs(s, a, components);
    var rsi := RsiOf(components[0], s.duration).value;
    var trend := TrendRead(s, components);
    if rsi.Some? {
      var legs := Decide(s, rsi.value, trend);
      LegsOfNonNegativeFactorsSucceed(a, legs.0, legs.1);
    }
  }

  /** The threshold strategies never throw on a solvent automaton when the investment
      coefficient is not negative... */
  lemma ThresholdsNeverFail(s: Strategy, a: AutomatonState, components: seq<FeatureState>, fired: bool)
    requires s.RsiThresholds? || s.RsiThresholdsAndTrends? || s.DriverRsiThresholds?
    requires s.duration >= 2 && s.plan.investment >= 0.0 && ComponentsFor(s, components)
    requires Priced(a) && Solvent(a)
    ensures Processed(s, a, components, fired).Ok?
  {
    RsiStrategyRunsLegs(s, a, components);
    var rsi := RsiOf(components[0], s.duration).value;
    var trend := TrendRead(s, components);
    if rsi.Some? {
      var legs := Decide(s, rsi.value, trend);
      LegsOfNonNegativeFactorsSucceed(a, legs.0, legs.1);
    }
  }

  /** ...and a negative coefficient throws `cannot BUY less than 0` as soon as the buy leg
      fires with cash in hand. */
  lemma NegativeInvestmentFails(s: Strategy, a: AutomatonState, components: seq<FeatureState>, x: RsiReading, fired: bool)
    requires s.RsiThresholds? || s.DriverRsiThresholds?
    requires s.duration >= 2 && s.plan.investment < 0.0 && ComponentsFor(s, components)
    requires Priced(a) && Solvent(a) && a.cash > 0.0
    requires RsiOf(components[0], s.duration) == Ok(Some(x)) && Below(x, s.plan.buyThreshold as real)
    ensures Processed(s, a, components, fired) == Err(CannotBuyLessThanZero)
  {
    RsiStrategyRunsLegs(s, a, components);
    var legs := Decide(s, x, None);
    assert legs.0 == Some(s.plan.investment);
    NegativeBuyLegFails(a, s.plan.investment, legs.1);
  }

  /** A buy leg asking for a negative share of a positive cash amount throws. */
  lemma NegativeBuyLegFails(a: AutomatonState, factor: real, sellFactor: Option<real>)
    requires Priced(a) && WalletInvariant(a.investment) && a.cash > 0.0 && factor < 0.0
    ensures Legs(a, Some(factor), sellFactor) == Err(CannotBuyLessThanZero)
  {
    NegativeShare(a.cash, factor);
    assert Bought(a, BuyValue(a, factor)) == Err(CannotBuyLessThanZero);
  }

  lemma NegativeShare(amount: real, factor: real)
    requires amount > 0.0 && factor < 0.0
    ensures amount * factor < 0.0
  {
    assert amount * -factor > 0.0;
  }

  /** `RSI_of<1>` satisfies the template constraint but every `process` throws: the RSI
      rejects a duration of 1, whatever the origin of the feature. */
  lemma DurationOneAlwaysFails(s: Strategy, a: AutomatonState, components: seq<FeatureState>, fired: bool)
    requires !s.LongTerm? && s.duration == 1 && ComponentsFor(s, components)
    requires Priced(a) && WalletInvariant(a.investment)
    ensures Processed(s, a, components, fired) == Err(InvalidDuration)
  {
  }

  /** A NaN reading (no gain and no loss in the window) triggers no leg of any strategy. */
  lemma IndeterminateNeverTrades(s: Strategy, trend: Option<TrendValue>)
    requires !s.LongTerm?
    ensures Decide(s, Indeterminate, trend) == (None, None)
  {
  }

  /** The proportional legs exclude each other; an RSI of exactly 50 triggers neither. */
  lemma ProportionalLegsExclusive(x: RsiReading)
    ensures !(ProportionalBuy(x).Some? && ProportionalSell(x).Some?)
    ensures x.Level? && x.rate == 50.0 ==> ProportionalBuy(x).None? && ProportionalSell(x).None?
  {
  }

  /** The thresholds are strict: with 30/70, readings of 30 and 70 trigger nothing, 29 buys
      and 71 sells. */
  lemma ThresholdsAreStrict(d: nat, coefficient: real)
    ensures var s := RsiThresholds(d, InvestmentStrategy(30, 70, coefficient));
      Decide(s, Level(30.0), None) == (None, None) &&
      Decide(s, Level(70.0), None) == (None, None) &&
      Decide(s, Level(29.0), None) == (Some(coefficient), None) &&
      Decide(s, Level(71.0), None) == (None, Some(coefficient))
  {
  }

  /** With crossed thresholds (buy above sell), a reading between them fires both legs: the
      sell then works on the position the buy just grew. */
  lemma CrossedThresholdsTradeTwice(d: nat, coefficient: real, x: Rate)
    requires 30.0 < x < 70.0
    ensures Decide(RsiThresholds(d, InvestmentStrategy(70, 30, coefficient)), Level(x), None) ==
      (Some(coefficient), Some(coefficient))
  {
  }

  /** `caca` ignores the trend that `proportional` reads: on a downward trend with an RSI
      below 50, `caca` buys and `proportional` does nothing. */
  lemma CacaIgnoresTrend(d: nat, x: Rate)
    requires x < 50.0
    ensures Decide(RsiCaca(d), Level(x), None).0.Some?
    ensures Decide(Proportional(d), Level(x), Some(Down)) == (None, None)
  {
  }

  /** `long_term` puts all its cash in the asset on its first `process` and never trades
      again: the first call leaves no cash and a position worth the old one plus the old
      cash, at the same price, and a second call changes nothing. */
  lemma LongTermBuysOnce(a: AutomatonState)
    requires Priced(a) && Solvent(a)
    ensures var r := Processed(LongTerm, a, [], false);
      r.Ok? && r.value.1 &&
      r.value.0.cash == 0.0 && ToUsdt(r.value.0.investment) == ToUsdt(a.investment) + a.cash &&
      r.value.0.investment.currencyPrice == a.investment.currencyPrice &&
      Processed(LongTerm, r.value.0, [], true) == Ok((r.value.0, true))
  {
    if a.cash > 0.0 {
      assert Min(a.cash, a.cash) == a.cash;
    }
  }

  /** `buy_up_to(cash)` followed by `sell_up_to(total_capital())` at the same price turns the
      whole capital back into cash and empties the position; an automaton that held no
      position gets exactly its cash back. */
  lemma BuyAllThenSellAll(a: AutomatonState)
    requires Priced(a) && Solvent(a)
    ensures Bought(a, a.cash).Ok?
    ensures var b := Bought(a, a.cash).value;
      var c := Sold(b, TotalCapital(b));
      c.Ok? && c.value.cash == TotalCapital(a) && c.value.investment.currencyAmount == 0.0 &&
      (a.investment.currencyAmount == 0.0 ==> c.value.cash == a.cash)
  {
    if a.cash > 0.0 {
      assert Min(a.cash, a.cash) == a.cash;
    }
    var b := Bought(a, a.cash).value;
    assert b.cash == 0.0;
    assert TotalCapital(b) == ToUsdt(b.investment);
    if ToUsdt(b.investment) > 0.0 {
      var w := b.investment;
      assert Min(TotalCapital(b), ToUsdt(w)) == ToUsdt(w);
      assert ToUsdt(w) / w.currencyPrice == w.currencyAmount;
      assert Min(w.currencyAmount, ToUsdt(w) / w.currencyPrice) == w.currencyAmount;
    }
  }

  // ---------------------------------------------------------------------------
  // the automaton object

  /** An automaton object: `current_amount_USD` and the `investement` wallet it owns. */
  class Automaton {
    const strategy: Strategy
    var cash: real
    const investment: Wallet

    function State(): AutomatonState
      reads this, investment
    {
      AutomatonState(cash, investment.State())
    }

    constructor (strategy: Strategy, initialAmount: real)
      ensures this.strategy == strategy
      ensures State() == AutomatonState(initialAmount, FreshWallet) && fresh(investment)
    {
      this.strategy := strategy;
      cash := initialAmount;
      investment := new Wallet();
    }

    method Update(lastRecord: Record)
      modifies investment
      ensures State() == Updated(old(State()), lastRecord)
    {
      investment.Update(lastRecord);
    }

    method BuyUpTo(value: real) returns (o: Outcome)
      requires Priced(State())
      modifies this, investment
      ensures var r := Bought(old(State()), value);
        (o.Fail? <==> r.Err?) &&
        (r.Err? ==> o.error == r.error && State() == old(State())) &&
        (r.Ok? ==> State() == r.value)
    {
      if value == 0.0 {
        return Pass;
      }
      var amount := Min(value, cash);
      if amount < 0.0 {
        return Fail(CannotBuyLessThanZero);
      }
      cash := cash - amount;
      o := investment.AddUsdt(amount);
    }

    method SellUpTo(value: real) returns (o: Outcome)
      requires Priced(State()) && WalletInvariant(State().investment)
      modifies this, investment
      ensures var r := Sold(old(State()), value);
        (o.Fail? <==> r.Err?) &&
        (r.Err? ==> o.error == r.error && State() == old(State())) &&
        (r.Ok? ==> State() == r.value)
    {
      if value == 0.0 {
        return Pass;
      }
      var amount := Min(value, ToUsdt(investment.State()));
      if amount < 0.0 {
        return Fail(CannotSellLessThanZero);
      }
      cash := cash + amount;
      o := investment.RemoveUsdt(amount);
    }

    /** The two legs of an RSI strategy, run in place. */
    method RunLegs(buyFactor: Option<real>, sellFactor: Option<real>) returns (o: Outcome)
      requires Priced(State()) && WalletInvariant(State().investment)
      modifies this, investment
      ensures var r := Legs(old(State()), buyFactor, sellFactor);
        (o.Fail? <==> r.Err?) &&
        (r.Err? ==> o.error == r.error) &&
        (r.Ok? ==> State() == r.value)
    {
      ghost var before := State();
      o := Pass;
      if buyFactor.Some? {
        o := BuyUpTo(BuyValue(State(), buyFactor.value));
        if o.Fail? {
          return;
        }
      }
      LegsAreSequential(before, State(), buyFactor, sellFactor);
      if sellFactor.Some? {
        o := SellUpTo(SellValue(State(), sellFactor.value));
      }
    }

    /** `process` of an RSI strategy. */
    method ProcessRsi(components: seq<FeatureState>) returns (o: Outcome)
      requires WellFormedStrategy(strategy) && ComponentsFor(strategy, components) && !strategy.LongTerm?
      requires Priced(State()) && WalletInvariant(State().investment)
      modifies this, investment
      ensures var r := RsiStrategyProcessed(strategy, old(State()), components);
        (o.Fail? <==> r.Err?) &&
        (r.Err? ==> o.error == r.error) &&
        (r.Ok? ==> State() == r.value)
    {
      var rsi := RsiOf(components[0], strategy.duration);
      if rsi.Err? {
        return Fail(rsi.error);
      }
      RsiStrategyRunsLegs(strategy, State(), components);
      var trend := TrendRead(strategy, components);
      if rsi.value.None? || (UsesTrend(strategy) && (trend.None? || trend.value == Stable)) {
        return Pass;
      }
      var legs := Decide(strategy, rsi.value.value, trend);
      o := RunLegs(legs.0, legs.1);
    }

    method Process(components: seq<FeatureState>, fired: bool) returns (o: Outcome, firedAfter: bool)
      requires WellFormedStrategy(strategy) && ComponentsFor(strategy, components)
      requires Priced(State()) && WalletInvariant(State().investment)
      modifies this, investment
      ensures var r := Processed(strategy, old(State()), components, fired);
        (o.Fail? <==> r.Err?) &&
        (r.Err? ==> o.error == r.error) &&
        (r.Ok? ==> State() == r.value.0 && firedAfter == r.value.1)
    {
      firedAfter := fired;
      if strategy.LongTerm? {
        if !fired {
          o := BuyUpTo(cash);
          firedAfter := o.Pass?;
        } else {
          o := Pass;
        }
      } else {
        o := ProcessRsi(components);
      }
    }
  }
}
