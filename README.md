# A verified model of the TradingBotsExperiments engine

The engine replays a daily price history through rolling technical indicators and a set of
trading automata. Each automaton owns a cash balance and a wallet of the traded asset.

- **Input.** The history is read from a CSV file, one `record` per line. The records are
  stacked so that the last line is on top.
- **Indicators.** The feature bank holds a last-record cache and a windowed RSI. The business
  headers also define `trend` and `roc`. Each indicator keeps a bounded window of records,
  newest first.
- **Automata.** For every popped record, each automaton refreshes its wallet price, then reads
  the indicators its `components_type` names and buys or sells. Strategies are `long_term`,
  `caca`, `proportional_with_trends`, `thresholds`, `thresholds_and_trends` and the driver's
  `RSI_proportional` and `RSI_thresholds`.
- **Report.** At the end each automaton reports its total capital, its profit or loss and
  its rate.

The model is written in Dafny, one module per source unit:

- `Outcomes`: the error values and `Result`/`Outcome` wrappers.
- `Seqs`: sequence reversal, used for the record stack.
- `DataTypes`, for `data_types.hpp`:
  - `rate` is a range-checked real;
  - `record` has its date-only equality and its derived measures;
  - the wallet is a value `WalletState` with pure operations, and a `Wallet` class runs them in place.
- `Indices`, for `business/indices.hpp`:
  - the window update;
  - the RSI, trend and ROC queries, as functions over the window (newest first).
- `Input`: the driver's own `input::rsi` query in `source.cpp`.
- `Features`: the feature kinds, the `FeatureState` value, and the `Feature` class whose
  `Update` pushes into the window in place.
- `Mp`: pack uniqueness (`are_unique_ttps`, `are_unique_nttps`, `StorageType`), as predicates
  over sequences of kinds or values.
- `TupleView`: `make_tuple_view`, as the list of storage positions a request selects.
- `Automata`:
  - the strategies as a datatype;
  - `base`'s `buy_up_to`/`sell_up_to` and each strategy's `process`, as pure functions;
  - an `Automaton` class whose methods mutate cash and wallet and are proved against those
    functions.
- `Csv`, for `io.hpp`:
  - `extract_last_field` and `make_record` over a `LineBuffer` class that shrinks in place;
  - `generate_datas` as a loop that fills the stack.
- `Simulation`, for `run_for_datas`:
  - the configuration: every strategy's view of the bank;
  - the pure run over the stack (`Run`/`Step`/`ProcessFrom`);
  - the imperative `RunForDatas`, which pops the stack and mutates feature and automaton
    objects, proved equal to the pure run.

Amounts, prices and rates are real numbers. Every record's closing price must be positive,
because the engine divides by it.

The RSI with no losses in its window follows what the source's floating-point division
yields:
- some gain gives 100;
- no gain and no loss (0/0) gives the `Indeterminate` reading, which every comparison treats
  as false, so no strategy trades on it.

## Model

| member | source | states |
|---|---|---|
| DataTypes.MakeRate | includes/trading_bots/data_types.hpp:12-16 | a rate is built exactly from arguments in [0, 100]; any other argument is the range error |
| DataTypes.AssignRate | includes/trading_bots/data_types.hpp:17-21 | assignment succeeds exactly in [0, 100] and stores the argument; a rejected value leaves the target unchanged |
| DataTypes.SameRecordIgnoresPrices | includes/trading_bots/data_types.hpp:43-45 | two records are equal exactly when they differ at most in prices and volume, i.e. they have the same date |
| DataTypes.SameRecord | includes/trading_bots/data_types.hpp:43-45 | structurally equal records are equal records |
| DataTypes.SameRecordIsEquivalence | includes/trading_bots/data_types.hpp:43-45 | record equality is reflexive, symmetric and transitive |
| DataTypes.PriceFluctuationRate | includes/trading_bots/data_types.hpp:47-49 | for a positive open, above 1 exactly when the record closed above its open, and exactly 1 when it closed at it |
| DataTypes.Variation | includes/trading_bots/data_types.hpp:50-52 | positive exactly when the record closed below its open, zero exactly when it closed at it |
| DataTypes.VariationRate | includes/trading_bots/data_types.hpp:53-55 | for a positive open, positive exactly when the record closed above its open |
| DataTypes.Amplitude | includes/trading_bots/data_types.hpp:56-58 | non-negative exactly when high >= low |
| DataTypes.AmplitudeRate | includes/trading_bots/data_types.hpp:59-61 | for a positive low, non-negative exactly when high >= low |
| DataTypes.VariationSignsOpposed | includes/trading_bots/data_types.hpp:50-55 | for a positive open, `variation_rate` has the opposite sign of `variation`, is zero exactly with it, and equals `-variation / open` |
| DataTypes.EnsureDataIntegrity | includes/trading_bots/data_types.hpp:70-75 | a record passes exactly when its date is non-empty and high >= low; each failure gives its own error; a passing record has non-negative amplitude |
| DataTypes.AmplitudeRateOfCheckedRecord | includes/trading_bots/data_types.hpp:56-61 | a checked record with a positive low has a non-negative amplitude rate |
| DataTypes.FreshWalletIsEmpty | includes/trading_bots/data_types.hpp:122-123 | a default wallet satisfies the wallet invariant and is worth 0 |
| DataTypes.UpdateWallet | includes/trading_bots/data_types.hpp:94-96 | the price becomes the record's close and the quantity is unchanged; the invariant is kept; the same price changes nothing |
| DataTypes.ToUsdt | includes/trading_bots/data_types.hpp:97-99 | a wallet with no negative quantity at a non-negative price is worth at least 0; at a positive price it is worth 0 exactly when it holds nothing |
| DataTypes.AddUsdtAmount | includes/trading_bots/data_types.hpp:111-118 | rejects exactly a non-positive amount; otherwise the wallet's value rises by exactly the amount at an unchanged price, and the invariant is kept |
| DataTypes.RemoveUsdtAmount | includes/trading_bots/data_types.hpp:100-110 | rejects exactly a non-positive amount; otherwise the value falls by exactly the amount, the quantity decreases and never goes negative |
| DataTypes.AddThenRemoveRestores | includes/trading_bots/data_types.hpp:100-118 | adding then removing the same amount at an unchanged price gives back the original wallet |
| DataTypes.Wallet.constructor | includes/trading_bots/data_types.hpp:122-123 | a new wallet object holds the default wallet |
| DataTypes.Wallet.Update | includes/trading_bots/data_types.hpp:94-96 | the object's new state is `UpdateWallet` of its old state |
| DataTypes.Wallet.AddUsdt | includes/trading_bots/data_types.hpp:111-118 | fails exactly when `AddUsdtAmount` fails, with its error and the state unchanged; otherwise the new state is its result |
| DataTypes.Wallet.RemoveUsdt | includes/trading_bots/data_types.hpp:100-110 | fails exactly when `RemoveUsdtAmount` fails, with its error and the state unchanged; otherwise the new state is its result |
| Indices.PushFront | includes/trading_bots/business/indices.hpp:35-40 | the new record is in front; the window grows by one until `max_duration`, then the oldest entry is dropped; what follows the front is the old window's prefix |
| Indices.Fed | includes/trading_bots/business/indices.hpp:35-40 | after any sequence of updates from empty, the window holds `min(count, max_duration)` records, the last one fed in front |
| Indices.FedIsNewestFirst | includes/trading_bots/business/indices.hpp:35-40 | a window fed with a sequence of records holds its `max_duration` latest records, newest first |
| Indices.Variations | includes/trading_bots/business/indices.hpp:59-61 | one percent change per consecutive pair of the read range, `(newer / older) * 100 - 100` |
| Indices.PercentChange | includes/trading_bots/business/indices.hpp:60 | the variation is positive exactly when the newer close is above the older one, and zero exactly when they are equal |
| Indices.PercentChangeZeroIffFlat | includes/trading_bots/business/indices.hpp:60 | a variation is zero exactly when the two closes are equal |
| Indices.GainSum | includes/trading_bots/business/indices.hpp:55-66 | the gain fold is never negative |
| Indices.LossSum | includes/trading_bots/business/indices.hpp:67-78 | the loss fold is never negative |
| Indices.GainSumZeroIffNoGain | includes/trading_bots/business/indices.hpp:55-66 | the gain fold is zero exactly when no variation is positive |
| Indices.NoGainNoLossIffAllZero | includes/trading_bots/business/indices.hpp:55-78 | both folds are zero exactly when every variation is zero |
| Indices.GainMinusLossIsSum | includes/trading_bots/business/indices.hpp:55-78 | the gain sum minus the loss sum is the sum of the variations: each variation counts on exactly one side |
| Indices.LossSumZeroIffNoLoss | includes/trading_bots/business/indices.hpp:67-78 | the loss sum is zero exactly when no variation is negative |
| Indices.GainSumPositive | includes/trading_bots/business/indices.hpp:55-66 | one positive variation makes the gain sum positive |
| Indices.RsiFormula | includes/trading_bots/business/indices.hpp:80-84 | with a positive loss average, `100 - 100 / (1 + g / l)` lies below 100 and is a valid rate; with zero loss, 100 on some gain and `Indeterminate` on none |
| Indices.Below | includes/trading_bots/business/automatas.hpp:123-125 | `*rsi_value < x` is false on a NaN reading, and a reading below `x` is not above it |
| Indices.Above | includes/trading_bots/business/automatas.hpp:125-126 | `*rsi_value > x` is false on a NaN reading |
| Indices.RsiIsGainShare | includes/trading_bots/business/indices.hpp:80-84 | the formula equals `100 * g / (g + l)` whenever g + l > 0 |
| Indices.OldestFirst | includes/trading_bots/business/indices.hpp:51-52 | the read range is the `duration` oldest entries of the window, from the back |
| Indices.RsiOfWindowAverages | includes/trading_bots/business/indices.hpp:51-84 | the reading of a window is the formula applied to its gain and loss folds, each divided by `duration - 1` |
| Indices.RsiOfWindow | includes/trading_bots/business/indices.hpp:51-84 | the RSI of a window of at least `duration >= 2` records never fails: the result always converts to a rate |
| Indices.RsiIndeterminateIffFlat | includes/trading_bots/business/indices.hpp:51-84 | the reading is NaN exactly when every close of the `duration` oldest records equals the next one |
| Indices.RsiValueForDuration | includes/trading_bots/business/indices.hpp:43-85 | an error exactly for duration <= 1; no value exactly when fewer than `duration` records are held; otherwise the RSI of the oldest `duration` records |
| Indices.RsiReadsOldest | includes/trading_bots/business/indices.hpp:51-52 | two windows with the same `duration` oldest records give the same RSI: newer records are ignored |
| Indices.RsiUnchangedUntilFull | includes/trading_bots/business/indices.hpp:35-52 | until the window is full, pushing a new record leaves the RSI unchanged |
| Indices.PercentChangeOfRise | includes/trading_bots/business/indices.hpp:59-61 | a rising close gives a positive variation |
| Indices.RisingWindowHasOnlyGains | includes/trading_bots/business/indices.hpp:51-78 | when the closes rise towards the front, the read range has a positive gain fold and a zero loss fold |
| Indices.OnlyGainsGiveHundred | includes/trading_bots/business/indices.hpp:51-84 | a read range with gains and no loss reads exactly 100 |
| Indices.RsiOfRisingWindow | includes/trading_bots/business/indices.hpp:43-85 | a window of strictly rising closes gives an RSI of exactly 100 |
| Indices.Classify | includes/trading_bots/business/indices.hpp:107-111 | `stable` exactly when `-threshold < rate < threshold`; otherwise `down` for a negative rate and `up` for a non-negative one |
| Indices.FluctuationRate | includes/trading_bots/business/indices.hpp:107 | `fluctuation_rate` is positive exactly when the latest close is above the past one, and negative exactly when it is below |
| Indices.NonPositiveThresholdNeverStable | includes/trading_bots/business/indices.hpp:107-111 | a threshold <= 0 never gives `stable`, and a rate of 0 then gives `up` |
| Indices.ClassifyIsSymmetric | includes/trading_bots/business/indices.hpp:107-111 | negating a non-zero rate swaps `up` and `down` and keeps `stable` |
| Indices.TrendValueAsWritten | includes/trading_bots/business/indices.hpp:96-112 | as written: an error exactly for duration <= 1 or a window of exactly `duration` records, the read past the end being the latter; no value exactly when fewer than `duration` records are held |
| Indices.TrendValueForDuration | includes/trading_bots/business/indices.hpp:96-112 | an error exactly for duration <= 1; no value exactly when at most `duration` records are held; otherwise the classified `cache[0] / cache[duration] - 1` |
| Indices.TrendGuardReadsPastEnd | includes/trading_bots/business/indices.hpp:101-105 | as written, a window of exactly `duration` records reads past its end; the corrected query returns no value there and agrees everywhere else |
| Indices.TrendNeverAvailableAtCapacity | includes/trading_bots/business/indices.hpp:91-102 | a `trend<max_duration>` queried at `duration >= max_duration` never has a value |
| Indices.RocValueAsWritten | includes/trading_bots/business/indices.hpp:135-151 | as written: an error exactly for duration <= 1 or a window of exactly `duration` records, the read past the end being the latter; no value exactly when fewer than `duration` records are held |
| Indices.RocValueForDuration | includes/trading_bots/business/indices.hpp:135-151 | an error exactly for duration <= 1; no value exactly when at most `duration` records are held; otherwise `(latest - past) / past * 100` |
| Indices.RocGuardReadsPastEnd | includes/trading_bots/business/indices.hpp:140-144 | as written, a window of exactly `duration` records reads past its end; the corrected query returns no value there and agrees everywhere else |
| Indices.RocIsTrendRateInPercent | includes/trading_bots/business/indices.hpp:143-151 | ROC and trend have the same error and no-value cases, and the ROC is 100 times the trend's fluctuation rate |
| Input.InputRsiValueForDuration | source.cpp:119-160 | the driver's RSI rejects only duration 1; at every non-zero duration it agrees with the business RSI |
| Features.FreshFeature | includes/trading_bots/business/indices.hpp:24-40 | a default feature has an empty window and keeps the feature invariant |
| Features.UpdateFeature | includes/trading_bots/business/indices.hpp:24-40 | `last_record` stores the input; windowed kinds push to the front and cap at `max_duration`; the stub trend is unchanged; the invariant is kept |
| Features.FeedFeature | includes/trading_bots/business/indices.hpp:35-40 | feeding any sequence of records keeps the feature invariant and the kind |
| Features.FeedWindowed | includes/trading_bots/business/indices.hpp:35-40 | a fresh windowed feature fed with records holds the `max_duration` latest ones, newest first |
| Features.FeedLastRecord | includes/trading_bots/business/indices.hpp:24-29 | a fresh `last_record` fed with records holds the last of them |
| Features.RsiOf | source.cpp:119-124 | the RSI of a feature of either origin is the business RSI of its window |
| Features.Feature.constructor | source.cpp:327-330 | a new feature object holds the default feature of its kind |
| Features.Feature.Update | source.cpp:98-116 | the object's new state is `UpdateFeature` of its old state |
| Mp.AreUniqueTtps | includes/trading_bots/details/mp.hpp:8-19 | the empty pack and every single type are unique; a pair is unique exactly when its two types differ |
| Mp.AreUniqueTtpsIsPairwiseDistinct | includes/trading_bots/details/mp.hpp:8-17 | the recursion (empty pack true; first not in rest and rest unique) holds exactly for pairwise distinct packs |
| Mp.AreUniqueNttps | includes/trading_bots/details/mp.hpp:21-30 | a single value is unique; a pair is unique exactly when its two values differ |
| Mp.UniqueSlice | includes/trading_bots/details/mp.hpp:10-12 | every contiguous sub-pack of a unique pack is unique, the tail `rest...` among them |
| Mp.NttpsAgreeWithTtps | includes/trading_bots/details/mp.hpp:21-28 | on non-empty packs, the value test and the type test agree |
| Mp.HasUniqueTtps | includes/trading_bots/details/mp.hpp:32-41 | defined exactly for tuples and instantiations of templates over types, where it is the uniqueness of the arguments; any other type (a template over values included) is a compile error |
| Mp.HasUniqueNttps | includes/trading_bots/details/mp.hpp:43-52 | defined exactly for instantiations of templates over values with a non-empty value pack, where it is the uniqueness of the values; any other type is a compile error |
| Mp.StorageType | includes/trading_bots/details/mp.hpp:61-62 | a type is a storage exactly when it is a tuple whose element kinds are pairwise distinct |
| Mp.StorageLookupIsUnambiguous | includes/trading_bots/details/mp.hpp:58-62 | in a `StorageType`, a kind occurs at one position at most |
| TupleView.PositionOf | includes/trading_bots/details/tuple_view.hpp:16-20 | `std::get<kind>` finds a position holding the kind, with no earlier occurrence |
| TupleView.MakeTupleView | includes/trading_bots/details/tuple_view.hpp:8-21 | a view is formed exactly from a unique storage and a unique request of present kinds; a missing kind and a duplicate give distinct errors; one position per request, in request order, at the unique element of that kind |
| TupleView.Project | includes/trading_bots/details/tuple_view.hpp:19-20 | the projection holds one element per view position, in view order |
| TupleView.ProjectionHasRequestedKinds | includes/trading_bots/details/tuple_view.hpp:15-21 | projecting the storage through a view gives back exactly the requested kinds, in order |
| TupleView.EmptyRequestGivesEmptyView | includes/trading_bots/details/tuple_view.hpp:19-20 | the empty request of `long_term` gives the empty view of any storage |
| Automata.Proportional | includes/trading_bots/business/automatas.hpp:168 | `proportional` is `proportional_with_trends` with a trend threshold of 0 |
| Automata.ComponentsType | includes/trading_bots/business/automatas.hpp:86-208 | no kinds for `long_term`; otherwise an RSI first, then a trend exactly for the trend strategies; the kinds are distinct and well formed |
| Automata.Updated | includes/trading_bots/business/automatas.hpp:32-37 | the wallet's price becomes the record's close and nothing else changes; the total capital becomes cash + quantity * close; solvency is kept; the bankruptcy test has no effect |
| Automata.TotalCapital | includes/trading_bots/business/automatas.hpp:39-41 | for a solvent automaton at a non-negative price, at least the cash, which is at least 0 |
| Automata.IsBankrupt | includes/trading_bots/business/automatas.hpp:42-44 | a solvent automaton at a non-negative price is bankrupt exactly when it has no cash and its position is worth nothing |
| Automata.Bought | includes/trading_bots/business/automatas.hpp:49-59 | 0 changes nothing; otherwise `min(value, cash)` is negative (error), zero (the wallet's error) or moved from cash into the wallet; total capital and solvency are kept |
| Automata.Sold | includes/trading_bots/business/automatas.hpp:60-71 | 0 changes nothing; otherwise `min(value, to_USDT())` is negative (error), zero (the wallet's error) or moved from the wallet into cash; total capital and solvency are kept |
| Automata.BuyAllThenSellAll | includes/trading_bots/business/automatas.hpp:49-71 | buying with all the cash, then selling up to the total capital at the same price, turns the whole capital back into cash and empties the position; with no position to begin with, the cash comes back exactly |
| Automata.Legs | includes/trading_bots/business/automatas.hpp:123-126 | no fired leg changes nothing; a successful buy-then-sell keeps the total capital, the price and solvency |
| Automata.BuyValue | includes/trading_bots/business/automatas.hpp:124 | a buy leg asks for between 0 and all of the cash when its share is in [0, 1], and for a negative amount when the share is negative and there is cash |
| Automata.SellValue | includes/trading_bots/business/automatas.hpp:126 | a sell leg asks for between 0 and the whole position at its last price when its share is in [0, 1] |
| Automata.LegsAreSequential | includes/trading_bots/business/automatas.hpp:194-197 | the sell leg acts on the state the buy leg left |
| Automata.ProportionalBuy | includes/trading_bots/business/automatas.hpp:123-124 | fires exactly for RSI < 50, with the share `1 - rsi / 50` in (0, 1] |
| Automata.ProportionalSell | includes/trading_bots/business/automatas.hpp:125-126 | fires exactly for RSI > 50, with the share `rsi / 50 - 1` in (0, 1] |
| Automata.ThresholdBuy | includes/trading_bots/business/automatas.hpp:194-195 | fires exactly for RSI strictly below the buy threshold, with the investment coefficient |
| Automata.ThresholdSell | includes/trading_bots/business/automatas.hpp:196-197 | fires exactly for RSI strictly above the sell threshold, with the investment coefficient |
| Automata.Gate | includes/trading_bots/business/automatas.hpp:159-164 | a trend strategy takes a leg exactly when the trend has a value and it is the leg's direction |
| Automata.Decide | includes/trading_bots/business/automatas.hpp:109-240 | the buy leg fires exactly when the RSI is strictly below the buy threshold (50 for the proportional strategies) and, for the trend strategies, the trend is up; the sell leg exactly when it is strictly above the sell threshold (50) and the trend is down; a threshold leg trades the investment share, a proportional one a share in (0, 1]; only the threshold strategies without a trend can fire both legs |
| Automata.BuyLevel | includes/trading_bots/business/automatas.hpp:123-194 | the RSI below which a strategy buys is never negative, and is 50 for the proportional strategies |
| Automata.SellLevel | includes/trading_bots/business/automatas.hpp:125-196 | the RSI above which a strategy sells is never negative, and is 50 for the proportional strategies |
| Automata.TrendRead | includes/trading_bots/business/automatas.hpp:147-148 | the trend strategies read the trend at their own duration and threshold; the others read none |
| Automata.RsiStrategyProcessed | includes/trading_bots/business/automatas.hpp:109-236 | duration 1 always throws; a successful `process` keeps the total capital, the price and solvency |
| Automata.Processed | includes/trading_bots/business/automatas.hpp:85-236 | success keeps capital and solvency; the RSI strategies leave the once-flag as it was; `long_term` sets it, and does nothing once it is set |
| Automata.LegsOfNonNegativeFactorsSucceed | includes/trading_bots/business/automatas.hpp:49-71 | legs with non-negative shares never throw on a solvent, priced automaton |
| Automata.BuyOfNonNegativeShareSucceeds | includes/trading_bots/business/automatas.hpp:49-59 | buying a non-negative share of the cash never throws and keeps solvency |
| Automata.SellOfNonNegativeShareSucceeds | includes/trading_bots/business/automatas.hpp:60-71 | selling a non-negative share of the position never throws and keeps solvency |
| Automata.RsiStrategyRunsLegs | includes/trading_bots/business/automatas.hpp:109-127 | on a valid duration, `process` is: no value means no change, otherwise the legs its decision rule gives |
| Automata.ProportionalNeverFails | includes/trading_bots/business/automatas.hpp:109-165 | the proportional strategies never throw on a solvent, priced automaton once their duration is at least 2 |
| Automata.ThresholdsNeverFail | includes/trading_bots/business/automatas.hpp:181-236 | the threshold strategies never throw on a solvent, priced automaton when their coefficient is non-negative |
| Automata.NegativeInvestmentFails | includes/trading_bots/business/automatas.hpp:194-195 | a negative coefficient throws `cannot BUY less than 0` as soon as the buy leg fires with cash |
| Automata.NegativeBuyLegFails | includes/trading_bots/business/automatas.hpp:49-56 | a buy leg asking for a negative share of positive cash throws |
| Automata.DurationOneAlwaysFails | includes/trading_bots/business/automatas.hpp:95-97 | `RSI_of<1>` passes the template constraint, yet every `process` throws the RSI's duration error |
| Automata.IndeterminateNeverTrades | includes/trading_bots/business/automatas.hpp:123-126 | an `Indeterminate` reading triggers no leg of any strategy |
| Automata.ProportionalLegsExclusive | includes/trading_bots/business/automatas.hpp:123-126 | the two proportional legs never both fire, and an RSI of exactly 50 fires neither |
| Automata.ThresholdsAreStrict | includes/trading_bots/business/automatas.hpp:194-197 | with thresholds 30/70, readings of 30 and 70 trade nothing, 29 buys and 71 sells |
| Automata.CrossedThresholdsTradeTwice | includes/trading_bots/business/automatas.hpp:194-197 | with a buy threshold above the sell threshold, a reading between them fires both legs |
| Automata.CacaIgnoresTrend | includes/trading_bots/business/automatas.hpp:109-165 | below 50, `caca` buys while `proportional` on a downward trend does nothing |
| Automata.LongTermBuysOnce | includes/trading_bots/business/automatas.hpp:85-93 | for every priced, solvent automaton, the first `process` leaves no cash, a position worth the old one plus the old cash at the same price, and sets the flag; a second call changes nothing |
| Automata.Automaton.constructor | includes/trading_bots/business/automatas.hpp:27-29 | a new automaton holds the initial cash and its own fresh wallet |
| Automata.Automaton.Update | includes/trading_bots/business/automatas.hpp:32-37 | the new state is `Updated` of the old state |
| Automata.Automaton.BuyUpTo | includes/trading_bots/business/automatas.hpp:49-59 | fails exactly when `Bought` does, with its error; otherwise the new state is its result |
| Automata.Automaton.SellUpTo | includes/trading_bots/business/automatas.hpp:60-71 | fails exactly when `Sold` does, with its error; otherwise the new state is its result |
| Automata.Automaton.RunLegs | includes/trading_bots/business/automatas.hpp:123-126 | fails exactly when `Legs` does, with its error; otherwise the new state is its result |
| Automata.Automaton.ProcessRsi | includes/trading_bots/business/automatas.hpp:109-127 | fails exactly when `RsiStrategyProcessed` does, with its error; otherwise the new state is its result |
| Automata.Automaton.Process | includes/trading_bots/business/automatas.hpp:85-236 | fails exactly when `Processed` does, with its error; otherwise the new state and the flag are its result |
| Csv.LastIndexOf | includes/trading_bots/details/io.hpp:16 | a position `rfind` returns holds the searched character |
| Csv.LastIndexOfIsLast | includes/trading_bots/details/io.hpp:16 | no position returns exactly when the character is absent; otherwise none follows the returned position |
| Csv.SplitLastField | includes/trading_bots/details/io.hpp:15-26 | fails, with "incomplete input", exactly on the empty line; a split always shortens the line |
| Csv.SplitLastFieldParts | includes/trading_bots/details/io.hpp:16-22 | with a comma, `line == rest + "," + field` and the field is comma-free; without one, the whole line is the field and nothing is left |
| Csv.SplitOfJoin | includes/trading_bots/details/io.hpp:15-26 | splitting a joined line of comma-free fields gives its last field and the join of the others |
| Csv.LastCommaPosition | includes/trading_bots/details/io.hpp:16 | the last comma of `prefix + "," + field` is the one before the comma-free field |
| Csv.SplitIsUnique | includes/trading_bots/details/io.hpp:16-19 | a line is cut before a comma-free last field in one way only |
| Csv.SplitOfAppend | includes/trading_bots/details/io.hpp:16-19 | splitting `prefix + "," + field` gives back `field` and `prefix` |
| Csv.ParsedLastField | includes/trading_bots/details/io.hpp:30 | a parsed field is the parse of the split-off last field, and the rest is what the split left |
| Csv.MakeRecordOf | includes/trading_bots/details/io.hpp:27-40 | every record made has a non-empty date and high >= low: it passes `ensure_datas_integrity` |
| Csv.MakeRecordOfLine | includes/trading_bots/details/io.hpp:27-45 | a line in the header's field order yields exactly the record of its fields |
| Csv.MakeRecordOfFields | includes/trading_bots/details/io.hpp:29-37 | fields are peeled right to left as Low, High, Open, Volume, CloseLast, Date |
| Csv.ShortLineIsIncomplete | includes/trading_bots/details/io.hpp:24-36 | a line one field short runs out before the date and throws "incomplete input" |
| Csv.LineBuffer.constructor | includes/trading_bots/details/io.hpp:27 | the buffer holds the line |
| Csv.LineBuffer.ExtractLastField | includes/trading_bots/details/io.hpp:15-26 | returns what `SplitLastField` returns and shrinks the buffer to the rest, or leaves it on error |
| Csv.LineBuffer.ExtractNumber | includes/trading_bots/details/io.hpp:30-35 | returns what `ParsedLastField` returns, with its error, and on success shrinks the buffer to the rest |
| Csv.MakeRecord | includes/trading_bots/details/io.hpp:27-40 | the record made in place on the buffer is `MakeRecordOf` of the line |
| Csv.MadeRecords | includes/trading_bots/details/io.hpp:57-65 | one `make_record` outcome per line, in file order |
| Csv.Collect | includes/trading_bots/details/io.hpp:72-73 | the generator either fails or yields one record per outcome |
| Csv.CollectIsElementwise | includes/trading_bots/details/io.hpp:72-73 | the generator succeeds exactly when every outcome is a record, and then yields each in order |
| Csv.CollectFailsAfter | includes/trading_bots/details/io.hpp:57-74 | one failed line makes the whole generation fail |
| Csv.RecordsOf | includes/trading_bots/details/io.hpp:67-75 | the records of the lines, one per line, or the generator's error |
| Csv.GenerateDatas | includes/trading_bots/details/io.hpp:67-75 | the stack the push loop fills is `RecordsOf` of the lines |
| Csv.RecordsOfIsLinewise | includes/trading_bots/details/io.hpp:57-74 | generation succeeds exactly when every line makes a record, and record `i` is line `i`'s |
| Csv.StackDeliversLastLineFirst | includes/trading_bots/details/io.hpp:71-74 | popping the stack delivers the record of the last line first, the first line's last |
| Simulation.KindsOf | source.cpp:327-330 | the kinds of the bank, one per feature, in tuple order |
| Simulation.Configure | source.cpp:319-324 | configuration succeeds exactly when every strategy meets its constraint and its `components_type` can be viewed in the bank; the views are then those the dispatcher builds |
| Simulation.BusinessStrategiesAreRejected | source.cpp:319-330 | a strategy reading a business indicator cannot be configured on the driver's bank |
| Simulation.MainStrategies | source.cpp:380-404 | `main` configures ten driver automata, each reading the RSI over at least two records; every threshold plan buys below the level where it sells and trades a share in (0, 1] |
| Simulation.DriverStorageIsAStorage | source.cpp:327-330 | the driver's bank has distinct kinds |
| Simulation.DriverStrategyReadsTheRsi | source.cpp:229-235 | a driver strategy's view is the bank's RSI, at position 1; `long_term`'s view is empty |
| Simulation.DriverConfigurationIsServed | source.cpp:319-330 | driver strategies with non-zero durations are all configured, each reading the RSI |
| Simulation.MainIsConfigured | source.cpp:380-404 | every automaton of `main` is served by the bank and reads its RSI |
| Simulation.ViewGivesComponents | source.cpp:319-324 | the dispatcher hands each automaton exactly one valid feature of each kind its `components_type` names |
| Simulation.UpdatedBank | source.cpp:343-345 | every feature of the bank is updated with the record, and the bank's kinds are unchanged |
| Simulation.ProcessOne | source.cpp:347-351 | one automaton's `update` then `process`: success leaves it priced and keeps its refreshed total capital and its solvency |
| Simulation.ProcessFrom | source.cpp:347-351 | the turns from automaton `i` on leave the earlier automata unchanged and every later one priced |
| Simulation.Step | source.cpp:335-352 | a step updates the bank first, then the automata, and keeps the engine valid |
| Simulation.Run | source.cpp:335-352 | the loop over the stack keeps the engine valid and the bank's kinds |
| Simulation.ProcessFromKeepsSolvent | source.cpp:347-351 | a turn of the automata never makes a solvent automaton insolvent |
| Simulation.RunKeepsSolvent | source.cpp:335-352 | a run never makes a solvent automaton insolvent |
| Simulation.FeedPrepend | source.cpp:343-345 | feeding `x` then the records is feeding `[x] + records` |
| Simulation.RunFeedsReversedStack | source.cpp:335-345 | a run feeds every feature the stack in pop order (top first), each record exactly once |
| Simulation.RunPopsTheTop | source.cpp:337-341 | a run over a non-empty stack steps on its top record, then runs over the rest |
| Simulation.ReportOf | source.cpp:356-369 | the report carries the total capital and the P&L `total - initial`; the rate is defined exactly when the initial amount is non-zero |
| Simulation.RateIsRelativeProfit | source.cpp:359 | the rate `total / initial * 100 - 100` is the P&L as a percentage of the initial amount, with its sign |
| Simulation.InitialEngine | source.cpp:327-331 | the driver's default bank and one automaton per strategy with the initial amount and a fresh wallet |
| Simulation.Reports | source.cpp:356-369 | one report per automaton, in configuration order |
| Simulation.Simulated | source.cpp:315-370 | a configuration error is reported first; a run reports the number of records and one line per automaton |
| Simulation.InitialEngineIsValid | source.cpp:307-331 | a configured engine starts valid |
| Simulation.SimulatedRuns | source.cpp:315-370 | a configured simulation is the run of the initial engine over the stack |
| Simulation.CapitalStaysNonNegative | source.cpp:315-370 | with a non-negative initial amount, no automaton ends a run with negative total capital |
| Simulation.InitialAutomataAreSolvent | source.cpp:307-313 | with a non-negative initial amount every automaton starts solvent |
| Simulation.SolventReports | source.cpp:356-369 | solvent automata report non-negative total capital |
| Simulation.SolventCapital | source.cpp:182-184 | a solvent automaton's total capital is non-negative |
| Simulation.EmptyStackReportsInitialAmount | source.cpp:334-369 | with no record, each automaton reports its initial amount, no P&L and a rate of 0 |
| Simulation.FreshAutomatonReportsInitialAmount | source.cpp:356-369 | an untouched automaton reports its initial amount, no P&L and a rate of 0 |
| Simulation.UntouchedReport | source.cpp:359-364 | holding exactly the initial cash and an empty position gives a zero P&L and rate |
| Simulation.RsiWindowAfterRun | source.cpp:335-345 | after a run, the RSI window holds the bottom `max_duration` records of the stack, the first line in front |
| Simulation.MakeAutomata | source.cpp:307-313 | one distinct automaton per strategy, in order, each with its own fresh wallet and the initial amount |
| Simulation.UpdateBank | source.cpp:343-345 | each feature object's new state is its old state updated with the record |
| Simulation.UpdateDriverBank | source.cpp:343-345 | the two feature objects' states become `UpdatedBank` of their old states |
| Simulation.Turn | source.cpp:347-351 | fails exactly when `ProcessOne` does, with its error; otherwise the automaton's new state and the flag are its result |
| Simulation.TurnAt | source.cpp:347-351 | turn `i` either fails the whole `ProcessFrom` with its error or extends what the first `i` turns did |
| Simulation.ProcessAll | source.cpp:347-351 | fails exactly when `ProcessFrom` does, with its error; otherwise every automaton object holds its result |
| Simulation.StepObjects | source.cpp:335-352 | fails exactly when `Step` does, with its error; otherwise the objects hold the engine the step produces |
| Simulation.ReportAll | source.cpp:356-369 | the reports are `Reports` of the automata's states |
| Simulation.RunForDatas | source.cpp:315-370 | the imperative run over the feature and automaton objects returns exactly `Simulated` |

## Left out

- Floating point: amounts and prices are reals. There is no `float` rounding, infinity or NaN,
  except the explicit `Indeterminate` RSI reading for 0/0. The `rate` range check does not
  reject that reading because every comparison with NaN is false.
- Division by a zero price: every record's close is required to be positive. A wallet buys
  only at a positive price, so the infinite quantity a zero price would give is not modelled.
- File I/O in `io.hpp`: opening the file, `std::getline`, and the "empty file" and "bad
  header" checks. The model starts from the sequence of lines after the header.
- The coroutine generator (`coroutine.hpp`): it is modelled as the sequence of `make_record`
  outcomes. Its exception becomes the generator's error.
- `std::stof`: modelled as an abstract `parse` parameter that may fail.
- All console output (`std::cout`, `std::cerr`, `setw`) and the printed formatting of
  reports: the model keeps the printed values, not their text.
- `type_name` (`includes/gcl/cx/type_name.hpp` and its copy in `source.cpp`): used for
  logging only.
- The stub `input::trend` of `source.cpp`: it is a kind with no behaviour (`TrendStubKind`).
- `main`'s file paths and its try/catch: its strategy list is kept as `MainStrategies`.
- Template machinery (`static_assert`s, `std::variant`/`std::visit`, index-sequence folds).
  It is replaced by the `Strategy` and `Kind` datatypes and the configuration check.
  Duplicate strategy types in one `std::variant` are not modelled; each automaton has its own
  position.
- The second, const overload of `make_tuple_view`: it differs only in giving read-only
  references, and `MakeTupleView` changes no state either way.
- `source.cpp`'s own copy of `base` (source.cpp:169-218): it is modelled by the same
  `Automata` members as `automatas.hpp`'s `base`, because its code is the same; the driver's
  `record` and `wallet` are those of `data_types.hpp`.
- Automata.Automaton.Process, Automata.Automaton.RunLegs, Automata.Automaton.ProcessRsi: after
  a thrown error the object's state is left unspecified (in the source a failed sell keeps the
  effect of the buy before it); the source lets the exception escape the run, which then
  reports nothing.
- Csv.SplitLastField: without a comma the line is moved out whole and the buffer is taken to
  be empty afterwards. The C++ standard leaves a moved-from `std::string` valid but
  unspecified; the model follows what the mainstream standard libraries do, and
  `Csv.ShortLineIsIncomplete` depends on it.
- Input.InputRsiValueForDuration: requires a non-zero duration. At duration 0 the source would
  iterate a range whose start lies past its end; every caller's template forbids it.
- Concurrency: none exists in the source; the run is sequential.

## Findings

| source | as written | input that shows it | evidently intended | confidence | as-written member | corrected member |
|---|---|---|---|---|---|---|
| includes/trading_bots/business/indices.hpp:101-107 | `trend::value_for_duration` returns no value only when `size < duration`, then reads `cache[duration]` | a window of 2 records and `duration == 2`: `cache[2]` is past the end | no value when `size <= duration`, i.e. `duration + 1` records are needed | not executed | Indices.TrendGuardReadsPastEnd | Indices.TrendValueForDuration |
| includes/trading_bots/business/indices.hpp:140-151 | `roc::value_for_duration` has the same guard and the same read of `cache[duration]` | a window of 2 records and `duration == 2` | no value when `size <= duration` | not executed | Indices.RocGuardReadsPastEnd | Indices.RocValueForDuration |

The as-written queries are `Indices.TrendValueAsWritten` and `Indices.RocValueAsWritten`.
They return a `ReadPastEnd` error where the source reads past the window. The strategies and
the simulation use the corrected queries.

A consequence of the read itself: `trend<14>` holds at most 14 records, so it can never
answer `duration == 14` (`Indices.TrendNeverAvailableAtCapacity`).

Where the code and the system's description differ, the model follows the code:

- The RSI reads the oldest `duration` records of its window, not the most recent ones.
- The driver's `input::rsi` rejects only `duration == 1`.
