/** The rolling-window indicators of `trading_bots::business::indices`: the bounded
    window every indicator keeps (newest record at the front), and the pure queries
    RSI, trend and rate of change over it. */
module Indices {
  import opened Outcomes
  import opened DataTypes
  import opened Seqs

  /** `trend_value_type`. */
  datatype TrendValue = Up | Stable | Down

  /** Every record of the window has a positive close, so that every ratio is defined. */
  predicate PositiveCloses(s: seq<Record>) {
    forall k :: 0 <= k < |s| ==> s[k].closeLast > 0.0
  }

  /** Dropping the newest-pushed end of a sequence keeps its closes positive. */
  lemma PositiveClosesInit(s: seq<Record>)
    requires PositiveCloses(s) && s != []
    ensures PositiveCloses(s[..|s| - 1])
  {
    var init := s[..|s| - 1];
    forall k | 0 <= k < |init| ensures init[k].closeLast > 0.0 {
      assert init[k] == s[k];
    }
  }

  function MinNat(a: nat, b: nat): nat {
    if a < b then a else b
  }

  // ---------------------------------------------------------------------------
  // the window

  /** `update`: `push_front` the input, then `pop_back` once when the size exceeds
      `max_duration`. */
  function PushFront(cache: seq<Record>, input: Record, maxDuration: nat): (r: seq<Record>)
    requires 0 < maxDuration && |cache| <= maxDuration
    ensures |r| == if |cache| < maxDuration then |cache| + 1 else maxDuration
    ensures 0 < |r| <= maxDuration && r[0] == input
    ensures r[1..] == cache[..|r| - 1]
    ensures |cache| == maxDuration ==> r == [input] + cache[..|cache| - 1]
  {
    var pushed := [input] + cache;
    if |pushed| > maxDuration then pushed[..|pushed| - 1] else pushed
  }

  /** The window after `update` was called with each of `records` in turn, starting empty. */
  function Fed(maxDuration: nat, records: seq<Record>): (r: seq<Record>)
    requires 0 < maxDuration
    ensures |r| == MinNat(|records|, maxDuration)
    ensures records != [] ==> r[0] == records[|records| - 1]
  {
    if records == [] then []
    else PushFront(Fed(maxDuration, records[..|records| - 1]), records[|records| - 1], maxDuration)
  }

  /** After any sequence of updates the window holds the `max_duration` most recent
      records (or all of them, if fewer), newest first. */
  lemma {:induction false} FedIsNewestFirst(maxDuration: nat, records: seq<Record>)
    requires 0 < maxDuration
    ensures Fed(maxDuration, records) == Reverse(records)[..MinNat(|records|, maxDuration)]
  {
    if records != [] {
      var init, x := records[..|records| - 1], records[|records| - 1];
      FedIsNewestFirst(maxDuration, init);
      assert records == init + [x];
      ReverseAppend(init, x);
      var before := Fed(maxDuration, init);
      var after := Fed(maxDuration, records);
      assert after == PushFront(before, x, maxDuration);
      var n := MinNat(|records|, maxDuration);
      assert |after| == n;
      forall k | 0 <= k < n ensures after[k] == Reverse(records)[k] {
        if k > 0 {
          assert after[k] == after[1..][k - 1];
        }
      }
    }
  }

  // ---------------------------------------------------------------------------
  // rsi

  /** The change from `older` to `newer`, in percent: `(newer / older) * 100 - 100`. */
  function PercentChange(older: Record, newer: Record): (c: real)
    requires older.closeLast > 0.0
    ensures c > 0.0 <==> newer.closeLast > older.closeLast
    ensures c == 0.0 <==> newer.closeLast == older.closeLast
  {
    var q := newer.closeLast / older.closeLast;
    assert q * older.closeLast == newer.closeLast;
    (q * 100.0) - 100.0
  }

  /** A change is zero exactly when the two closes are equal. */
  lemma PercentChangeZeroIffFlat(older: Record, newer: Record)
    requires older.closeLast > 0.0
    ensures PercentChange(older, newer) == 0.0 <==> newer.closeLast == older.closeLast
  {
    var q := newer.closeLast / older.closeLast;
    assert q * older.closeLast == newer.closeLast;
  }

  /** The changes between consecutive entries of `s`, which is ordered oldest first. */
  function Variations(s: seq<Record>): (vs: seq<real>)
    requires PositiveCloses(s)
    ensures |vs| == if |s| == 0 then 0 else |s| - 1
    ensures forall j :: 0 <= j < |vs| ==> vs[j] == PercentChange(s[j], s[j + 1])
  {
    if |s| <= 1 then [] else Variations(s[..|s| - 1]) + [PercentChange(s[|s| - 2], s[|s| - 1])]
  }

  function Gain(v: real): real {
    if v > 0.0 then v else 0.0
  }

  function Loss(v: real): real {
    if v < 0.0 then -v else 0.0
  }

  /** The first `std::accumulate`: the strictly positive variations, summed left to right. */
  function GainSum(vs: seq<real>): (g: real)
    ensures g >= 0.0
  {
    if vs == [] then 0.0 else GainSum(vs[..|vs| - 1]) + Gain(vs[|vs| - 1])
  }

  /** The second `std::accumulate`: the absolute values of the strictly negative variations. */
  function LossSum(vs: seq<real>): (l: real)
    ensures l >= 0.0
  {
    if vs == [] then 0.0 else LossSum(vs[..|vs| - 1]) + Loss(vs[|vs| - 1])
  }

  function Sum(vs: seq<real>): real {
    if vs == [] then 0.0 else Sum(vs[..|vs| - 1]) + vs[|vs| - 1]
  }

  /** Gains minus losses is the plain sum of the variations: a flat change counts in neither. */
  lemma {:induction false} GainMinusLossIsSum(vs: seq<real>)
    ensures GainSum(vs) - LossSum(vs) == Sum(vs)
  {
    if vs != [] {
      GainMinusLossIsSum(vs[..|vs| - 1]);
    }
  }

  /** The loss sum is zero exactly when no variation is negative. */
  lemma {:induction false} LossSumZeroIffNoLoss(vs: seq<real>)
    ensures LossSum(vs) == 0.0 <==> forall j :: 0 <= j < |vs| ==> vs[j] >= 0.0
  {
    if vs != [] {
      var init := vs[..|vs| - 1];
      LossSumZeroIffNoLoss(init);
      assert forall j :: 0 <= j < |init| ==> init[j] == vs[j];
    }
  }

  /** The gain sum is zero exactly when no variation is positive. */
  lemma {:induction false} GainSumZeroIffNoGain(vs: seq<real>)
    ensures GainSum(vs) == 0.0 <==> forall j :: 0 <= j < |vs| ==> vs[j] <= 0.0
  {
    if vs != [] {
      var init := vs[..|vs| - 1];
      GainSumZeroIffNoGain(init);
      assert forall j :: 0 <= j < |init| ==> init[j] == vs[j];
    }
  }

  /** The gain sum is positive as soon as one variation is. */
  lemma {:induction false} GainSumPositive(vs: seq<real>, j: nat)
    requires j < |vs| && vs[j] > 0.0
    ensures GainSum(vs) > 0.0
  {
    if j < |vs| - 1 {
      GainSumPositive(vs[..|vs| - 1], j);
    }
  }

  /** An RSI reading. A division 0/0 (no gain and no loss in the window) yields NaN in the
      source; `Indeterminate` stands for it. */
  datatype RsiReading = Level(rate: Rate) | Indeterminate

  /** `*rsi_value < x`, which is false for NaN. */
  predicate Below(r: RsiReading, x: real)
    ensures r.Indeterminate? ==> !Below(r, x)
    ensures Below(r, x) ==> !Above(r, x)
  {
    r.Level? && r.rate < x
  }

  /** `*rsi_value > x`, which is false for NaN. */
  predicate Above(r: RsiReading, x: real)
    ensures r.Indeterminate? ==> !Above(r, x)
  {
    r.Level? && r.rate > x
  }

  /** `100 - 100 / (1 + gain_average / loss_average)`, converted to `rate`. The source does
      not guard a zero `loss_average`; the model adopts what IEEE arithmetic yields for it:
      a positive gain over a zero loss is infinite and gives exactly 100, and 0/0 gives NaN. */
  function RsiFormula(gainAverage: real, lossAverage: real): (r: Result<RsiReading>)
    requires gainAverage >= 0.0 && lossAverage >= 0.0
    ensures r.Ok?
    ensures lossAverage > 0.0 ==> r.value.Level? && r.value.rate < 100.0
    ensures lossAverage > 0.0 ==> r.value.rate == 100.0 - 100.0 / (1.0 + gainAverage / lossAverage)
    ensures lossAverage == 0.0 && gainAverage > 0.0 ==> r.value == Level(100.0)
    ensures lossAverage == 0.0 && gainAverage == 0.0 ==> r.value == Indeterminate
  {
    if lossAverage > 0.0 then
      var raw := 100.0 - 100.0 / (1.0 + gainAverage / lossAverage);
      assert 0.0 <= raw < 100.0 by {
        var q := 1.0 + gainAverage / lossAverage;
        assert q >= 1.0;
        assert 0.0 < 100.0 / q <= 100.0;
      }
      match MakeRate(raw)
      case Ok(v) => Ok(Level(v))
      case Err(e) => Err(e)
    else if gainAverage > 0.0 then Ok(Level(100.0))
    else Ok(Indeterminate)
  }

  /** An independent reading of the formula, with the zero-loss policy included: the RSI
      is the share of the gains in gains plus losses, in percent. */
  lemma RsiIsGainShare(gainAverage: real, lossAverage: real)
    requires gainAverage >= 0.0 && lossAverage >= 0.0 && gainAverage + lossAverage > 0.0
    ensures RsiFormula(gainAverage, lossAverage).value.Level?
    ensures RsiFormula(gainAverage, lossAverage).value.rate == 100.0 * gainAverage / (gainAverage + lossAverage)
  {
    if lossAverage > 0.0 {
      var g, l := gainAverage, lossAverage;
      var s := g + l;
      var q := g / l;
      assert q * l == g;
      var t := 1.0 + q;
      assert t * l == s;
      var u := 100.0 / t;
      assert u * t == 100.0;
      assert u * s == 100.0 * l by {
        assert u * s == u * (t * l) == (u * t) * l;
      }
      assert (100.0 - u) * s == 100.0 * g;
      DivisionIsUnique(100.0 * g, s, 100.0 - u);
    }
  }

  /** A quotient is the only number that multiplies back to the dividend. */
  lemma DivisionIsUnique(a: real, b: real, x: real)
    requires b != 0.0 && x * b == a
    ensures x == a / b
  {
  }

  /** The `duration` OLDEST entries of the window, oldest first: the range the source
      walks from `crbegin`. */
  function OldestFirst(cache: seq<Record>, duration: nat): (s: seq<Record>)
    requires duration <= |cache|
    ensures |s| == duration
    ensures forall j :: 0 <= j < duration ==> s[j] == cache[|cache| - 1 - j]
  {
    Reverse(cache)[..duration]
  }

  /** The RSI over the `duration` oldest buffered records, with averages over `duration - 1`. */
  function RsiOfWindow(cache: seq<Record>, duration: nat): (r: Result<RsiReading>)
    requires 2 <= duration <= |cache| && PositiveCloses(cache)
    ensures r.Ok?
  {
    var window := OldestFirst(cache, duration);
    var vs := Variations(window);
    var effectiveDuration := (duration - 1) as real;
    RsiFormula(GainSum(vs) / effectiveDuration, LossSum(vs) / effectiveDuration)
  }

  /** The reading of a window is the formula applied to the two sums of its read range,
      each averaged over `duration - 1`. */
  lemma RsiOfWindowAverages(cache: seq<Record>, duration: nat)
    requires 2 <= duration <= |cache| && PositiveCloses(cache)
    ensures PositiveCloses(OldestFirst(cache, duration))
    ensures var vs := Variations(OldestFirst(cache, duration));
      var d := (duration - 1) as real;
      RsiOfWindow(cache, duration) == RsiFormula(GainSum(vs) / d, LossSum(vs) / d)
  {
  }

  /** `indices::rsi::value_for_duration`: `invalid_argument` when `duration <= 1`, no value
      while fewer than `duration` records are buffered, otherwise a reading. */
  function RsiValueForDuration(cache: seq<Record>, duration: nat): (r: Result<Option<RsiReading>>)
    requires PositiveCloses(cache)
    ensures r.Err? <==> duration <= 1
    ensures r.Err? ==> r.error == InvalidDuration
    ensures r.Ok? ==> (r.value.None? <==> |cache| < duration)
    ensures r.Ok? && r.value.Some? ==> RsiOfWindow(cache, duration) == Ok(r.value.value)
  {
    if duration <= 1 then Err(InvalidDuration)
    else if |cache| < duration then Ok(None)
    else
      var reading := RsiOfWindow(cache, duration);
      Ok(Some(reading.value))
  }

  /** The averages are NaN exactly when both sums are zero. */
  lemma AveragesIndeterminateIffZero(gains: real, losses: real, d: real)
    requires gains >= 0.0 && losses >= 0.0 && d > 0.0
    ensures RsiFormula(gains / d, losses / d).value == Indeterminate <==> gains == 0.0 && losses == 0.0
  {
    assert gains / d == 0.0 <==> gains == 0.0;
    assert losses / d == 0.0 <==> losses == 0.0;
  }

  /** Neither a gain nor a loss exactly when every variation is zero. */
  lemma NoGainNoLossIffAllZero(vs: seq<real>)
    ensures GainSum(vs) == 0.0 && LossSum(vs) == 0.0 <==> forall j :: 0 <= j < |vs| ==> vs[j] == 0.0
  {
    LossSumZeroIffNoLoss(vs);
    GainSumZeroIffNoGain(vs);
  }

  /** Every variation of `w` is zero exactly when every close equals the next one. */
  lemma VariationsZeroIffFlat(w: seq<Record>)
    requires PositiveCloses(w) && |w| >= 1
    ensures (forall j :: 0 <= j < |w| - 1 ==> Variations(w)[j] == 0.0) <==>
      forall j :: 0 <= j < |w| - 1 ==> w[j].closeLast == w[j + 1].closeLast
  {
    var vs := Variations(w);
    if forall j :: 0 <= j < |w| - 1 ==> vs[j] == 0.0 {
      forall j | 0 <= j < |w| - 1 ensures w[j].closeLast == w[j + 1].closeLast {
        assert vs[j] == 0.0;
        PercentChangeZeroIffFlat(w[j], w[j + 1]);
      }
    }
    if forall j :: 0 <= j < |w| - 1 ==> w[j].closeLast == w[j + 1].closeLast {
      forall j | 0 <= j < |w| - 1 ensures vs[j] == 0.0 {
        PercentChangeZeroIffFlat(w[j], w[j + 1]);
      }
    }
  }

  /** The reading is NaN exactly when every close of the read range equals the next one:
      only a flat range has neither a gain nor a loss. */
  lemma RsiIndeterminateIffFlat(cache: seq<Record>, duration: nat)
    requires 2 <= duration <= |cache| && PositiveCloses(cache)
    ensures var w := OldestFirst(cache, duration);
      RsiOfWindow(cache, duration).value == Indeterminate <==>
      forall j :: 0 <= j < duration - 1 ==> w[j].closeLast == w[j + 1].closeLast
  {
    RsiOfWindowAverages(cache, duration);
    var w := OldestFirst(cache, duration);
    var vs := Variations(w);
    AveragesIndeterminateIffZero(GainSum(vs), LossSum(vs), (duration - 1) as real);
    NoGainNoLossIffAllZero(vs);
    VariationsZeroIffFlat(w);
  }

  /** The RSI reads the window from the back: two windows that share their `duration`
      oldest entries give the same reading, whatever their newer entries are. */
  lemma RsiReadsOldest(c1: seq<Record>, c2: seq<Record>, duration: nat)
    requires PositiveCloses(c1) && PositiveCloses(c2)
    requires duration <= |c1| && duration <= |c2|
    requires OldestFirst(c1, duration) == OldestFirst(c2, duration)
    ensures RsiValueForDuration(c1, duration) == RsiValueForDuration(c2, duration)
  {
  }

  /** Consequently, until the window is full, a further record does not move the RSI. */
  lemma RsiUnchangedUntilFull(cache: seq<Record>, input: Record, maxDuration: nat, duration: nat)
    requires PositiveCloses(cache) && input.closeLast > 0.0
    requires duration <= |cache| < maxDuration
    ensures PositiveCloses(PushFront(cache, input, maxDuration))
    ensures RsiValueForDuration(PushFront(cache, input, maxDuration), duration) == RsiValueForDuration(cache, duration)
  {
    var pushed := PushFront(cache, input, maxDuration);
    assert pushed == [input] + cache;
    assert OldestFirst(pushed, duration) == OldestFirst(cache, duration) by {
      forall j | 0 <= j < duration ensures OldestFirst(pushed, duration)[j] == OldestFirst(cache, duration)[j] {
        assert pushed[|pushed| - 1 - j] == cache[|cache| - 1 - j];
      }
    }
    RsiReadsOldest(pushed, cache, duration);
  }

  lemma PercentChangeOfRise(older: Record, newer: Record)
    requires 0.0 < older.closeLast < newer.closeLast
    ensures PercentChange(older, newer) > 0.0
  {
    assert newer.closeLast / older.closeLast > 1.0;
  }

  /** A window whose closes rise strictly from each record to the next newer one has only
      gains: under the zero-loss policy its RSI is exactly 100. */
  lemma RsiOfRisingWindow(cache: seq<Record>, duration: nat)
    requires PositiveCloses(cache)
    requires 2 <= duration <= |cache|
    requires forall k :: 0 < k < |cache| ==> cache[k].closeLast < cache[k - 1].closeLast
    ensures RsiValueForDuration(cache, duration) == Ok(Some(Level(100.0)))
  {
    RisingWindowHasOnlyGains(cache, duration);
    OnlyGainsGiveHundred(cache, duration);
  }

  /** In a window whose closes rise towards its front, every variation of the read range
      is a gain: the gain sum is positive and the loss sum zero. */
  lemma RisingWindowHasOnlyGains(cache: seq<Record>, duration: nat)
    requires PositiveCloses(cache)
    requires 2 <= duration <= |cache|
    requires forall k :: 0 < k < |cache| ==> cache[k].closeLast < cache[k - 1].closeLast
    ensures PositiveCloses(OldestFirst(cache, duration))
    ensures var vs := Variations(OldestFirst(cache, duration));
      GainSum(vs) > 0.0 && LossSum(vs) == 0.0
  {
    var window := OldestFirst(cache, duration);
    var n := |cache|;
    assert PositiveCloses(window) by {
      forall k | 0 <= k < |window| ensures window[k].closeLast > 0.0 {
        assert window[k] == cache[n - 1 - k];
      }
    }
    var vs := Variations(window);
    forall j | 0 <= j < |vs| ensures vs[j] > 0.0 {
      assert window[j] == cache[n - 1 - j] && window[j + 1] == cache[n - 2 - j];
      PercentChangeOfRise(window[j], window[j + 1]);
    }
    LossSumZeroIffNoLoss(vs);
    GainSumPositive(vs, 0);
  }

  /** A read range with gains and no loss reads exactly 100. */
  lemma OnlyGainsGiveHundred(cache: seq<Record>, duration: nat)
    requires PositiveCloses(cache) && 2 <= duration <= |cache|
    requires PositiveCloses(OldestFirst(cache, duration))
    requires var vs := Variations(OldestFirst(cache, duration));
      GainSum(vs) > 0.0 && LossSum(vs) == 0.0
    ensures RsiValueForDuration(cache, duration) == Ok(Some(Level(100.0)))
  {
    RsiOfWindowAverages(cache, duration);
    var vs := Variations(OldestFirst(cache, duration));
    AveragesOfGainsOnly(GainSum(vs), LossSum(vs), (duration - 1) as real);
  }

  /** Positive gains over zero losses average to exactly 100, whatever the divisor. */
  lemma AveragesOfGainsOnly(gains: real, losses: real, d: real)
    requires gains > 0.0 && losses == 0.0 && d > 0.0
    ensures RsiFormula(gains / d, losses / d).value == Level(100.0)
  {
    assert gains / d > 0.0 && losses / d == 0.0;
  }

  // ---------------------------------------------------------------------------
  // trend

  /** `stable` strictly inside (-threshold, threshold), otherwise `down` below zero and
      `up` from zero on. */
  function Classify(fluctuationRate: real, threshold: real): (t: TrendValue)
    ensures t == Stable <==> -threshold < fluctuationRate < threshold
    ensures t == Down <==> fluctuationRate < 0.0 && !(-threshold < fluctuationRate < threshold)
    ensures t == Up <==> fluctuationRate >= 0.0 && !(-threshold < fluctuationRate < threshold)
  {
    if fluctuationRate < threshold && fluctuationRate > -threshold then Stable
    else if fluctuationRate < 0.0 then Down
    else Up
  }

  /** A threshold of zero (or less) never yields `stable`, and a rate of 0 is then `up`. */
  lemma NonPositiveThresholdNeverStable(fluctuationRate: real, threshold: real)
    requires threshold <= 0.0
    ensures Classify(fluctuationRate, threshold) != Stable
    ensures Classify(0.0, threshold) == Up
  {
  }

  /** Away from zero the classification is symmetric: negating the rate swaps up and down. */
  lemma ClassifyIsSymmetric(fluctuationRate: real, threshold: real)
    requires fluctuationRate != 0.0
    ensures Classify(-fluctuationRate, threshold) ==
      match Classify(fluctuationRate, threshold)
      case Up => Down
      case Down => Up
      case Stable => Stable
  {
  }

  /** `fluctuation_rate`: the relative change from `past` to `latest`, positive exactly when
      the price rose and negative exactly when it fell. */
  function FluctuationRate(latest: Record, past: Record): (f: real)
    requires past.closeLast > 0.0
    ensures f > 0.0 <==> latest.closeLast > past.closeLast
    ensures f < 0.0 <==> latest.closeLast < past.closeLast
  {
    var q := latest.closeLast / past.closeLast;
    assert q * past.closeLast == latest.closeLast;
    q - 1.0
  }

  /** `trend::value_for_duration` AS WRITTEN: it returns no value only when fewer than
      `duration` records are buffered, then reads `cache[duration]`, which is past the end
      of a window of exactly `duration` records. */
  function TrendValueAsWritten(cache: seq<Record>, duration: nat, threshold: real): (r: Result<Option<TrendValue>>)
    requires PositiveCloses(cache)
    ensures r.Err? <==> duration <= 1 || |cache| == duration
    ensures r.Err? ==> (r.error == ReadPastEnd <==> duration >= 2)
    ensures r.Ok? ==> (r.value.None? <==> |cache| < duration)
  {
    if duration <= 1 then Err(InvalidDuration)
    else if |cache| < duration then Ok(None)
    else if |cache| <= duration then Err(ReadPastEnd)
    else Ok(Some(Classify(FluctuationRate(cache[0], cache[duration]), threshold)))
  }

  /** `trend::value_for_duration` with the guard the read needs: no value unless a record
      `duration` steps before the newest one is buffered. */
  function TrendValueForDuration(cache: seq<Record>, duration: nat, threshold: real): (r: Result<Option<TrendValue>>)
    requires PositiveCloses(cache)
    ensures r.Err? <==> duration <= 1
    ensures r.Err? ==> r.error == InvalidDuration
    ensures r.Ok? ==> (r.value.None? <==> |cache| <= duration)
    ensures r.Ok? && r.value.Some? ==>
      (duration < |cache| && r.value.value == Classify(FluctuationRate(cache[0], cache[duration]), threshold))
  {
    if duration <= 1 then Err(InvalidDuration)
    else if |cache| <= duration then Ok(None)
    else Ok(Some(Classify(FluctuationRate(cache[0], cache[duration]), threshold)))
  }

  /** The as-written guard lets a window of exactly `duration` records through to a read
      past its end; the guarded query answers "no value" there and agrees elsewhere. */
  lemma TrendGuardReadsPastEnd(cache: seq<Record>, duration: nat, threshold: real)
    requires PositiveCloses(cache) && duration >= 2
    ensures |cache| == duration ==> TrendValueAsWritten(cache, duration, threshold) == Err(ReadPastEnd)
    ensures |cache| == duration ==> TrendValueForDuration(cache, duration, threshold) == Ok(None)
    ensures |cache| != duration ==> TrendValueAsWritten(cache, duration, threshold) == TrendValueForDuration(cache, duration, threshold)
  {
  }

  /** A window capped at `max_duration` never holds `duration + 1` records for a duration of
      `max_duration` or more: such a trend never has a value (as for `trend<14>` read at 14). */
  lemma TrendNeverAvailableAtCapacity(cache: seq<Record>, maxDuration: nat, duration: nat, threshold: real)
    requires PositiveCloses(cache) && |cache| <= maxDuration <= duration && duration >= 2
    ensures TrendValueForDuration(cache, duration, threshold) == Ok(None)
  {
  }

  // ---------------------------------------------------------------------------
  // roc

  /** `roc::value_for_duration` AS WRITTEN, with the same guard as the trend. */
  function RocValueAsWritten(cache: seq<Record>, duration: nat): (r: Result<Option<real>>)
    requires PositiveCloses(cache)
    ensures r.Err? <==> duration <= 1 || |cache| == duration
    ensures r.Err? ==> (r.error == ReadPastEnd <==> duration >= 2)
    ensures r.Ok? ==> (r.value.None? <==> |cache| < duration)
  {
    if duration <= 1 then Err(InvalidDuration)
    else if |cache| < duration then Ok(None)
    else if |cache| <= duration then Err(ReadPastEnd)
    else Ok(Some(((cache[0].closeLast - cache[duration].closeLast) / cache[duration].closeLast) * 100.0))
  }

  /** `roc::value_for_duration` with the guard the read needs. */
  function RocValueForDuration(cache: seq<Record>, duration: nat): (r: Result<Option<real>>)
    requires PositiveCloses(cache)
    ensures r.Err? <==> duration <= 1
    ensures r.Err? ==> r.error == InvalidDuration
    ensures r.Ok? ==> (r.value.None? <==> |cache| <= duration)
    ensures r.Ok? && r.value.Some? ==> (duration < |cache| &&
      r.value.value == ((cache[0].closeLast - cache[duration].closeLast) / cache[duration].closeLast) * 100.0)
  {
    if duration <= 1 then Err(InvalidDuration)
    else if |cache| <= duration then Ok(None)
    else Ok(Some(((cache[0].closeLast - cache[duration].closeLast) / cache[duration].closeLast) * 100.0))
  }

  lemma RocGuardReadsPastEnd(cache: seq<Record>, duration: nat)
    requires PositiveCloses(cache) && duration >= 2
    ensures |cache| == duration ==> RocValueAsWritten(cache, duration) == Err(ReadPastEnd)
    ensures |cache| == duration ==> RocValueForDuration(cache, duration) == Ok(None)
    ensures |cache| != duration ==> RocValueAsWritten(cache, duration) == RocValueForDuration(cache, duration)
  {
  }

  /** The ROC is the trend's fluctuation rate in percent: both indicators are defined on the
      same windows, and the trend is the classification of ROC / 100. */
  lemma RocIsTrendRateInPercent(cache: seq<Record>, duration: nat, threshold: real)
    requires PositiveCloses(cache)
    ensures RocValueForDuration(cache, duration).Ok? == TrendValueForDuration(cache, duration, threshold).Ok?
    ensures RocValueForDuration(cache, duration).Ok? ==>
      (RocValueForDuration(cache, duration).value.Some? <==> TrendValueForDuration(cache, duration, threshold).value.Some?)
    ensures RocValueForDuration(cache, duration).Ok? && RocValueForDuration(cache, duration).value.Some? ==>
      TrendValueForDuration(cache, duration, threshold).value.value ==
        Classify(RocValueForDuration(cache, duration).value.value / 100.0, threshold)
  {
    if duration > 1 && |cache| > duration {
      var latest, past := cache[0].closeLast, cache[duration].closeLast;
      var f := latest / past;
      assert f * past == latest;
      assert (f - 1.0) * past == latest - past;
      DivisionIsUnique(latest - past, past, f - 1.0);
    }
  }
}
