/** The value types of the engine (`trading_bots::data_types`): the bounded `rate`,
    the daily price `record` and the asset `wallet`. Amounts and prices are reals. */
module DataTypes {
  import opened Outcomes

  function Min(a: real, b: real): (m: real)
    ensures m <= a && m <= b && (m == a || m == b)
  {
    if b < a then b else a
  }

  // ---------------------------------------------------------------------------
  // rate

  /** A `rate` holds a value in [0, 100]. */
  type Rate = r: real | 0.0 <= r <= 100.0

  /** The `rate` constructor: `ensure_datas_integrity` throws `logic_error` outside [0, 100]. */
  function MakeRate(arg: real): (r: Result<Rate>)
    ensures r.Ok? <==> 0.0 <= arg <= 100.0
    ensures r.Ok? ==> r.value == arg
    ensures r.Err? ==> r.error == RateOutOfRange
  {
    if arg < 0.0 || arg > 100.0 then Err(RateOutOfRange) else Ok(arg)
  }

  /** `rate::operator=`: the argument is checked before `storage` is written, so a
      rejected value leaves the target as it was. */
  function AssignRate(target: Rate, arg: real): (r: (Rate, Outcome))
    ensures r.1.Pass? <==> 0.0 <= arg <= 100.0
    ensures r.1.Pass? ==> r.0 == arg
    ensures r.1.Fail? ==> r.0 == target && r.1.error == RateOutOfRange
  {
    match MakeRate(arg)
    case Ok(v) => (v, Pass)
    case Err(e) => (target, Fail(e))
  }

  // ---------------------------------------------------------------------------
  // record

  /** One line of the price history, fields in declaration order. */
  datatype Record = Record(low: real, high: real, open: real, volume: string, closeLast: real, date: string)

  /** The value-initialised record (`record_type value;` of `last_record`). */
  const EmptyRecord := Record(0.0, 0.0, 0.0, "", 0.0, "")

  /** `record::operator==`: records are compared by their date alone. */
  predicate SameRecord(a: Record, b: Record)
    ensures a == b ==> SameRecord(a, b)
  {
    a.date == b.date
  }

  /** Equality ignores every price and the volume: two records are equal exactly when
      copying all other fields of `b` into `a` yields `b`. */
  lemma SameRecordIgnoresPrices(a: Record, b: Record)
    ensures SameRecord(a, b) <==>
      a.(low := b.low, high := b.high, open := b.open, volume := b.volume, closeLast := b.closeLast) == b
  {
  }

  lemma SameRecordIsEquivalence(a: Record, b: Record, c: Record)
    ensures SameRecord(a, a)
    ensures SameRecord(a, b) ==> SameRecord(b, a)
    ensures SameRecord(a, b) && SameRecord(b, c) ==> SameRecord(a, c)
  {
  }

  /** `price_fluctuation_rate()`: close over open, above 1 exactly on a day that closed up. */
  function PriceFluctuationRate(r: Record): (p: real)
    requires r.open != 0.0
    ensures r.open > 0.0 ==> (p > 1.0 <==> r.closeLast > r.open) && (p == 1.0 <==> r.closeLast == r.open)
  {
    r.closeLast / r.open
  }

  /** `variation()`: open minus close, positive exactly on a day that closed down. */
  function Variation(r: Record): (v: real)
    ensures v > 0.0 <==> r.closeLast < r.open
    ensures v == 0.0 <==> r.closeLast == r.open
  {
    r.open - r.closeLast
  }

  /** `variation_rate()`: positive exactly on a day that closed up. */
  function VariationRate(r: Record): (vr: real)
    requires r.open != 0.0
    ensures r.open > 0.0 ==> (vr > 0.0 <==> r.closeLast > r.open)
  {
    PriceFluctuationRate(r) - 1.0
  }

  /** `amplitude()`: high minus low, non-negative exactly when high >= low. */
  function Amplitude(r: Record): (a: real)
    ensures a >= 0.0 <==> r.high >= r.low
  {
    r.high - r.low
  }

  /** `amplitude_rate()`: for a positive low, non-negative exactly when high >= low. */
  function AmplitudeRate(r: Record): (ar: real)
    requires r.low != 0.0
    ensures r.low > 0.0 ==> (ar >= 0.0 <==> r.high >= r.low)
  {
    (r.high / r.low) - 1.0
  }

  /** `variation` is open minus close while `variation_rate` is close over open minus one:
      the two measures carry opposite signs for every record with a positive open. */
  lemma VariationSignsOpposed(r: Record)
    requires r.open > 0.0
    ensures Variation(r) > 0.0 <==> VariationRate(r) < 0.0
    ensures Variation(r) == 0.0 <==> VariationRate(r) == 0.0
    ensures VariationRate(r) == -Variation(r) / r.open
  {
    assert VariationRate(r) == (r.closeLast - r.open) / r.open;
  }

  /** `record::ensure_datas_integrity`: the date is checked first, then High against Low. */
  function EnsureDataIntegrity(r: Record): (o: Outcome)
    ensures o.Pass? <==> r.date != [] && r.high >= r.low
    ensures r.date == [] ==> o == Fail(CorruptedDate)
    ensures r.date != [] && r.high < r.low ==> o == Fail(CorruptedHighLow)
    ensures o.Pass? ==> Amplitude(r) >= 0.0
  {
    if r.date == [] then Fail(CorruptedDate)
    else if r.high < r.low then Fail(CorruptedHighLow)
    else Pass
  }

  /** A record that passed the integrity check and has a positive low has `amplitude_rate() >= 0`. */
  lemma AmplitudeRateOfCheckedRecord(r: Record)
    requires EnsureDataIntegrity(r).Pass? && r.low > 0.0
    ensures AmplitudeRate(r) >= 0.0
  {
    assert r.high / r.low >= 1.0;
  }

  // ---------------------------------------------------------------------------
  // wallet

  /** The fields of `wallet`: a quantity of the asset and the price last seen. */
  datatype WalletState = WalletState(currencyAmount: real, currencyPrice: real)

  /** Both fields default to 0. */
  const FreshWallet := WalletState(0.0, 0.0)

  /** What every wallet operation keeps: the held quantity is never negative. */
  predicate WalletInvariant(w: WalletState) {
    w.currencyAmount >= 0.0
  }

  /** `to_USDT()`: the value of the position at the last price. */
  function ToUsdt(w: WalletState): (u: real)
    ensures WalletInvariant(w) && w.currencyPrice >= 0.0 ==> u >= 0.0
    ensures w.currencyPrice > 0.0 ==> (u == 0.0 <==> w.currencyAmount == 0.0)
  {
    w.currencyAmount * w.currencyPrice
  }

  lemma FreshWalletIsEmpty()
    ensures WalletInvariant(FreshWallet) && ToUsdt(FreshWallet) == 0.0
  {
  }

  /** `wallet::update`: only the price moves. */
  function UpdateWallet(w: WalletState, value: Record): (r: WalletState)
    ensures r.currencyPrice == value.closeLast && r.currencyAmount == w.currencyAmount
    ensures WalletInvariant(w) ==> WalletInvariant(r)
    ensures value.closeLast == w.currencyPrice ==> r == w && ToUsdt(r) == ToUsdt(w)
  {
    w.(currencyPrice := value.closeLast)
  }

  /** `wallet::add_USDT_amount`: rejects a non-positive amount, otherwise buys
      `amount / price` of the asset. The assertion `currency_qty >= 0` of the source
      demands a non-negative price; a zero price (an infinite quantity) is not modelled. */
  function AddUsdtAmount(w: WalletState, amount: real): (r: Result<WalletState>)
    requires amount > 0.0 ==> w.currencyPrice > 0.0
    ensures r.Err? <==> amount <= 0.0
    ensures r.Err? ==> r.error == NonPositiveAddAmount
    ensures r.Ok? ==> r.value.currencyPrice == w.currencyPrice
    ensures r.Ok? ==> ToUsdt(r.value) == ToUsdt(w) + amount
    ensures r.Ok? ==> r.value.currencyAmount > w.currencyAmount
    ensures r.Ok? && WalletInvariant(w) ==> WalletInvariant(r.value)
  {
    if amount <= 0.0 then Err(NonPositiveAddAmount)
    else
      var quantity := amount / w.currencyPrice;
      assert quantity * w.currencyPrice == amount;
      Ok(w.(currencyAmount := w.currencyAmount + quantity))
  }

  /** `wallet::remove_USDT_amount`: rejects a non-positive amount; the source asserts that
      the position is worth at least `amount`, then subtracts `min(currency_amount,
      amount / price)` so that the quantity cannot go below zero. */
  function RemoveUsdtAmount(w: WalletState, amount: real): (r: Result<WalletState>)
    requires WalletInvariant(w)
    requires amount > 0.0 ==> ToUsdt(w) >= amount
    ensures r.Err? <==> amount <= 0.0
    ensures r.Err? ==> r.error == NonPositiveRemoveAmount
    ensures r.Ok? ==> r.value.currencyPrice == w.currencyPrice
    ensures r.Ok? ==> WalletInvariant(r.value) && r.value.currencyAmount < w.currencyAmount
    ensures r.Ok? ==> ToUsdt(r.value) == ToUsdt(w) - amount
  {
    if amount <= 0.0 then Err(NonPositiveRemoveAmount)
    else
      assert w.currencyPrice > 0.0;
      var quantity := amount / w.currencyPrice;
      assert quantity * w.currencyPrice == amount;
      assert quantity <= w.currencyAmount;
      Ok(w.(currencyAmount := w.currencyAmount - Min(w.currencyAmount, quantity)))
  }

  /** Adding then removing the same value at an unchanged price restores the wallet. */
  lemma AddThenRemoveRestores(w: WalletState, amount: real)
    requires WalletInvariant(w) && w.currencyPrice > 0.0 && amount > 0.0
    ensures AddUsdtAmount(w, amount).Ok?
    ensures RemoveUsdtAmount(AddUsdtAmount(w, amount).value, amount) == Ok(w)
  {
    var added := AddUsdtAmount(w, amount).value;
    assert ToUsdt(added) >= amount by {
      assert ToUsdt(w) >= 0.0;
    }
    var q := amount / w.currencyPrice;
    assert added.currencyAmount == w.currencyAmount + q;
    assert Min(added.currencyAmount, amount / added.currencyPrice) == q;
  }

  /** The in-place `wallet`: `update`, `add_USDT_amount` and `remove_USDT_amount`
      overwrite its two fields. */
  class Wallet {
    var currencyAmount: real
    var currencyPrice: real

    function State(): WalletState
      reads this
    {
      WalletState(currencyAmount, currencyPrice)
    }

    constructor ()
      ensures State() == FreshWallet
    {
      currencyAmount, currencyPrice := 0.0, 0.0;
    }

    method Update(value: Record)
      modifies this
      ensures State() == UpdateWallet(old(State()), value)
    {
      currencyPrice := value.closeLast;
    }

    method AddUsdt(amount: real) returns (o: Outcome)
      requires amount > 0.0 ==> currencyPrice > 0.0
      modifies this
      ensures var r := AddUsdtAmount(old(State()), amount);
        (o.Fail? <==> r.Err?) &&
        (r.Err? ==> o.error == r.error && State() == old(State())) &&
        (r.Ok? ==> State() == r.value)
    {
      if amount <= 0.0 {
        return Fail(NonPositiveAddAmount);
      }
      var quantity := amount / currencyPrice;
      currencyAmount := currencyAmount + quantity;
      o := Pass;
    }

    method RemoveUsdt(amount: real) returns (o: Outcome)
      requires WalletInvariant(State())
      requires amount > 0.0 ==> ToUsdt(State()) >= amount
      modifies this
      ensures var r := RemoveUsdtAmount(old(State()), amount);
        (o.Fail? <==> r.Err?) &&
        (r.Err? ==> o.error == r.error && State() == old(State())) &&
        (r.Ok? ==> State() == r.value)
    {
      if amount <= 0.0 {
        return Fail(NonPositiveRemoveAmount);
      }
      var quantity := amount / currencyPrice;
      currencyAmount := currencyAmount - Min(currencyAmount, quantity);
      o := Pass;
    }
  }
}
