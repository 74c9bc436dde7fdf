/** `trading_bots::input` of the driver program: its own copy of the RSI indicator. The
    window update is the same as the business indicators'; the query differs in its
    duration check. (`input::trend` there is a stub with no behaviour.) */
module Input {
  import opened Outcomes
  import opened DataTypes
  import opened Indices

  /** `input::rsi::value_for_duration`: only `duration == 1` is rejected. A duration of 0
      would start the range after its end; every caller is an automaton whose template
      requires a non-zero duration, so the model requires it too. */
  function InputRsiValueForDuration(cache: seq<Record>, duration: nat): (r: Result<Option<RsiReading>>)
    requires PositiveCloses(cache) && duration != 0
    ensures r.Err? <==> duration == 1
    ensures r == RsiValueForDuration(cache, duration)
  {
    if duration == 1 then Err(InvalidDuration)
    else if |cache| < duration then Ok(None)
    else Ok(Some(RsiOfWindow(cache, duration).value))
  }
}
