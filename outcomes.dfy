/** Failure-carrying results shared by every module of the engine.
    `Error` names each exception the engine can throw; `Result`/`Outcome` replace
    the C++ exceptions by explicit error values. */
module Outcomes {

  /** The exceptions of the system, one constructor per throw site kind. */
  datatype Error =
    | RateOutOfRange            // data_types::rate : "rate must be [0.0, 100.0]"
    | CorruptedDate             // record::ensure_datas_integrity : empty Date
    | CorruptedHighLow          // record::ensure_datas_integrity : High < Low
    | NonPositiveAddAmount      // wallet::add_USDT_amount : amount <= 0
    | NonPositiveRemoveAmount   // wallet::remove_USDT_amount : amount <= 0
    | CannotBuyLessThanZero     // base::buy_up_to
    | CannotSellLessThanZero    // base::sell_up_to
    | InvalidDuration           // rsi/trend/roc::value_for_duration : duration <= 1
    | ReadPastEnd               // dereference of cache[duration] past the end of the window
    | IncompleteInput           // csv::extract_last_field on an empty line
    | ParseFailure              // std::stof rejects a field
    | DuplicateKinds            // a view or a storage whose kinds are not pairwise distinct
    | MissingKind               // a requested kind absent from the storage
    | NotATemplateInstantiation // the static_assert of the primary mp::unique_ttps / unique_nttps
    | GeneratorUnhandledException // coro::generator rethrows any exception of its body as its own
    | UnsatisfiedConstraint     // a template's `requires (duration not_eq 0)` rejects the configuration

  datatype Option<+T> = None | Some(value: T)

  datatype Result<+T> = Ok(value: T) | Err(error: Error) {
    predicate IsFailure() { Err? }
    function PropagateFailure<U>(): Result<U>
      requires Err?
    {
      Err(error)
    }
    function Extract(): T
      requires Ok?
    {
      value
    }
  }

  /** A result without a value: the outcome of a `void` operation that may throw. */
  datatype Outcome = Pass | Fail(error: Error) {
    predicate IsFailure() { Fail? }
    function PropagateFailure<U>(): Result<U>
      requires Fail?
    {
      Err(error)
    }
  }
}
