/**
 Types shared by the Sale domain model: the absent-or-present wrapper used for
 the constructor's nullable item list, the error kinds, the result of an
 operation that may fail with one of them, and the instant type that stands
 for a `DateTime`.
 */
module DomainTypes {

  /** An instant, as the ticks of a `DateTime`. Only equality is ever used. */
  type Timestamp = int

  /** A value that may be absent; `None` stands for a C# `null` reference. */
  datatype Option<+T> = None | Some(value: T)

  /**
   The error kinds the web layer distinguishes. The domain itself raises only
   two of them: `ValidationError` (an `ArgumentException`) and
   `BusinessRuleViolation` (an `InvalidOperationException`), which carries the
   product name and the requested quantity its localized message names; the
   message text itself is not modelled. `ResourceNotFound` (a
   `KeyNotFoundException`, thrown only by the application's handlers) mirrors
   the web layer's third kind; no operation of this model returns it.
   */
  datatype DomainError =
    | ValidationError
    | BusinessRuleViolation(productName: string, requestedQuantity: int)
    | ResourceNotFound

  /** The outcome of an operation that either returns a value or throws. */
  datatype Result<+T> = Ok(value: T) | Err(error: DomainError)
}
