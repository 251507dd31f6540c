/** Vocabulary shared by every module: identifiers, moments, optional values and errors. */
module Base {

  /** A task, job or worker identifier. Freshness is tracked by whoever mints one. */
  type Id = nat

  /** A clock reading, in nanoseconds. */
  type Moment = int

  /** A length of time, in nanoseconds. */
  type Span = nat

  const SECOND: Span := 1_000_000_000

  /** The last moment a date can name. */
  const MAX_MOMENT: Moment := 8_210_266_876_799_999_999_999

  /** The longest span the stored state can hold: `i64::MAX` milliseconds. */
  const MAX_SPAN: Span := 9_223_372_036_854_775_807_000_000

  datatype Option<+T> = None | Some(value: T)

  /** The refusals of the domain, without their texts. */
  datatype Error =
    | TaskNotFound
    | TaskWorkerMismatch
    | InvalidStatusTransition
    | IterationDeadlock
    | IterationAlreadySettled
    | Other

  datatype Result<+T> = Ok(value: T) | Err(error: Error)

  /** The moment `span` after `moment`, unless it lies outside the range of dates. */
  function CheckedAdd(moment: Moment, span: Span): Option<Moment> {
    if moment + span <= MAX_MOMENT then Some(moment + span) else None
  }

  function Min(a: int, b: int): int {
    if a <= b then a else b
  }
}
