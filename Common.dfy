/** Value types shared by the repositories and services of the ORT server model. */
module Common {

  /** A Kotlin nullable value: `null` is None. */
  datatype Option<+T> = None | Some(value: T)

  /**
   * The exceptions the modelled code raises or lets through:
   * - EntityNotFound: Exposed's EntityNotFoundException, thrown by `Dao[id]` for a missing row;
   * - IllegalArgument: the IllegalArgumentException of `WorkerJobRepository.tryComplete`;
   * - StorageFailure: any other failure of a database transaction (connection loss,
   *   constraint violation), which rolls the transaction back.
   */
  datatype Error = EntityNotFound(id: int) | IllegalArgument(id: int) | StorageFailure

  /** The outcome of a call: its value, or the exception it throws. */
  datatype Result<+T> = Success(value: T) | Failure(error: Error)

  /**
   * `OptionalValue<T>` of the update payloads: a field is Absent (leave it as it is) or
   * Present(v); for a nullable field v itself may be None (clear the field).
   */
  datatype OptionalValue<+T> = Absent | Present(value: T)

  /** `ifPresent { field = it }`: the value a field holds after an update with `v`. */
  function IfPresent<T>(v: OptionalValue<T>, current: T): T
  {
    match v
    case Absent => current
    case Present(x) => x
  }

  /** The value of the later of two successive updates of one field. */
  function Override<T>(first: OptionalValue<T>, second: OptionalValue<T>): OptionalValue<T>
  {
    if second.Present? then second else first
  }
}
