/** Failure-carrying values shared by every resource model. */
module Wrappers {

  datatype Option<+T> = None | Some(value: T)

  datatype Result<+T, +E> = Success(value: T) | Failure(error: E)

  /** What a remote read answers: the resource, the client's distinguished
      not-found error, or any other error (its text). */
  datatype Response<+T> = Found(value: T) | NotFound | Failed(cause: string)

  /** How every Read in the core answers: a missing resource is no error
      (the state is cleared instead), any other failure is reported. */
  function ReadOutcome<T>(response: Response<T>): (err: Option<string>)
    ensures err.Some? <==> response.Failed?
    ensures response.Failed? ==> err == Some(response.cause)
  {
    if response.Failed? then Some(response.cause) else None
  }

  /** What a remote delete answers. */
  datatype DeleteStatus = Removed | Missing | Refused(cause: string)

  /** How every Delete in the core answers: a resource that is already gone
      counts as deleted, any other failure is reported. */
  function DeleteOutcome(status: DeleteStatus): (err: Option<string>)
    ensures err.None? <==> !status.Refused?
    ensures status.Refused? ==> err == Some(status.cause)
  {
    match status
    case Removed => None
    case Missing => None
    case Refused(cause) => Some(cause)
  }
}
