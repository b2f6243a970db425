/** The checked exceptions of the system, and the unchecked ones the model can reach,
    as one tagged error type; Result and Option carry them through every operation. */
module Exceptions {

  /** One constructor per exception class thrown in the core. */
  datatype Error =
    | NoInstructionsFound      // core.NoInstructionsFoundException: a leg narrative is not cached
    | NoSpecifiedJobs          // server.NoSpecifiedJobsException: too few stop lines
    | NoStopsFound             // test.NoStopsFoundException: empty provider stop list
    | UncorrectQuery           // core.UncorrectQueryException: no intermediate stop
    | NotExistingCoordinates   // core.NotExistingCoordinatesException: geocoding failed
    | PathNotFound             // core.PathNotFoundException: the router found no path
    | IOFailure                // java.io.IOException on the connection
    | IndexOutOfBounds         // an unchecked index error (never caught by the server)
    | MalformedAnswer          // an unchecked null or number-format error on a geocoding answer
    | SolverFailure            // an unchecked failure of jsprit, or the use of the null it returns

  datatype Result<+T> = Ok(value: T) | Err(error: Error) {
    predicate IsFailure() { Err? }
    function PropagateFailure<U>(): Result<U> requires Err? { Err(error) }
    function Extract(): T requires Ok? { value }
  }

  datatype Option<+T> = None | Some(value: T)
}
