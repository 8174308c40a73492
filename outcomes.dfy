/** Values that stand for the results of effects the client does not control:
    an HTTP request (axios) and a local storage call (AsyncStorage). */
module Outcomes {

  /** A JavaScript value that may be `null` or `undefined`. */
  datatype Option<+T> = None | Some(value: T)

  /** Why a request rejected. `ServerError` is an axios error that carries a
      response (with the server's `message`); `NetworkError` is one without a
      response; `StorageError` is a rejected AsyncStorage promise. */
  datatype Failure = ServerError(message: string) | NetworkError | StorageError

  /** How an awaited request settled: resolved with a value or rejected. */
  datatype Outcome<+T> = Ok(value: T) | Err(failure: Failure)

  /** How an awaited AsyncStorage call settled. */
  datatype IoStatus = Succeeds | Fails
}
