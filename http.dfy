/**
  What one outbound HTTP request can come back with, as seen through
  `httpx`: a success response (its JSON body, when the caller decodes it),
  an error status raised by `raise_for_status`, a timeout, or any other
  exception (connection failure, undecodable body, ...) with its message.
  The network itself is not modelled: callers receive the outcome as a value.
 */
module Http {
  import opened Json

  datatype Outcome =
    | Received(body: Json)
    | StatusError(code: nat, responseText: string)
    | Timeout
    | Failure(message: string)
}
