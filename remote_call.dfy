/**
 * The boundary to the chassis management service. Every remote request the
 * module accessor issues (open a channel, send one request, close the channel)
 * is represented by its outcome alone, which the caller supplies.
 */
module RemoteCall {

  /** The outcome of one scoped remote call. */
  datatype Rpc<+R> =
    | ConnFail          // no channel or no stub could be set up
    | RpcFail           // the channel was up but the request did not complete
    | Ok(response: R)   // the request completed and returned `response`
  {
    /** True when the caller has to fall back to its default or cached value. */
    predicate Failed() {
      !Ok?
    }
  }

  /** A value that may be absent (Python's None). */
  datatype Option<+T> = None | Some(value: T)

  /** The status code carried inside a service response. */
  datatype ResponseCode =
    | NdkSuccess
    | NdkErrResourceNotFound
    | NdkErrOther(code: int)   // any other error code of the service
}
