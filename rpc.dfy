/**
 * JSON-RPC responses as the provider's RPC engine completes them, the
 * failures a caller can observe, and the abstract transport.
 */
module Rpc {
  import opened Wrappers
  import opened JsValues

  /** The `error` member of a response: `{ code, message }`. */
  datatype RpcError = RpcError(code: int, message: string)

  /** A completed response `{ error?, result? }`; request ids are left to the engine. */
  datatype Response = Response(error: Option<RpcError>, result: Option<JsValue>)

  /** What a caller can receive as an error: a remote error or a JavaScript exception. */
  datatype Failure =
    | RpcFailure(rpc: RpcError)
    | TypeError
    | ReferenceError
    | InvalidParams

  /** The state a promise returned to the page ends in. */
  datatype PromiseState = Pending | Fulfilled(value: JsValue) | Rejected(reason: Failure)

  /**
   * The network transport behind the engine: the response to the request at
   * a given position of the outbound stream. It stands for the background
   * process, which may answer differently at different times.
   */
  type Transport = (nat, JsValue) -> Response
}
