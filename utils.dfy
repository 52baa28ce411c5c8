/**
 * The response post-processing helpers of utils.js: the error middleware
 * that runs after the transport has completed a response, the adapter from
 * an engine callback to a promise, and the stream-disconnect warning.
 */
module Utils {
  import opened Wrappers
  import opened JsValues
  import opened Rpc

  /** The "unauthorized" error code of EIP-1193. */
  const Unauthorized: int := 4100

  /** A line the middleware writes to the page's log. */
  datatype LogLine =
    | IgnoredRpcError(text: string, error: RpcError)
    | RpcErrorLogged(text: string, error: RpcError)

  /**
   * One run of a middleware's post-processing step: the response it leaves,
   * how many times it called `done`, and what it logged.
   */
  datatype MiddlewareRun = MiddlewareRun(res: Response, doneCalls: nat, log: seq<LogLine>)

  predicate IsUnauthorizedAccounts(reqMethod: JsValue, res: Response) {
    reqMethod == Str("eth_accounts") && res.error.Some? && res.error.value.code == Unauthorized
  }

  /**
   * The post-processing of `createErrorMiddleware` for a request with the given
   * `reqMethod`, once the downstream stages have completed `res`. The value
   * returned by `serializeError` is discarded, so it has no effect here.
   */
  function ErrorMiddleware(reqMethod: JsValue, res: Response): (r: MiddlewareRun)
    ensures r.doneCalls == 1
    ensures res.error.None? ==> r.res == res && r.log == []
    ensures IsUnauthorizedAccounts(reqMethod, res) ==>
      r.res.error.None? && r.res.result == Some(Arr([])) &&
      r.log == [IgnoredRpcError("MetaMask - Ignored RPC Error: " + res.error.value.message, res.error.value)]
    ensures res.error.Some? && !IsUnauthorizedAccounts(reqMethod, res) ==>
      r.res == res &&
      r.log == [RpcErrorLogged("MetaMask - RPC Error: " + res.error.value.message, res.error.value)]
  {
    match res.error
    case None => MiddlewareRun(res, 1, [])
    case Some(e) =>
      if reqMethod == Str("eth_accounts") && e.code == Unauthorized then
        MiddlewareRun(Response(None, Some(Arr([]))),
                      1, [IgnoredRpcError("MetaMask - Ignored RPC Error: " + e.message, e)])
      else
        MiddlewareRun(res, 1, [RpcErrorLogged("MetaMask - RPC Error: " + e.message, e)])
  }

  /**
   * `promiseCallback(resolve, reject)` applied to the callback arguments
   * `(error, response)`: which of the two it calls, and with what. It never
   * leaves the promise pending.
   */
  function PromiseCallback(error: Option<Failure>, response: Response): (p: PromiseState)
    ensures !p.Pending?
    ensures error.Some? ==> p == Rejected(error.value)
    ensures error.None? && response.error.Some? ==> p == Rejected(RpcFailure(response.error.value))
    ensures p.Fulfilled? <==> error.None? && response.error.None?
    ensures p.Fulfilled? ==> p.value == response.result.GetOr(Undefined)
  {
    if error.Some? then Rejected(error.value)
    else if response.error.Some? then Rejected(RpcFailure(response.error.value))
    else Fulfilled(response.result.GetOr(Undefined))
  }

  /** The error passed to a stream's disconnect handler; only its stack trace is used. */
  datatype StreamError = StreamError(stack: string)

  const LostConnectionPrefix: string := "MetamaskInpageProvider - lost connection to "

  /** The warning text built by `logStreamDisconnectWarning`. */
  function DisconnectWarning(remoteLabel: string, err: Option<StreamError>): (w: string)
    ensures |LostConnectionPrefix + remoteLabel| <= |w|
    ensures w[..|LostConnectionPrefix + remoteLabel|] == LostConnectionPrefix + remoteLabel
    ensures err.None? <==> |w| == |LostConnectionPrefix + remoteLabel|
    ensures err.Some? ==> w[|LostConnectionPrefix + remoteLabel|..] == "\n" + err.value.stack
  {
    var base := LostConnectionPrefix + remoteLabel;
    if err.Some? then base + "\n" + err.value.stack else base
  }

  /**
   * The object `logStreamDisconnectWarning` runs on as `this`: an event
   * emitter with some number of 'error' listeners, or a plain global object
   * that has no `listenerCount` method.
   */
  datatype Receiver = EventEmitter(errorListeners: nat) | PlainGlobal

  /** What one call of `logStreamDisconnectWarning` does. */
  datatype WarningRun = WarningRun(warned: string, errorEmitted: bool, threw: Option<Failure>)

  /**
   * `logStreamDisconnectWarning` called on `receiver`: it always prints the
   * warning; it emits 'error' with the same text iff the receiver has error
   * listeners, and throws a TypeError when the receiver is not an emitter.
   */
  function LogStreamDisconnectWarning(receiver: Receiver, remoteLabel: string, err: Option<StreamError>): (r: WarningRun)
    ensures r.warned == DisconnectWarning(remoteLabel, err)
    ensures r.threw.Some? <==> receiver.PlainGlobal?
    ensures r.errorEmitted <==> receiver.EventEmitter? && receiver.errorListeners > 0
  {
    var text := DisconnectWarning(remoteLabel, err);
    match receiver
    case PlainGlobal => WarningRun(text, false, Some(TypeError))
    case EventEmitter(n) => WarningRun(text, n > 0, None)
  }

  /** Running the error middleware on its own output changes nothing further. */
  lemma ErrorMiddlewareIdempotent(reqMethod: JsValue, res: Response)
    ensures ErrorMiddleware(reqMethod, ErrorMiddleware(reqMethod, res).res).res == ErrorMiddleware(reqMethod, res).res
  {
  }

  /**
   * The only error the middleware removes is an unauthorized `eth_accounts`
   * error; every other response keeps its error, unchanged.
   */
  lemma ErrorMiddlewareRemovesOnlyUnauthorizedAccounts(reqMethod: JsValue, res: Response)
    ensures ErrorMiddleware(reqMethod, res).res.error.None? <==>
      res.error.None? || IsUnauthorizedAccounts(reqMethod, res)
    ensures !IsUnauthorizedAccounts(reqMethod, res) ==> ErrorMiddleware(reqMethod, res).res == res
  {
  }
}
