/**
 * The older error middleware of createErrorMiddleware.js: it only logs, and
 * has no special case for `eth_accounts`.
 */
module LegacyErrorMiddleware {
  import opened Wrappers
  import opened JsValues
  import opened Rpc
  import Utils

  /**
   * The post-processing step of the older `createErrorMiddleware` once the
   * downstream stages have completed `res`: the response leaves untouched,
   * `done` is called once, and a line is logged iff there is an error.
   */
  function ErrorMiddleware(res: Response): (r: Utils.MiddlewareRun)
    ensures r.res == res
    ensures r.doneCalls == 1
    ensures |r.log| == (if res.error.Some? then 1 else 0)
    ensures res.error.Some? ==>
      r.log[0] == Utils.RpcErrorLogged("MetaMask - RPC Error: " + res.error.value.message, res.error.value)
  {
    match res.error
    case None => Utils.MiddlewareRun(res, 1, [])
    case Some(e) => Utils.MiddlewareRun(res, 1, [Utils.RpcErrorLogged("MetaMask - RPC Error: " + e.message, e)])
  }

  /**
   * The two middlewares behave the same (response, `done` and log) except on
   * an unauthorized `eth_accounts` error, which only the newer one turns into
   * an empty result.
   */
  lemma MiddlewaresDifferOnlyOnUnauthorizedAccounts(reqMethod: JsValue, res: Response)
    ensures Utils.IsUnauthorizedAccounts(reqMethod, res) ==>
      ErrorMiddleware(res).res.error.Some? && Utils.ErrorMiddleware(reqMethod, res).res.error.None?
    ensures !Utils.IsUnauthorizedAccounts(reqMethod, res) ==>
      ErrorMiddleware(res) == Utils.ErrorMiddleware(reqMethod, res)
  {
  }
}
