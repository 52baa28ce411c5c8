/**
 * Four places where index.js, as written, does not do what it evidently
 * means to do. Each as-written behaviour is modelled here beside a lemma that
 * exhibits the difference; the rest of the model follows the intended
 * behaviour (ProviderSpec and the Provider class).
 */
module Findings {
  import opened Wrappers
  import opened JsValues
  import opened Rpc
  import Utils
  import opened ProviderSpec
  import ProviderProperties

  // ---------------------------------------------------------------------
  // 1. `sendSiteMetadata` is imported from a module that does not export it,
  //    so the call on the first `_sendAsync` throws before the flag is set.

  /**
   * `_sendAsync` as written: with the imported `sendSiteMetadata` undefined,
   * every call made while the metadata flag is unset throws a TypeError
   * before anything reaches the engine, and the flag is never set.
   */
  function SendAsyncInternalAsWritten(s: State, t: Transport, payload: JsValue): (r: Step<Delivery>)
    ensures !s.sentSiteMetadata ==> r == Step(s, Threw(TypeError))
    ensures s.sentSiteMetadata ==> r == SendAsyncInternal(s, t, payload)
  {
    if IsNullish(payload) || !s.sentSiteMetadata then Step(s, Threw(TypeError))
    else SendAsyncInternal(s, t, payload)
  }

  /**
   * From a fresh provider, the as-written `_sendAsync` sends nothing and
   * throws for `{ method: 'eth_accounts' }`, and leaves the provider as it
   * was, so the next call fails the same way; the intended one sends the
   * request and the metadata.
   */
  lemma SiteMetadataImportBreaksEveryRequest(t: Transport)
    ensures SendAsyncInternalAsWritten(Init(), t, AccountsPayload) == Step(Init(), Threw(TypeError))
    ensures SendAsyncInternal(Init(), t, AccountsPayload).state.requests == [ProviderProperties.AccountsRequest()]
    ensures SendAsyncInternal(Init(), t, AccountsPayload).state.metadataSends == 1
  {
  }

  // ---------------------------------------------------------------------
  // 2. The callback form of `send` passes the undefined names `payload` and
  //    `callback` on, which throws a ReferenceError.

  /** `send` as written: the callback form throws a ReferenceError and sends nothing. */
  function SendAsWritten(s: State, t: Transport, m: JsValue, p: JsValue): (r: Step<SendResult>)
    ensures SendShape(m, p).LegacyCallback? ==> r == Step(s, SendThrew(ReferenceError))
    ensures !SendShape(m, p).LegacyCallback? ==> r == Send(s, t, m, p)
  {
    if SendShape(m, p).LegacyCallback? then Step(s, SendThrew(ReferenceError))
    else Send(s, t, m, p)
  }

  /**
   * `send({ method: 'eth_chainId' }, cb)`: as written it throws and sends
   * nothing; as intended it forwards the payload and answers the callback.
   */
  lemma SendCallbackFormThrowsAsWritten(s: State, t: Transport)
    ensures var m := Obj(map["method" := Str("eth_chainId")]);
      && SendAsWritten(s, t, m, Fn(0)) == Step(s, SendThrew(ReferenceError))
      && Send(s, t, m, Fn(0)).value.CallbackForm?
      && |Send(s, t, m, Fn(0)).state.requests| == |s.requests| + 1
  {
    var m := Obj(map["method" := Str("eth_chainId")]);
    assert SendShape(m, Fn(0)).LegacyCallback?;
  }

  // ---------------------------------------------------------------------
  // 3. `_handleDisconnect` calls `logStreamDisconnectWarning` without a
  //    receiver, so `this.listenerCount` is read on the page's global object
  //    and throws; lines 303-309 also name the global `self`.

  /**
   * `_handleDisconnect` as written: the warning is printed, then the
   * TypeError from `this.listenerCount` ends the handler, so no 'close' is
   * emitted and the connection flag keeps its value.
   */
  function HandleDisconnectAsWritten(s: State, remoteLabel: string, err: Option<Utils.StreamError>)
    : (r: Step<Option<Failure>>)
    ensures r.value == Some(TypeError)
    ensures r.state == s.(console := s.console + [Warned(LostConnection(Utils.DisconnectWarning(remoteLabel, err)))])
  {
    var run := Utils.LogStreamDisconnectWarning(Utils.PlainGlobal, remoteLabel, err);
    Step(s.(console := s.console + [Warned(LostConnection(run.warned))]), run.threw)
  }

  /**
   * A connected provider losing its connection: as written it throws, emits
   * no 'close' and still reports itself connected; as intended it emits
   * 'close' with code 1011 and is disconnected.
   */
  lemma DisconnectNeverClosesAsWritten(s: State, remoteLabel: string, err: Option<Utils.StreamError>, n: nat)
    ensures var c := Connect(s);
      var asWritten := HandleDisconnectAsWritten(c, remoteLabel, err);
      var intended := HandleDisconnect(c, remoteLabel, err, n);
      && asWritten.value == Some(TypeError)
      && asWritten.state.events == c.events
      && Truthy(asWritten.state.isConnected)
      && Close(CloseCode, CloseReason) in intended.events[|c.events|..]
      && intended.isConnected == Bool(false)
  {
    ProviderProperties.ConnectedDisconnectCloses(s, remoteLabel, err, n);
  }

  // ---------------------------------------------------------------------
  // 4. `isConnected` returns `self._isConnected`, where `self` is the page's
  //    global object, not the provider.

  /** `isConnected()` as written: the `_isConnected` property of the page's global object. */
  function IsConnectedAsWritten(pageGlobal: map<string, JsValue>): (r: JsValue)
    ensures "_isConnected" !in pageGlobal ==> r == Undefined
  {
    if "_isConnected" in pageGlobal then pageGlobal["_isConnected"] else Undefined
  }

  /**
   * After 'connect', the provider's own flag is true and a disconnect makes it
   * false, while the as-written `isConnected()` reports `undefined` throughout
   * on a page that defines no global `_isConnected`.
   */
  lemma IsConnectedReadsGlobalAsWritten(s: State, remoteLabel: string, err: Option<Utils.StreamError>, n: nat)
    ensures IsConnectedAsWritten(map[]) == Undefined
    ensures Connect(s).isConnected == Bool(true)
    ensures HandleDisconnect(Connect(s), remoteLabel, err, n).isConnected == Bool(false)
  {
  }
}
