/**
 * The state and normalisation layer of the in-page provider (index.js) as a
 * state machine over values. Each function takes the provider's state before
 * an operation and gives the state after it together with what the caller
 * observes. The class in provider.dfy is proved to follow these functions.
 *
 * The RPC engine (id remapping, then the error middleware, then the
 * transport) is abstract: the transport is the oracle `t`, asked about the
 * request at each position of the outbound stream, and the error middleware
 * post-processes its response. The engine is taken to call back with the
 * completed response's error as its first argument. A response arrives
 * synchronously in this model, so a callback is represented by the
 * arguments it is called with.
 */
module ProviderSpec {
  import opened Wrappers
  import opened JsValues
  import opened Rpc
  import Utils

  /** What the provider writes to the console with `console.warn`. */
  datatype Warning =
    | EnableDeprecation
    | SendAsyncDeprecation
    | SignTypedDataDeprecation
    | LostConnection(text: string)

  /** One line of console output. */
  datatype ConsoleLine =
    | Warned(warning: Warning)
    | Logged(line: Utils.LogLine)
    | Printed(reason: Failure)

  /** The events the provider emits. */
  datatype Event =
    | ChainChanged(chainId: JsValue)
    | NetworkChanged(networkVersion: JsValue)
    | AccountsChanged(accounts: JsValue)
    | Close(code: int, reason: string)
    | ErrorEmitted(message: string)

  /**
   * The instance fields of the provider, with what it has sent and emitted:
   * `requests` are the payloads handed to the RPC engine, `metadataSends`
   * counts the site-metadata sends, `events` and `console` are its output.
   */
  datatype State = State(
    chainId: JsValue,
    networkVersion: JsValue,
    selectedAddress: JsValue,
    isConnected: JsValue,
    warnedEnable: bool,
    warnedSendAsync: bool,
    warnedSignTypedData: bool,
    sentSiteMetadata: bool,
    metadataSends: nat,
    requests: seq<JsValue>,
    events: seq<Event>,
    console: seq<ConsoleLine>)

  /** The state after an operation and the value the caller observes. */
  datatype Step<+T> = Step(state: State, value: T)

  /**
   * How a call of the internal `_sendAsync` ends for its caller: it throws
   * synchronously, it calls the callback with `(err, res)`, or the callback
   * wrapper throws before the callback is reached.
   */
  datatype Delivery =
    | Threw(thrown: Failure)
    | Delivered(err: Option<Failure>, res: Response)
    | CallbackThrew(thrown: Failure)

  /** How a call of `send` ends: it throws, it answers a callback, or it returns a promise. */
  datatype SendResult =
    | SendThrew(thrown: Failure)
    | CallbackForm(delivery: Delivery)
    | PromiseForm(promise: PromiseState)

  const CloseCode: int := 1011
  const CloseReason: string := "MetaMask background communication error."

  /** The request `_requestAccounts` sends to read the accounts. */
  const AccountsPayload: JsValue := Obj(map["method" := Str("eth_accounts")])

  /** The request `_requestAccounts` sends to ask for the accounts permission. */
  const PermissionsPayload: JsValue :=
    Obj(map["jsonrpc" := Str("2.0"),
            "method" := Str("wallet_requestPermissions"),
            "params" := Arr([Obj(map["eth_accounts" := Obj(map[])])])])

  /** The state right after construction. */
  function Init(): (s: State)
    ensures Valid(s)
    ensures s.requests == [] && s.events == [] && s.console == []
  {
    State(Undefined, Undefined, Undefined, Undefined, false, false, false, false, 0, [], [], [])
  }

  /** How many times warning `w` was printed. */
  function Occurrences(log: seq<ConsoleLine>, w: Warning): (n: nat)
    ensures n <= |log|
  {
    if log == [] then 0
    else (if log[0] == Warned(w) then 1 else 0) + Occurrences(log[1..], w)
  }

  lemma {:induction false} OccurrencesAppend(a: seq<ConsoleLine>, b: seq<ConsoleLine>, w: Warning)
    ensures Occurrences(a + b, w) == Occurrences(a, w) + Occurrences(b, w)
  {
    if a != [] {
      assert (a + b)[1..] == a[1..] + b;
      OccurrencesAppend(a[1..], b, w);
    } else {
      assert a + b == b;
    }
  }

  /**
   * The object invariant: each one-time flag is set iff its warning was
   * printed, and then exactly once; site metadata was sent once iff its flag is set.
   */
  predicate Valid(s: State) {
    && Occurrences(s.console, EnableDeprecation) == (if s.warnedEnable then 1 else 0)
    && Occurrences(s.console, SendAsyncDeprecation) == (if s.warnedSendAsync then 1 else 0)
    && Occurrences(s.console, SignTypedDataDeprecation) == (if s.warnedSignTypedData then 1 else 0)
    && s.metadataSends == (if s.sentSiteMetadata then 1 else 0)
  }

  /** How the state may evolve: flags never reset, output only grows. */
  predicate Evolves(s: State, t: State) {
    && (s.warnedEnable ==> t.warnedEnable)
    && (s.warnedSendAsync ==> t.warnedSendAsync)
    && (s.warnedSignTypedData ==> t.warnedSignTypedData)
    && (s.sentSiteMetadata ==> t.sentSiteMetadata)
    && s.requests <= t.requests
    && s.events <= t.events
    && s.console <= t.console
  }

  /** Whether `snapshot` carries `key` with a value other than `stored`. */
  predicate Changes(snapshot: map<string, JsValue>, key: string, stored: JsValue) {
    key in snapshot && snapshot[key] != stored
  }

  /**
   * The public-config subscriber: each of `chainId` and `networkVersion` is
   * stored and announced when the snapshot carries it with a new value.
   */
  function ApplyConfig(s: State, snapshot: map<string, JsValue>): (r: State)
    ensures r.chainId == if "chainId" in snapshot then snapshot["chainId"] else s.chainId
    ensures r.networkVersion ==
      if "networkVersion" in snapshot then snapshot["networkVersion"] else s.networkVersion
    ensures r.events == s.events
      + (if Changes(snapshot, "chainId", s.chainId) then [ChainChanged(r.chainId)] else [])
      + (if Changes(snapshot, "networkVersion", s.networkVersion) then [NetworkChanged(r.networkVersion)] else [])
    ensures r == s.(chainId := r.chainId, networkVersion := r.networkVersion, events := r.events)
  {
    var s1 :=
      if "chainId" in snapshot && snapshot["chainId"] != s.chainId then
        s.(chainId := snapshot["chainId"], events := s.events + [ChainChanged(snapshot["chainId"])])
      else s;
    if "networkVersion" in snapshot && snapshot["networkVersion"] != s1.networkVersion then
      s1.(networkVersion := snapshot["networkVersion"],
          events := s1.events + [NetworkChanged(snapshot["networkVersion"])])
    else s1
  }

  /** The 'connect' listener: the provider counts as connected from then on. */
  function Connect(s: State): (r: State)
    ensures Truthy(r.isConnected)
    ensures r == s.(isConnected := r.isConnected)
  {
    s.(isConnected := Bool(true))
  }

  /**
   * `_handleAccountsChanged(accounts)`: `accounts[0]` becomes the selected
   * address, announced with the whole list iff it differs from the old one.
   * Reading `accounts[0]` throws a TypeError on `undefined` and `null`.
   */
  function HandleAccountsChanged(s: State, accounts: JsValue): (r: Step<Option<Failure>>)
    ensures r.value.Some? <==> IsNullish(accounts)
    ensures r.value.Some? ==> r.state == s
    ensures r.value.None? ==> r.state.selectedAddress == FirstElement(accounts).value
    ensures r.value.None? ==>
      r.state.events == s.events +
        (if FirstElement(accounts).value != s.selectedAddress then [AccountsChanged(accounts)] else [])
    ensures r.state == s.(selectedAddress := r.state.selectedAddress, events := r.state.events)
  {
    match FirstElement(accounts)
    case None => Step(s, Some(TypeError))
    case Some(first) =>
      if s.selectedAddress != first then
        Step(s.(selectedAddress := first, events := s.events + [AccountsChanged(accounts)]), None)
      else Step(s, None)
  }

  /**
   * `_handleDisconnect(remoteLabel, err)`, run on the provider itself: the
   * warning is printed (and emitted as 'error' when the page listens for
   * it), 'close' with code 1011 is emitted iff the provider was connected,
   * and the provider is disconnected afterwards.
   */
  function HandleDisconnect(s: State, remoteLabel: string, err: Option<Utils.StreamError>,
                            errorListeners: nat): (r: State)
    ensures !Truthy(r.isConnected) && r.isConnected == Bool(false)
    ensures s.events <= r.events
    ensures Close(CloseCode, CloseReason) in r.events[|s.events|..] <==> Truthy(s.isConnected)
    ensures r.console == s.console + [Warned(LostConnection(Utils.DisconnectWarning(remoteLabel, err)))]
    ensures r == s.(isConnected := r.isConnected, events := r.events, console := r.console)
  {
    var run := Utils.LogStreamDisconnectWarning(Utils.EventEmitter(errorListeners), remoteLabel, err);
    var emitted: seq<Event> := if run.errorEmitted then [ErrorEmitted(run.warned)] else [];
    var closed: seq<Event> := if Truthy(s.isConnected) then [Close(CloseCode, CloseReason)] else [];
    assert Close(CloseCode, CloseReason) !in emitted;
    assert (s.events + emitted + closed)[|s.events|..] == emitted + closed;
    s.(isConnected := Bool(false),
       events := s.events + emitted + closed,
       console := s.console + [Warned(LostConnection(run.warned))])
  }

  /** The middleware's log lines as console output. */
  function Logs(log: seq<Utils.LogLine>): (r: seq<ConsoleLine>)
    ensures |r| == |log|
  {
    if log == [] then [] else [Logged(log[0])] + Logs(log[1..])
  }

  /** `err.code || res.error.code`; None stands for the TypeError when `res.error` is missing. */
  function ErrorCode(err: Failure, res: Response): Option<int> {
    if err.RpcFailure? && err.rpc.code != 0 then Some(err.rpc.code)
    else if res.error.Some? then Some(res.error.value.code)
    else None
  }

  /**
   * The callback `_sendAsync` puts in front of the caller's for `eth_accounts`:
   * any error clears the selected address, an unauthorized error is turned
   * into an empty successful result, and a success tracks the returned accounts.
   */
  function AccountsCallback(s: State, err: Option<Failure>, res: Response): (r: Step<Delivery>)
    ensures !r.value.Threw?
    ensures err.Some? ==> !Truthy(r.state.selectedAddress)
    ensures err.Some? && ErrorCode(err.value, res) == Some(Utils.Unauthorized) ==>
      r.value == Delivered(None, Response(None, Some(Arr([]))))
    ensures err.Some? && ErrorCode(err.value, res).Some? && ErrorCode(err.value, res) != Some(Utils.Unauthorized) ==>
      r.value == Delivered(err, res)
    ensures err.None? ==> (r.value == Delivered(None, res) <==> !IsNullish(res.result.GetOr(Undefined)))
    ensures err.None? && !IsNullish(res.result.GetOr(Undefined)) ==>
      r.state.selectedAddress == FirstElement(res.result.GetOr(Undefined)).value
    ensures r.state == s.(selectedAddress := r.state.selectedAddress, events := r.state.events)
  {
    if err.Some? then
      var cleared := HandleAccountsChanged(s, Arr([])).state;
      match ErrorCode(err.value, res)
      case None => Step(cleared, CallbackThrew(TypeError))
      case Some(code) =>
        if code == Utils.Unauthorized then Step(cleared, Delivered(None, Response(None, Some(Arr([])))))
        else Step(cleared, Delivered(err, res))
    else
      var tracked := HandleAccountsChanged(s, res.result.GetOr(Undefined));
      if tracked.value.Some? then Step(tracked.state, CallbackThrew(tracked.value.value))
      else Step(tracked.state, Delivered(None, res))
  }

  /** `if (!payload.jsonrpc) payload.jsonrpc = '2.0'`. */
  function WithJsonRpc(payload: JsValue): (p: JsValue)
    requires !IsNullish(payload)
    ensures !IsNullish(p)
    ensures GetProp(p, "method") == GetProp(payload, "method")
    ensures Truthy(GetProp(payload, "jsonrpc").value) ==> p == payload
    ensures payload.Obj? && !Truthy(GetProp(payload, "jsonrpc").value) ==> GetProp(p, "jsonrpc") == Some(Str("2.0"))
    ensures payload.Obj? ==> p.Obj? && forall k :: k in payload.props && k != "jsonrpc" ==>
      k in p.props && p.props[k] == payload.props[k]
  {
    if Truthy(GetProp(payload, "jsonrpc").value) then payload
    else SetProp(payload, "jsonrpc", Str("2.0"))
  }

  /** `payload.method` of a payload whose property access does not throw. */
  function MethodOf(payload: JsValue): JsValue
    requires !IsNullish(payload)
  {
    GetProp(payload, "method").value
  }

  /** The first argument of the engine's callback: the completed response's error. */
  function EngineError(res: Response): Option<Failure> {
    if res.error.Some? then Some(RpcFailure(res.error.value)) else None
  }

  /**
   * The part of `_sendAsync` before the engine is called: the site metadata
   * is sent on first use, and the first `eth_signTypedData` request prints
   * its deprecation warning.
   */
  function BeforeDispatch(s: State, p: JsValue): (r: State)
    requires !IsNullish(p)
    ensures r.sentSiteMetadata
    ensures r.metadataSends == if s.sentSiteMetadata then s.metadataSends else s.metadataSends + 1
    ensures r.warnedSignTypedData == (s.warnedSignTypedData || MethodOf(p) == Str("eth_signTypedData"))
    ensures r.console == s.console +
      (if MethodOf(p) == Str("eth_signTypedData") && !s.warnedSignTypedData
       then [Warned(SignTypedDataDeprecation)] else [])
    ensures r == s.(sentSiteMetadata := true, metadataSends := r.metadataSends,
                    warnedSignTypedData := r.warnedSignTypedData, console := r.console)
  {
    var s1 := if s.sentSiteMetadata then s else s.(sentSiteMetadata := true, metadataSends := s.metadataSends + 1);
    if MethodOf(p) == Str("eth_signTypedData") && !s1.warnedSignTypedData then
      s1.(warnedSignTypedData := true, console := s1.console + [Warned(SignTypedDataDeprecation)])
    else s1
  }

  /**
   * `self.rpcEngine.handle(payload, cb)`: the payload joins the outbound
   * stream, the transport answers it, the error middleware post-processes the
   * answer, and the callback (wrapped for `eth_accounts`) receives it.
   */
  function Dispatch(s: State, t: Transport, p: JsValue): (r: Step<Delivery>)
    requires !IsNullish(p)
    ensures !r.value.Threw?
    ensures r.state.requests == s.requests + [p]
    ensures r.state.console == s.console + Logs(Utils.ErrorMiddleware(MethodOf(p), t(|s.requests|, p)).log)
    ensures MethodOf(p) != Str("eth_accounts") ==> r.state.events == s.events && r.state.selectedAddress == s.selectedAddress
    ensures MethodOf(p) != Str("eth_accounts") ==>
      r.value == Delivered(EngineError(t(|s.requests|, p)), t(|s.requests|, p))
    ensures r.state == s.(requests := r.state.requests, console := r.state.console,
                          selectedAddress := r.state.selectedAddress, events := r.state.events)
  {
    var run := Utils.ErrorMiddleware(MethodOf(p), t(|s.requests|, p));
    var s1 := s.(requests := s.requests + [p], console := s.console + Logs(run.log));
    if MethodOf(p) == Str("eth_accounts") then AccountsCallback(s1, EngineError(run.res), run.res)
    else Step(s1, Delivered(EngineError(run.res), run.res))
  }

  /**
   * `_sendAsync(payload, callback)`: default `jsonrpc`, send the site
   * metadata on first use, warn once about `eth_signTypedData`, wrap the
   * callback for `eth_accounts`, and hand the payload to the RPC engine.
   * (The `eth_accounts` test sits in the `else` of the `eth_signTypedData`
   * test, which can only hold for the other method name.)
   */
  function SendAsyncInternal(s: State, t: Transport, payload: JsValue): (r: Step<Delivery>)
    ensures r.value.Threw? <==> IsNullish(payload)
    ensures r.value.Threw? ==> r.state == s
    ensures !r.value.Threw? ==>
      && r.state.requests == s.requests + [WithJsonRpc(payload)]
      && r.state.sentSiteMetadata
      && r.state.metadataSends == (if s.sentSiteMetadata then s.metadataSends else s.metadataSends + 1)
      && r.state.chainId == s.chainId && r.state.networkVersion == s.networkVersion
      && r.state.isConnected == s.isConnected
      && r.state.warnedEnable == s.warnedEnable && r.state.warnedSendAsync == s.warnedSendAsync
    ensures !IsNullish(payload) && MethodOf(payload) != Str("eth_accounts") ==>
      var reply := t(|s.requests|, WithJsonRpc(payload));
      r.value == Delivered(EngineError(reply), reply)
  {
    if IsNullish(payload) then Step(s, Threw(TypeError))
    else
      var p := WithJsonRpc(payload);
      Dispatch(BeforeDispatch(s, p), t, p)
  }

  /** `sendAsync(payload, cb)`: a one-time deprecation warning, then `_sendAsync`. */
  function SendAsync(s: State, t: Transport, payload: JsValue): (r: Step<Delivery>)
    ensures r.state.warnedSendAsync
    ensures r == SendAsyncInternal(
      if s.warnedSendAsync then s
      else s.(warnedSendAsync := true, console := s.console + [Warned(SendAsyncDeprecation)]), t, payload)
  {
    var s1 := if s.warnedSendAsync then s
              else s.(warnedSendAsync := true, console := s.console + [Warned(SendAsyncDeprecation)]);
    SendAsyncInternal(s1, t, payload)
  }

  /**
   * A promise whose executor calls `_sendAsync(payload, promiseCallback(resolve, reject))`:
   * a synchronous throw rejects it, a callback settles it, and a throwing
   * callback wrapper leaves it pending.
   */
  function Settle(d: Delivery): (p: PromiseState)
    ensures d.Threw? ==> p == Rejected(d.thrown)
    ensures p.Pending? <==> d.CallbackThrew?
    ensures d.Delivered? ==> p == Utils.PromiseCallback(d.err, d.res)
  {
    match d
    case Threw(f) => Rejected(f)
    case Delivered(err, res) => Utils.PromiseCallback(err, res)
    case CallbackThrew(_) => Pending
  }

  /** `.catch(err => console.error(err))`: a rejection is printed and the chain fulfils with `undefined`. */
  function CatchToConsole(s: State, p: PromiseState): (r: Step<PromiseState>)
    ensures !r.value.Rejected?
    ensures p.Rejected? ==> r == Step(s.(console := s.console + [Printed(p.reason)]), Fulfilled(Undefined))
    ensures !p.Rejected? ==> r == Step(s, p)
    ensures r.state == s.(console := r.state.console)
  {
    match p
    case Rejected(f) => Step(s.(console := s.console + [Printed(f)]), Fulfilled(Undefined))
    case _ => Step(s, p)
  }

  /** The promise of the first `eth_accounts` call of `_requestAccounts`. */
  function FirstAccounts(s: State, t: Transport): PromiseState {
    Settle(SendAsyncInternal(s, t, AccountsPayload).value)
  }

  /** Whether the accounts `_requestAccounts` read are a non-empty array. */
  predicate HasAccounts(v: JsValue) {
    IsArray(v) && |v.elems| > 0
  }

  /**
   * `_requestAccounts()`: read the accounts; only when that gives no
   * non-empty array, ask for the permission and then read them once more.
   * Every rejection on the way is printed, never passed on.
   */
  function RequestAccounts(s: State, t: Transport): (r: Step<PromiseState>)
    ensures !r.value.Rejected?
    ensures s.requests <= r.state.requests
    ensures r.state.warnedEnable == s.warnedEnable && r.state.warnedSendAsync == s.warnedSendAsync
  {
    var first := SendAsyncInternal(s, t, AccountsPayload);
    var p := Settle(first.value);
    if p.Fulfilled? && !HasAccounts(p.value) then RequestPermissionThenAccounts(first.state, t)
    else CatchToConsole(first.state, p)
  }

  /** The branch of `_requestAccounts` taken when the first read finds no accounts. */
  function RequestPermissionThenAccounts(s: State, t: Transport): (r: Step<PromiseState>)
    ensures !r.value.Rejected?
    ensures s.requests <= r.state.requests
    ensures r.state.warnedEnable == s.warnedEnable && r.state.warnedSendAsync == s.warnedSendAsync
  {
    var perm := SendAsyncInternal(s, t, PermissionsPayload);
    var p := Settle(perm.value);
    if p.Fulfilled? then
      var second := SendAsyncInternal(perm.state, t, AccountsPayload);
      CatchToConsole(second.state, Settle(second.value))
    else CatchToConsole(perm.state, p)
  }

  /** `enable()`: a one-time deprecation warning, then `_requestAccounts`. */
  function Enable(s: State, t: Transport): (r: Step<PromiseState>)
    ensures r.state.warnedEnable
    ensures r == RequestAccounts(
      if s.warnedEnable then s
      else s.(warnedEnable := true, console := s.console + [Warned(EnableDeprecation)]), t)
  {
    var s1 := if s.warnedEnable then s
              else s.(warnedEnable := true, console := s.console + [Warned(EnableDeprecation)]);
    RequestAccounts(s1, t)
  }

  /** The calling convention `send` recognises in its two arguments. */
  datatype CallShape =
    | LegacyCallback
    | RpcCall(name: string, params: JsValue)
    | BadArguments(thrown: Failure)

  /**
   * How `send(methodOrPayload, paramsOrCallback)` reads its arguments: an
   * object with a callback is the callback form; an object whose `method` is
   * a string, or a method string with its params, is an RPC call; anything
   * else throws (a TypeError for `null`, whose `method` cannot be read).
   */
  function SendShape(m: JsValue, p: JsValue): (c: CallShape)
    ensures c.LegacyCallback? <==> !IsArray(m) && TypeOf(m) == "object" && TypeOf(p) == "function"
    ensures !c.LegacyCallback? && m.Obj? && "method" in m.props && m.props["method"].Str? ==>
      c == RpcCall(m.props["method"].s, if "params" in m.props then m.props["params"] else Undefined)
    ensures !c.LegacyCallback? && m.Obj? && !("method" in m.props && m.props["method"].Str?) ==>
      c == BadArguments(InvalidParams)
    ensures m.Str? ==> c == RpcCall(m.s, p)
    ensures m.Arr? || (TypeOf(m) != "object" && !m.Str?) ==> c == BadArguments(InvalidParams)
    ensures m.Null? && !c.LegacyCallback? ==> c == BadArguments(TypeError)
  {
    if !IsArray(m) && TypeOf(m) == "object" && TypeOf(p) == "function" then LegacyCallback
    else if TypeOf(m) == "object" then
      match GetProp(m, "method")
      case None => BadArguments(TypeError)
      case Some(name) =>
        if name.Str? then RpcCall(name.s, GetProp(m, "params").value) else BadArguments(InvalidParams)
    else if m.Str? then RpcCall(m.s, p)
    else BadArguments(InvalidParams)
  }

  /** The params coercion of `send`: arrays stay, a truthy value is wrapped, a falsy one becomes `[]`. */
  function CoerceParams(params: JsValue): (r: JsValue)
    ensures IsArray(r)
    ensures IsArray(params) ==> r == params
    ensures !IsArray(params) && Truthy(params) ==> r == Arr([params])
    ensures !IsArray(params) && !Truthy(params) ==> r == Arr([])
  {
    if IsArray(params) then params
    else if Truthy(params) then Arr([params])
    else Arr([])
  }

  /** The request `send` builds for an RPC call. */
  function SendPayload(name: string, params: JsValue): JsValue {
    Obj(map["method" := Str(name), "params" := CoerceParams(params)])
  }

  /**
   * `send(methodOrPayload, paramsOrCallback)`, with the callback form
   * forwarding both of its own arguments to `_sendAsync`; `eth_requestAccounts`
   * goes to `_requestAccounts`, every other method to one promise.
   */
  function Send(s: State, t: Transport, m: JsValue, p: JsValue): (r: Step<SendResult>)
    ensures SendShape(m, p).BadArguments? ==> r == Step(s, SendThrew(SendShape(m, p).thrown))
    ensures SendShape(m, p).RpcCall? ==> r.value.PromiseForm?
  {
    match SendShape(m, p)
    case LegacyCallback =>
      var d := SendAsyncInternal(s, t, m);
      if d.value.Threw? then Step(d.state, SendThrew(d.value.thrown)) else Step(d.state, CallbackForm(d.value))
    case BadArguments(f) => Step(s, SendThrew(f))
    case RpcCall(name, params) =>
      if name == "eth_requestAccounts" then
        var r := RequestAccounts(s, t);
        Step(r.state, PromiseForm(r.value))
      else
        var d := SendAsyncInternal(s, t, SendPayload(name, params));
        Step(d.state, PromiseForm(Settle(d.value)))
  }
}
