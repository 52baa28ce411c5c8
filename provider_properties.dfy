/**
 * What the provider's state machine promises across calls: the object
 * invariant every operation keeps, the config-snapshot diff, the one-time
 * warnings, the account-request flow, `send`'s routing and the account
 * tracking of `eth_accounts`.
 */
module ProviderProperties {
  import opened Wrappers
  import opened JsValues
  import opened Rpc
  import Utils
  import opened ProviderSpec

  // ---------------------------------------------------------------------
  // Console bookkeeping

  lemma {:induction false} OccurrencesLogs(log: seq<Utils.LogLine>, w: Warning)
    ensures Occurrences(Logs(log), w) == 0
  {
    if log != [] {
      assert Logs(log)[1..] == Logs(log[1..]);
      OccurrencesLogs(log[1..], w);
    }
  }

  /** Printing one more line counts for `w` iff it is the warning `w`. */
  lemma OccurrencesAppendOne(log: seq<ConsoleLine>, line: ConsoleLine, w: Warning)
    ensures Occurrences(log + [line], w) == Occurrences(log, w) + (if line == Warned(w) then 1 else 0)
  {
    OccurrencesAppend(log, [line], w);
  }

  // ---------------------------------------------------------------------
  // The object invariant is kept by every operation

  lemma ApplyConfigKeepsValid(s: State, snapshot: map<string, JsValue>)
    requires Valid(s)
    ensures Valid(ApplyConfig(s, snapshot)) && Evolves(s, ApplyConfig(s, snapshot))
  {
  }

  lemma ConnectKeepsValid(s: State)
    requires Valid(s)
    ensures Valid(Connect(s)) && Evolves(s, Connect(s))
  {
  }

  lemma HandleAccountsChangedKeepsValid(s: State, accounts: JsValue)
    requires Valid(s)
    ensures Valid(HandleAccountsChanged(s, accounts).state)
    ensures Evolves(s, HandleAccountsChanged(s, accounts).state)
  {
  }

  lemma HandleDisconnectKeepsValid(s: State, remoteLabel: string, err: Option<Utils.StreamError>, errorListeners: nat)
    requires Valid(s)
    ensures Valid(HandleDisconnect(s, remoteLabel, err, errorListeners))
    ensures Evolves(s, HandleDisconnect(s, remoteLabel, err, errorListeners))
  {
    var line := Warned(LostConnection(Utils.DisconnectWarning(remoteLabel, err)));
    OccurrencesAppendOne(s.console, line, EnableDeprecation);
    OccurrencesAppendOne(s.console, line, SendAsyncDeprecation);
    OccurrencesAppendOne(s.console, line, SignTypedDataDeprecation);
  }

  lemma BeforeDispatchKeepsValid(s: State, p: JsValue)
    requires Valid(s) && !IsNullish(p)
    ensures Valid(BeforeDispatch(s, p)) && Evolves(s, BeforeDispatch(s, p))
  {
    var before := BeforeDispatch(s, p);
    var warn: seq<ConsoleLine> := before.console[|s.console|..];
    assert before.console == s.console + warn;
    forall w: Warning
      ensures Occurrences(before.console, w) == Occurrences(s.console, w) + Occurrences(warn, w)
    {
      OccurrencesAppend(s.console, warn, w);
    }
  }

  lemma DispatchKeepsValid(s: State, t: Transport, p: JsValue)
    requires Valid(s) && !IsNullish(p)
    ensures Valid(Dispatch(s, t, p).state) && Evolves(s, Dispatch(s, t, p).state)
  {
    LogsKeepValid(s.(requests := s.requests + [p]), Utils.ErrorMiddleware(MethodOf(p), t(|s.requests|, p)).log);
  }

  /** Printing the middleware's log lines keeps the invariant: none of them is a warning. */
  lemma LogsKeepValid(s: State, log: seq<Utils.LogLine>)
    requires Valid(s)
    ensures Valid(s.(console := s.console + Logs(log)))
  {
    forall w: Warning
      ensures Occurrences(s.console + Logs(log), w) == Occurrences(s.console, w)
    {
      OccurrencesAppend(s.console, Logs(log), w);
      OccurrencesLogs(log, w);
    }
  }

  lemma SendAsyncInternalKeepsValid(s: State, t: Transport, payload: JsValue)
    requires Valid(s)
    ensures Valid(SendAsyncInternal(s, t, payload).state)
    ensures Evolves(s, SendAsyncInternal(s, t, payload).state)
  {
    if !IsNullish(payload) {
      var p := WithJsonRpc(payload);
      BeforeDispatchKeepsValid(s, p);
      DispatchKeepsValid(BeforeDispatch(s, p), t, p);
    }
  }

  lemma CatchToConsoleKeepsValid(s: State, p: PromiseState)
    requires Valid(s)
    ensures Valid(CatchToConsole(s, p).state) && Evolves(s, CatchToConsole(s, p).state)
  {
    if p.Rejected? {
      OccurrencesAppendOne(s.console, Printed(p.reason), EnableDeprecation);
      OccurrencesAppendOne(s.console, Printed(p.reason), SendAsyncDeprecation);
      OccurrencesAppendOne(s.console, Printed(p.reason), SignTypedDataDeprecation);
    }
  }

  lemma RequestPermissionThenAccountsKeepsValid(s: State, t: Transport)
    requires Valid(s)
    ensures Valid(RequestPermissionThenAccounts(s, t).state)
    ensures Evolves(s, RequestPermissionThenAccounts(s, t).state)
  {
    var perm := SendAsyncInternal(s, t, PermissionsPayload);
    SendAsyncInternalKeepsValid(s, t, PermissionsPayload);
    var q := Settle(perm.value);
    if q.Fulfilled? {
      var second := SendAsyncInternal(perm.state, t, AccountsPayload);
      SendAsyncInternalKeepsValid(perm.state, t, AccountsPayload);
      CatchToConsoleKeepsValid(second.state, Settle(second.value));
    } else {
      CatchToConsoleKeepsValid(perm.state, q);
    }
  }

  lemma RequestAccountsKeepsValid(s: State, t: Transport)
    requires Valid(s)
    ensures Valid(RequestAccounts(s, t).state) && Evolves(s, RequestAccounts(s, t).state)
  {
    var first := SendAsyncInternal(s, t, AccountsPayload);
    SendAsyncInternalKeepsValid(s, t, AccountsPayload);
    var p := Settle(first.value);
    if p.Fulfilled? && !HasAccounts(p.value) {
      assert RequestAccounts(s, t) == RequestPermissionThenAccounts(first.state, t);
      RequestPermissionThenAccountsKeepsValid(first.state, t);
    } else {
      assert RequestAccounts(s, t) == CatchToConsole(first.state, p);
      CatchToConsoleKeepsValid(first.state, p);
    }
  }

  /** Printing the `enable` warning for the first time and setting its flag keeps the invariant. */
  lemma EnableWarningKeepsValid(s: State)
    requires Valid(s) && !s.warnedEnable
    ensures Valid(s.(warnedEnable := true, console := s.console + [Warned(EnableDeprecation)]))
  {
    OccurrencesAppendOne(s.console, Warned(EnableDeprecation), EnableDeprecation);
    OccurrencesAppendOne(s.console, Warned(EnableDeprecation), SendAsyncDeprecation);
    OccurrencesAppendOne(s.console, Warned(EnableDeprecation), SignTypedDataDeprecation);
  }

  /** Printing the `sendAsync` warning for the first time and setting its flag keeps the invariant. */
  lemma SendAsyncWarningKeepsValid(s: State)
    requires Valid(s) && !s.warnedSendAsync
    ensures Valid(s.(warnedSendAsync := true, console := s.console + [Warned(SendAsyncDeprecation)]))
  {
    OccurrencesAppendOne(s.console, Warned(SendAsyncDeprecation), EnableDeprecation);
    OccurrencesAppendOne(s.console, Warned(SendAsyncDeprecation), SendAsyncDeprecation);
    OccurrencesAppendOne(s.console, Warned(SendAsyncDeprecation), SignTypedDataDeprecation);
  }

  lemma EnableKeepsValid(s: State, t: Transport)
    requires Valid(s)
    ensures Valid(Enable(s, t).state) && Evolves(s, Enable(s, t).state)
  {
    var s1 := if s.warnedEnable then s
              else s.(warnedEnable := true, console := s.console + [Warned(EnableDeprecation)]);
    if !s.warnedEnable {
      EnableWarningKeepsValid(s);
    }
    RequestAccountsKeepsValid(s1, t);
  }

  lemma SendAsyncKeepsValid(s: State, t: Transport, payload: JsValue)
    requires Valid(s)
    ensures Valid(SendAsync(s, t, payload).state) && Evolves(s, SendAsync(s, t, payload).state)
  {
    var s1 := if s.warnedSendAsync then s
              else s.(warnedSendAsync := true, console := s.console + [Warned(SendAsyncDeprecation)]);
    if !s.warnedSendAsync {
      SendAsyncWarningKeepsValid(s);
    }
    SendAsyncInternalKeepsValid(s1, t, payload);
  }

  lemma SendKeepsValid(s: State, t: Transport, m: JsValue, p: JsValue)
    requires Valid(s)
    ensures Valid(Send(s, t, m, p).state) && Evolves(s, Send(s, t, m, p).state)
  {
    match SendShape(m, p)
    case LegacyCallback => SendAsyncInternalKeepsValid(s, t, m);
    case BadArguments(_) =>
    case RpcCall(name, params) =>
      if name == "eth_requestAccounts" {
        RequestAccountsKeepsValid(s, t);
      } else {
        SendAsyncInternalKeepsValid(s, t, SendPayload(name, params));
      }
  }

  // ---------------------------------------------------------------------
  // One-time warnings and site metadata

  /** However often `enable` is called, its warning has been printed exactly once. */
  lemma EnableWarnsExactlyOnce(s: State, t: Transport)
    requires Valid(s)
    ensures Occurrences(Enable(s, t).state.console, EnableDeprecation) == 1
  {
    EnableKeepsValid(s, t);
  }

  /** However often `sendAsync` is called, its warning has been printed exactly once. */
  lemma SendAsyncWarnsExactlyOnce(s: State, t: Transport, payload: JsValue)
    requires Valid(s)
    ensures Occurrences(SendAsync(s, t, payload).state.console, SendAsyncDeprecation) == 1
  {
    SendAsyncKeepsValid(s, t, payload);
  }

  /** After any `eth_signTypedData` request, its warning has been printed exactly once. */
  lemma SignTypedDataWarnsExactlyOnce(s: State, t: Transport, payload: JsValue)
    requires Valid(s)
    requires !IsNullish(payload) && MethodOf(payload) == Str("eth_signTypedData")
    ensures Occurrences(SendAsyncInternal(s, t, payload).state.console, SignTypedDataDeprecation) == 1
  {
    SendAsyncInternalKeepsValid(s, t, payload);
  }

  /** After any request reaches the engine, the site metadata has been sent exactly once. */
  lemma SiteMetadataSentExactlyOnce(s: State, t: Transport, payload: JsValue)
    requires Valid(s) && !IsNullish(payload)
    ensures SendAsyncInternal(s, t, payload).state.metadataSends == 1
  {
  }

  /** Every object payload reaches the engine with a truthy `jsonrpc`, `'2.0'` when it had none. */
  lemma PayloadsCarryJsonRpc(s: State, t: Transport, payload: JsValue)
    requires payload.Obj?
    ensures var r := SendAsyncInternal(s, t, payload).state;
      |r.requests| == |s.requests| + 1 &&
      GetProp(r.requests[|s.requests|], "jsonrpc") ==
        (if Truthy(GetProp(payload, "jsonrpc").value) then GetProp(payload, "jsonrpc") else Some(Str("2.0")))
  {
  }

  // ---------------------------------------------------------------------
  // The public-config snapshot

  /** A snapshot applied a second time changes nothing and emits nothing. */
  lemma ApplyConfigIdempotent(s: State, snapshot: map<string, JsValue>)
    ensures ApplyConfig(ApplyConfig(s, snapshot), snapshot) == ApplyConfig(s, snapshot)
  {
  }

  // ---------------------------------------------------------------------
  // The account-request flow

  /** The request `_sendAsync` hands to the engine for `{ method: 'eth_accounts' }`. */
  function AccountsRequest(): JsValue {
    WithJsonRpc(AccountsPayload)
  }

  lemma PermissionsPayloadComplete()
    ensures WithJsonRpc(PermissionsPayload) == PermissionsPayload
    ensures MethodOf(PermissionsPayload) == Str("wallet_requestPermissions")
    ensures MethodOf(AccountsRequest()) == Str("eth_accounts")
  {
    assert GetProp(PermissionsPayload, "jsonrpc") == Some(Str("2.0"));
  }

  /** When the first read finds accounts, they are the answer and no permission is asked for. */
  lemma RequestAccountsWhenAuthorized(s: State, t: Transport)
    requires FirstAccounts(s, t).Fulfilled? && HasAccounts(FirstAccounts(s, t).value)
    ensures RequestAccounts(s, t).state.requests == s.requests + [AccountsRequest()]
    ensures RequestAccounts(s, t).value == FirstAccounts(s, t)
  {
  }

  /**
   * The permission branch sends the permission request and, iff it is
   * granted, one more account read, whose outcome is then the answer.
   */
  lemma PermissionBranchRequests(s: State, t: Transport)
    ensures var perm := SendAsyncInternal(s, t, PermissionsPayload);
      var granted := Settle(perm.value).Fulfilled?;
      RequestPermissionThenAccounts(s, t).state.requests ==
        s.requests + [PermissionsPayload] + (if granted then [AccountsRequest()] else [])
    ensures var perm := SendAsyncInternal(s, t, PermissionsPayload);
      var second := SendAsyncInternal(perm.state, t, AccountsPayload);
      Settle(perm.value).Fulfilled? && !Settle(second.value).Rejected? ==>
        RequestPermissionThenAccounts(s, t).value == Settle(second.value)
    ensures var perm := SendAsyncInternal(s, t, PermissionsPayload);
      var q := Settle(perm.value);
      q.Rejected? ==>
        RequestPermissionThenAccounts(s, t) ==
          Step(perm.state.(console := perm.state.console + [Printed(q.reason)]), Fulfilled(Undefined))
    ensures var perm := SendAsyncInternal(s, t, PermissionsPayload);
      var second := SendAsyncInternal(perm.state, t, AccountsPayload);
      var q := Settle(second.value);
      Settle(perm.value).Fulfilled? && q.Rejected? ==>
        RequestPermissionThenAccounts(s, t) ==
          Step(second.state.(console := second.state.console + [Printed(q.reason)]), Fulfilled(Undefined))
  {
    PermissionsPayloadComplete();
    var perm := SendAsyncInternal(s, t, PermissionsPayload);
    if Settle(perm.value).Fulfilled? {
      var second := SendAsyncInternal(perm.state, t, AccountsPayload);
      assert second.state.requests == s.requests + [PermissionsPayload] + [AccountsRequest()];
    }
  }

  /**
   * When the first read finds no accounts, exactly one permission request
   * with `[{ eth_accounts: {} }]` follows, and, iff it is granted, exactly one
   * more read of the accounts, whose outcome is the answer.
   */
  lemma RequestAccountsAsksPermissionOnce(s: State, t: Transport)
    requires FirstAccounts(s, t).Fulfilled? && !HasAccounts(FirstAccounts(s, t).value)
    ensures RequestAccounts(s, t) == RequestPermissionThenAccounts(SendAsyncInternal(s, t, AccountsPayload).state, t)
    ensures var first := SendAsyncInternal(s, t, AccountsPayload).state;
      var perm := SendAsyncInternal(first, t, PermissionsPayload);
      var granted := Settle(perm.value).Fulfilled?;
      RequestAccounts(s, t).state.requests ==
        s.requests + [AccountsRequest(), PermissionsPayload] + (if granted then [AccountsRequest()] else [])
    ensures var first := SendAsyncInternal(s, t, AccountsPayload).state;
      var perm := SendAsyncInternal(first, t, PermissionsPayload);
      var second := SendAsyncInternal(perm.state, t, AccountsPayload);
      Settle(perm.value).Fulfilled? && !Settle(second.value).Rejected? ==>
        RequestAccounts(s, t).value == Settle(second.value)
  {
    var first := SendAsyncInternal(s, t, AccountsPayload).state;
    assert RequestAccounts(s, t) == RequestPermissionThenAccounts(first, t);
    PermissionBranchRequests(first, t);
  }

  /** A failed first read is printed; the flow then fulfils with `undefined` and asks nothing more. */
  lemma RequestAccountsFirstFailureCaught(s: State, t: Transport)
    requires FirstAccounts(s, t).Rejected?
    ensures RequestAccounts(s, t).value == Fulfilled(Undefined)
    ensures RequestAccounts(s, t).state.requests == s.requests + [AccountsRequest()]
    ensures RequestAccounts(s, t).state.console ==
      SendAsyncInternal(s, t, AccountsPayload).state.console + [Printed(FirstAccounts(s, t).reason)]
  {
  }

  /** `_requestAccounts` only ever sends account reads and the permission request. */
  lemma RequestAccountsSendsOnlyAccountsAndPermission(s: State, t: Transport)
    ensures s.requests <= RequestAccounts(s, t).state.requests
    ensures forall i | |s.requests| <= i < |RequestAccounts(s, t).state.requests| ::
      RequestAccounts(s, t).state.requests[i] in {AccountsRequest(), PermissionsPayload}
  {
    var first := SendAsyncInternal(s, t, AccountsPayload);
    var p := Settle(first.value);
    if p.Fulfilled? && !HasAccounts(p.value) {
      assert RequestAccounts(s, t) == RequestPermissionThenAccounts(first.state, t);
      PermissionBranchRequests(first.state, t);
    } else {
      assert RequestAccounts(s, t) == CatchToConsole(first.state, p);
    }
  }

  // ---------------------------------------------------------------------
  // send

  /**
   * `send` with `eth_requestAccounts` is exactly `_requestAccounts`: it never
   * passes the method on, and never sends anything but account reads and the
   * permission request.
   */
  lemma SendRequestAccountsDelegates(s: State, t: Transport, m: JsValue, p: JsValue)
    requires SendShape(m, p).RpcCall? && SendShape(m, p).name == "eth_requestAccounts"
    ensures Send(s, t, m, p) == Step(RequestAccounts(s, t).state, PromiseForm(RequestAccounts(s, t).value))
    ensures forall i | |s.requests| <= i < |Send(s, t, m, p).state.requests| ::
      var q := Send(s, t, m, p).state.requests[i];
      !IsNullish(q) && MethodOf(q) != Str("eth_requestAccounts")
  {
    RequestAccountsSendsOnlyAccountsAndPermission(s, t);
    PermissionsPayloadComplete();
  }

  /**
   * Every other RPC call of `send` hands one request to the engine, with the
   * method and the coerced params, and its promise follows `promiseCallback`.
   */
  lemma SendRpcCallSendsOne(s: State, t: Transport, m: JsValue, p: JsValue)
    requires SendShape(m, p).RpcCall? && SendShape(m, p).name != "eth_requestAccounts"
    ensures var c := SendShape(m, p);
      var q := WithJsonRpc(SendPayload(c.name, c.params));
      && Send(s, t, m, p).state.requests == s.requests + [q]
      && GetProp(q, "method") == Some(Str(c.name))
      && GetProp(q, "params") == Some(CoerceParams(c.params))
      && GetProp(q, "jsonrpc") == Some(Str("2.0"))
      && Send(s, t, m, p).value == PromiseForm(Settle(SendAsyncInternal(s, t, SendPayload(c.name, c.params)).value))
    ensures var c := SendShape(m, p);
      var reply := t(|s.requests|, WithJsonRpc(SendPayload(c.name, c.params)));
      c.name != "eth_accounts" ==>
        && Send(s, t, m, p).value == PromiseForm(Utils.PromiseCallback(EngineError(reply), reply))
        && (reply.error.Some? ==> Send(s, t, m, p).value == PromiseForm(Rejected(RpcFailure(reply.error.value))))
        && (reply.error.None? ==> Send(s, t, m, p).value == PromiseForm(Fulfilled(reply.result.GetOr(Undefined))))
  {
  }

  /**
   * `send('eth_accounts')` answered with the unauthorized error resolves with
   * `[]` and clears the selected address.
   */
  lemma SendEthAccountsUnauthorizedResolvesEmpty(s: State, t: Transport, params: JsValue)
    requires var reply := t(|s.requests|, WithJsonRpc(SendPayload("eth_accounts", params)));
      reply.error.Some? && reply.error.value.code == Utils.Unauthorized
    ensures Send(s, t, Str("eth_accounts"), params).value == PromiseForm(Fulfilled(Arr([])))
    ensures Send(s, t, Str("eth_accounts"), params).state.selectedAddress == Undefined
  {
    EthAccountsErrorClearsAccount(s, t, SendPayload("eth_accounts", params));
  }

  /**
   * The callback form hands an object payload itself to `_sendAsync` and
   * answers the callback; with `null` it throws a TypeError and changes nothing.
   */
  lemma SendCallbackFormForwards(s: State, t: Transport, m: JsValue, p: JsValue)
    requires SendShape(m, p).LegacyCallback?
    ensures m.Obj? || m.Null?
    ensures m.Obj? ==>
      Send(s, t, m, p) == Step(SendAsyncInternal(s, t, m).state, CallbackForm(SendAsyncInternal(s, t, m).value))
    ensures m.Null? ==> Send(s, t, m, p) == Step(s, SendThrew(TypeError))
  {
  }

  /** Coercing params a second time changes nothing. */
  lemma CoerceParamsIdempotent(params: JsValue)
    ensures CoerceParams(CoerceParams(params)) == CoerceParams(params)
  {
  }

  // ---------------------------------------------------------------------
  // eth_accounts and the selected address

  /**
   * Any error answer to `eth_accounts` clears the selected address, announcing
   * `[]` once iff an address was selected; an unauthorized error reaches the
   * caller as an empty result, every other error as itself.
   */
  lemma EthAccountsErrorClearsAccount(s: State, t: Transport, payload: JsValue)
    requires !IsNullish(payload) && MethodOf(payload) == Str("eth_accounts")
    requires t(|s.requests|, WithJsonRpc(payload)).error.Some?
    ensures var r := SendAsyncInternal(s, t, payload);
      var reply := t(|s.requests|, WithJsonRpc(payload));
      && r.state.selectedAddress == Undefined
      && r.state.events == s.events + (if s.selectedAddress != Undefined then [AccountsChanged(Arr([]))] else [])
      && r.value == (if reply.error.value.code == Utils.Unauthorized
                     then Delivered(None, Response(None, Some(Arr([]))))
                     else Delivered(Some(RpcFailure(reply.error.value)), reply))
  {
  }

  /**
   * A successful `eth_accounts` answer with a list makes its first entry the
   * selected address, announcing the list iff that address changed.
   */
  lemma EthAccountsSuccessTracksAccount(s: State, t: Transport, payload: JsValue)
    requires !IsNullish(payload) && MethodOf(payload) == Str("eth_accounts")
    requires t(|s.requests|, WithJsonRpc(payload)).error.None?
    requires t(|s.requests|, WithJsonRpc(payload)).result.Some?
    requires t(|s.requests|, WithJsonRpc(payload)).result.value.Arr?
    ensures var r := SendAsyncInternal(s, t, payload);
      var accounts := t(|s.requests|, WithJsonRpc(payload)).result.value;
      var first := if |accounts.elems| > 0 then accounts.elems[0] else Undefined;
      && r.state.selectedAddress == first
      && r.state.events == s.events + (if first != s.selectedAddress then [AccountsChanged(accounts)] else [])
      && r.value == Delivered(None, t(|s.requests|, WithJsonRpc(payload)))
  {
  }

  // ---------------------------------------------------------------------
  // Connection state

  /** A disconnect right after another emits no second 'close'. */
  lemma DisconnectClosesOnce(s: State, remoteLabel: string, err: Option<Utils.StreamError>, n: nat)
    ensures var once := HandleDisconnect(s, remoteLabel, err, n);
      Close(CloseCode, CloseReason) !in HandleDisconnect(once, remoteLabel, err, n).events[|once.events|..]
  {
  }

  /** Once connected, a disconnect emits 'close' with code 1011. */
  lemma ConnectedDisconnectCloses(s: State, remoteLabel: string, err: Option<Utils.StreamError>, n: nat)
    ensures var c := Connect(s);
      Close(CloseCode, CloseReason) in HandleDisconnect(c, remoteLabel, err, n).events[|c.events|..]
  {
  }
}
