/**
 * The in-page provider object of index.js. Its fields are the instance
 * fields of `MetamaskInpageProvider`; what it hands to its RPC engine is the
 * field `requests`, and what it emits and prints is kept in ghost fields.
 * Every method is proved to change the object exactly as the matching
 * function of ProviderSpec says, so the properties proved there hold of it,
 * and every method that changes the object keeps its invariant.
 */
module InpageProvider {
  import opened Wrappers
  import opened JsValues
  import opened Rpc
  import Utils
  import opened ProviderSpec
  import ProviderProperties

  class Provider {
    var chainId: JsValue
    var networkVersion: JsValue
    var selectedAddress: JsValue
    var isConnected: JsValue
    var warnedEnable: bool
    var warnedSendAsync: bool
    var warnedSignTypedData: bool
    var sentSiteMetadata: bool
    var requests: seq<JsValue>
    ghost var metadataSends: nat
    ghost var events: seq<Event>
    ghost var console: seq<ConsoleLine>

    /** The transport behind the RPC engine. */
    const transport: Transport

    /** The provider's state as a value. */
    ghost function Model(): State
      reads this
    {
      State(chainId, networkVersion, selectedAddress, isConnected,
            warnedEnable, warnedSendAsync, warnedSignTypedData, sentSiteMetadata, metadataSends,
            requests, events, console)
    }

    ghost predicate Valid()
      reads this
    {
      ProviderSpec.Valid(Model())
    }

    /** `new MetamaskInpageProvider(connectionStream)`, with the connection abstracted to its transport. */
    constructor (transport: Transport)
      ensures Valid() && Model() == Init() && this.transport == transport
    {
      this.transport := transport;
      chainId, networkVersion, selectedAddress, isConnected := Undefined, Undefined, Undefined, Undefined;
      warnedEnable, warnedSendAsync, warnedSignTypedData := false, false, false;
      sentSiteMetadata, metadataSends := false, 0;
      requests, events, console := [], [], [];
    }

    /** The public-config subscriber, called with each decoded snapshot. */
    method OnPublicConfig(snapshot: map<string, JsValue>)
      requires Valid()
      modifies this
      ensures Valid()
      ensures Model() == ApplyConfig(old(Model()), snapshot)
    {
      if "chainId" in snapshot && snapshot["chainId"] != chainId {
        chainId := snapshot["chainId"];
        events := events + [ChainChanged(chainId)];
      }
      if "networkVersion" in snapshot && snapshot["networkVersion"] != networkVersion {
        networkVersion := snapshot["networkVersion"];
        events := events + [NetworkChanged(networkVersion)];
      }
      ProviderProperties.ApplyConfigKeepsValid(old(Model()), snapshot);
    }

    /** The provider's own 'connect' listener. */
    method OnConnect()
      requires Valid()
      modifies this
      ensures Valid()
      ensures Model() == Connect(old(Model()))
    {
      isConnected := Bool(true);
    }

    /** `isConnected()`, reading the provider's own flag. */
    method IsConnected() returns (r: JsValue)
      ensures r == Model().isConnected
    {
      r := isConnected;
    }

    /** `_handleAccountsChanged(accounts)`; a thrown TypeError is returned. */
    method HandleAccountsChanged(accounts: JsValue) returns (thrown: Option<Failure>)
      requires Valid()
      modifies this
      ensures Valid()
      ensures Step(Model(), thrown) == ProviderSpec.HandleAccountsChanged(old(Model()), accounts)
    {
      var first := FirstElement(accounts);
      if first.None? {
        return Some(TypeError);
      }
      if selectedAddress != first.value {
        selectedAddress := first.value;
        events := events + [AccountsChanged(accounts)];
      }
      thrown := None;
    }

    /** `_handleDisconnect(remoteLabel, err)`, run on the provider itself. */
    method HandleDisconnect(remoteLabel: string, err: Option<Utils.StreamError>, errorListeners: nat)
      requires Valid()
      modifies this
      ensures Valid()
      ensures Model() == ProviderSpec.HandleDisconnect(old(Model()), remoteLabel, err, errorListeners)
    {
      var run := Utils.LogStreamDisconnectWarning(Utils.EventEmitter(errorListeners), remoteLabel, err);
      var emitted: seq<Event> := if run.errorEmitted then [ErrorEmitted(run.warned)] else [];
      var closed: seq<Event> := if Truthy(isConnected) then [Close(CloseCode, CloseReason)] else [];
      console := console + [Warned(LostConnection(run.warned))];
      events := events + emitted + closed;
      isConnected := Bool(false);
      ProviderProperties.HandleDisconnectKeepsValid(old(Model()), remoteLabel, err, errorListeners);
    }

    /** The callback wrapper `_sendAsync` installs for `eth_accounts`. */
    method AccountsCallback(err: Option<Failure>, res: Response) returns (d: Delivery)
      requires Valid()
      modifies this
      ensures Valid()
      ensures Step(Model(), d) == ProviderSpec.AccountsCallback(old(Model()), err, res)
    {
      if err.Some? {
        var _ := HandleAccountsChanged(Arr([]));
        var code := ErrorCode(err.value, res);
        if code.None? {
          d := CallbackThrew(TypeError);
        } else if code.value == Utils.Unauthorized {
          d := Delivered(None, Response(None, Some(Arr([]))));
        } else {
          d := Delivered(err, res);
        }
      } else {
        var thrown := HandleAccountsChanged(res.result.GetOr(Undefined));
        if thrown.Some? {
          d := CallbackThrew(thrown.value);
        } else {
          d := Delivered(None, res);
        }
      }
    }

    /** `self.rpcEngine.handle(payload, cb)`. */
    method Dispatch(p: JsValue) returns (d: Delivery)
      requires Valid() && !IsNullish(p)
      modifies this
      ensures Valid()
      ensures Step(Model(), d) == ProviderSpec.Dispatch(old(Model()), transport, p)
    {
      var m := MethodOf(p);
      var run := Utils.ErrorMiddleware(m, transport(|requests|, p));
      ProviderProperties.LogsKeepValid(old(Model()).(requests := requests + [p]), run.log);
      requests := requests + [p];
      console := console + Logs(run.log);
      if m == Str("eth_accounts") {
        d := AccountsCallback(EngineError(run.res), run.res);
      } else {
        d := Delivered(EngineError(run.res), run.res);
      }
      ProviderProperties.DispatchKeepsValid(old(Model()), transport, p);
    }

    /** `_sendAsync(payload, callback)`; the callback's arguments are returned. */
    method SendAsyncInternal(payload: JsValue) returns (d: Delivery)
      requires Valid()
      modifies this
      ensures Valid()
      ensures Step(Model(), d) == ProviderSpec.SendAsyncInternal(old(Model()), transport, payload)
    {
      if IsNullish(payload) {
        return Threw(TypeError);
      }
      var p := WithJsonRpc(payload);
      if !sentSiteMetadata {
        metadataSends := metadataSends + 1;
        sentSiteMetadata := true;
      }
      if MethodOf(p) == Str("eth_signTypedData") && !warnedSignTypedData {
        console := console + [Warned(SignTypedDataDeprecation)];
        warnedSignTypedData := true;
      }
      assert Model() == BeforeDispatch(old(Model()), p);
      ProviderProperties.BeforeDispatchKeepsValid(old(Model()), p);
      d := Dispatch(p);
    }

    /** `sendAsync(payload, cb)`; the callback's arguments are returned. */
    method SendAsync(payload: JsValue) returns (d: Delivery)
      requires Valid()
      modifies this
      ensures Valid()
      ensures Step(Model(), d) == ProviderSpec.SendAsync(old(Model()), transport, payload)
    {
      if !warnedSendAsync {
        ProviderProperties.SendAsyncWarningKeepsValid(Model());
        console := console + [Warned(SendAsyncDeprecation)];
        warnedSendAsync := true;
      }
      d := SendAsyncInternal(payload);
      ProviderProperties.SendAsyncKeepsValid(old(Model()), transport, payload);
    }

    /** `.catch(err => console.error(err))`. */
    method CatchToConsole(p: PromiseState) returns (r: PromiseState)
      requires Valid()
      modifies this
      ensures Valid()
      ensures Step(Model(), r) == ProviderSpec.CatchToConsole(old(Model()), p)
    {
      if p.Rejected? {
        console := console + [Printed(p.reason)];
        r := Fulfilled(Undefined);
      } else {
        r := p;
      }
      ProviderProperties.CatchToConsoleKeepsValid(old(Model()), p);
    }

    /** `_requestAccounts()`; the state its promise ends in is returned. */
    method RequestAccounts() returns (result: PromiseState)
      requires Valid()
      modifies this
      ensures Valid()
      ensures Step(Model(), result) == ProviderSpec.RequestAccounts(old(Model()), transport)
    {
      var first := SendAsyncInternal(AccountsPayload);
      var p := Settle(first);
      if p.Fulfilled? && !HasAccounts(p.value) {
        ghost var afterFirst := Model();
        var perm := SendAsyncInternal(PermissionsPayload);
        var q := Settle(perm);
        if q.Fulfilled? {
          var second := SendAsyncInternal(AccountsPayload);
          result := CatchToConsole(Settle(second));
        } else {
          result := CatchToConsole(q);
        }
        assert Step(Model(), result) == RequestPermissionThenAccounts(afterFirst, transport);
      } else {
        result := CatchToConsole(p);
      }
    }

    /** `enable()`; the state its promise ends in is returned. */
    method Enable() returns (result: PromiseState)
      requires Valid()
      modifies this
      ensures Valid()
      ensures Step(Model(), result) == ProviderSpec.Enable(old(Model()), transport)
    {
      if !warnedEnable {
        ProviderProperties.EnableWarningKeepsValid(Model());
        console := console + [Warned(EnableDeprecation)];
        warnedEnable := true;
      }
      result := RequestAccounts();
      ProviderProperties.EnableKeepsValid(old(Model()), transport);
    }

    /** `send(methodOrPayload, paramsOrCallback)`. */
    method Send(m: JsValue, p: JsValue) returns (r: SendResult)
      requires Valid()
      modifies this
      ensures Valid()
      ensures Step(Model(), r) == ProviderSpec.Send(old(Model()), transport, m, p)
    {
      var shape := SendShape(m, p);
      match shape {
      case LegacyCallback =>
        var d := SendAsyncInternal(m);
        if d.Threw? {
          r := SendThrew(d.thrown);
        } else {
          r := CallbackForm(d);
        }
      case BadArguments(f) =>
        r := SendThrew(f);
      case RpcCall(name, params) =>
        if name == "eth_requestAccounts" {
          var promise := RequestAccounts();
          r := PromiseForm(promise);
        } else {
          var d := SendAsyncInternal(SendPayload(name, params));
          r := PromiseForm(Settle(d));
        }
      }
      ProviderProperties.SendKeepsValid(old(Model()), transport, m, p);
    }
  }
}
