# MetaMask in-page provider, modelled in Dafny

This project models the core of the MetaMask in-page provider. The provider
is the object a web page uses to talk to the MetaMask extension. It normalises
the calls a page makes (`send`, `sendAsync`, `enable`): it defaults `jsonrpc`,
sends the site metadata once, prints each deprecation warning once, and treats
`eth_accounts` and `eth_requestAccounts` specially. It also tracks the chain,
network, selected account and connection state that the extension pushes to
it, and it emits `chainChanged`, `networkChanged`, `accountsChanged` and
`close`.

Layout:

- `wrappers.dfy`: `Option`.
- `js_values.dfy`: the JavaScript values the provider handles. It covers
  truthiness, `typeof`, property reads that throw on `null`/`undefined`,
  sloppy-mode property writes and `accounts[0]`.
- `rpc.dfy`: JSON-RPC errors and responses, the failures a call can end
  with, promise outcomes, and the transport oracle.
- `utils.dfy`: the current error middleware, the stream-disconnect warning
  and `promiseCallback` (`utils.js`).
- `create_error_middleware.dfy`: the older error middleware
  (`createErrorMiddleware.js`).
- `provider_spec.dfy`: the provider (`index.js`) as a pure state machine. Each
  operation maps the state before the call to the state after it plus what
  the caller observes.
- `provider_properties.dfy`: what holds across calls:
  - the object invariant (each one-time flag is set iff its warning has been
    printed, and then exactly once; the site metadata is sent once);
  - the snapshot diff;
  - the account-request flow;
  - `send`'s routing;
  - account tracking.
- `provider.dfy`: the provider as a class with the source's fields. Every
  method is proved to change the object exactly as the matching
  `provider_spec.dfy` function does. Every method that changes the object
  requires the invariant and keeps it.
- `findings.dfy`: four defects of `index.js` as written, each beside the
  intended behaviour.

The RPC engine is abstract. Its stack is id remapping, then the error
middleware, then the stream to the extension. The stream is the oracle
`Transport`, asked about the request at each position of the outbound
sequence. The error middleware post-processes the oracle's reply. The engine
is taken to call back with the completed response's error as its first
argument. Replies arrive synchronously in this model, so a callback is
represented by the arguments it receives.

Behaviour worth noting:

- `_requestAccounts` never rejects. Every failure is printed by the final
  `.catch` and the promise fulfils with `undefined` (index.js:253).
- The config subscriber updates only `chainId` and `networkVersion`. It never
  sets `selectedAddress` (index.js:57-70). Only `eth_accounts` answers set it.
- `promiseCallback` takes two parameters. The third argument passed at
  index.js:221 and index.js:245 is ignored.

## Model

| member | source | states |
|---|---|---|
| Utils.ErrorMiddleware | utils.js:17-35 | `done` is called exactly once. A reply without an error passes unchanged and logs nothing. An `eth_accounts` reply with error code 4100 has its error removed and `[]` as result, with one "Ignored RPC Error" line. Any other error passes unchanged with one "MetaMask - RPC Error: " line carrying its message. |
| Utils.ErrorMiddlewareIdempotent | utils.js:17-35 | Running the middleware on its own output changes nothing more. |
| Utils.ErrorMiddlewareRemovesOnlyUnauthorizedAccounts | utils.js:21-29 | The output has no error iff the input had none or was an unauthorized `eth_accounts` reply. Every other reply is left exactly as it was. |
| Utils.PromiseCallback | utils.js:47-51 | The promise always settles. The callback's own error rejects it first, then `response.error`. It fulfils iff neither is present, with `response.result` (`undefined` when absent). |
| Utils.DisconnectWarning | utils.js:37-39 | The warning starts with "MetamaskInpageProvider - lost connection to " and the label. It is exactly that iff no error was given. Otherwise a newline and the error's stack follow. |
| Utils.LogStreamDisconnectWarning | utils.js:37-45 | The warning is always printed first. A receiver that is not an event emitter makes `this.listenerCount` throw. On an emitter, `error` is emitted iff it has a listener for it. |
| LegacyErrorMiddleware.ErrorMiddleware | createErrorMiddleware.js:16-26 | The reply always passes unchanged and `done` is called once. Exactly one "MetaMask - RPC Error: " line is logged iff the reply carries an error. |
| LegacyErrorMiddleware.MiddlewaresDifferOnlyOnUnauthorizedAccounts | createErrorMiddleware.js:16-26 | The older and the current middleware give the same reply, `done` call and log except on an unauthorized `eth_accounts` reply, which only the current one turns into `[]`. |
| ProviderSpec.Init | index.js:24-39 | A new provider has every field `undefined` and every flag false. It has sent, emitted and printed nothing, and it satisfies the invariant. |
| ProviderSpec.ApplyConfig | index.js:57-70 | A snapshot carrying `chainId` or `networkVersion` stores it. `chainChanged`/`networkChanged` is emitted, in that order, iff the value differs (`!==`) from the stored one. Nothing else changes. |
| ProviderSpec.Connect | index.js:109-111 | After `connect` the provider counts as connected and nothing else changes. |
| ProviderSpec.HandleAccountsChanged | index.js:313-319 | Reading `accounts[0]` throws iff `accounts` is `null`/`undefined`, and then nothing changes. Otherwise `accounts[0]` becomes the selected address, and `accountsChanged` with the whole list is emitted iff it differs from the old one. |
| ProviderSpec.HandleDisconnect | index.js:301-310 | The lost-connection warning is printed. `close` with code 1011 and "MetaMask background communication error." is emitted iff the provider was connected. The provider is no longer connected afterwards. |
| ProviderSpec.AccountsCallback | index.js:278-296 | Any error clears the selected address. An error whose code (`err.code \|\| res.error.code`) is 4100 reaches the caller as `(null, { result: [] })`. Any other coded error passes on as received. A success makes `result[0]` the selected address and passes the reply on. |
| ProviderSpec.WithJsonRpc | index.js:264 | A payload with a truthy `jsonrpc` is untouched. An object without one gets `'2.0'`. Every other property (`method`, `id`, `params`, ...) is kept as given. |
| ProviderSpec.BeforeDispatch | index.js:266-277 | The site metadata is sent iff it was not sent before, and the flag is set. The `eth_signTypedData` warning is printed iff the method is `eth_signTypedData` and it was not printed before. |
| ProviderSpec.Dispatch | index.js:278-298 | The payload is appended to the outbound requests. The middleware's log lines are printed. Only an `eth_accounts` reply can change the selected address or emit events. Any other request's callback receives the transport's reply as it is, with its error as first argument. |
| ProviderSpec.SendAsyncInternal | index.js:260-299 | Throws iff the payload is `null`/`undefined`, and then changes nothing. Otherwise exactly the `jsonrpc`-defaulted payload is appended to the requests and the metadata flag is set (sent once). Config, connection and the other warning flags are unchanged. A request other than `eth_accounts` delivers the transport's reply to the callback, with its error as first argument. |
| ProviderSpec.SendAsync | index.js:199-206 | The `sendAsync` warning flag is set, the warning is printed iff it was not set before, and `_sendAsync` follows. |
| ProviderSpec.Settle | index.js:172-181 | A synchronous throw rejects the promise. A delivered callback settles it as `promiseCallback` does. It stays pending iff the callback wrapper throws. |
| ProviderSpec.CatchToConsole | index.js:253 | A rejection is printed and becomes fulfilment with `undefined`. Any other outcome and the state pass through. Only the console changes. |
| ProviderSpec.RequestAccounts | index.js:213-254 | Never rejects. It only adds requests and leaves the `enable`/`sendAsync` warning flags alone. |
| ProviderSpec.RequestPermissionThenAccounts | index.js:229-248 | Never rejects. It only adds requests and leaves the `enable`/`sendAsync` warning flags alone. |
| ProviderSpec.Enable | index.js:187-194 | The `enable` warning flag is set, the warning is printed iff it was not set before, and `_requestAccounts` follows. |
| ProviderSpec.SendShape | index.js:138-163 | A non-array object with a function is the callback form, and only that. An object whose `method` is a string is an RPC call with its `params`. A string is an RPC call with the second argument. `null` throws a TypeError. Arrays, other objects and other values throw the invalid-params error. |
| ProviderSpec.CoerceParams | index.js:165-168 | The params are always an array. An array stays as it is, a truthy value is wrapped, and a falsy one becomes `[]`. |
| ProviderSpec.Send | index.js:134-182 | Unusable arguments throw and change nothing. Every RPC call returns a promise. |
| ProviderProperties.ApplyConfigKeepsValid | index.js:57-70 | The subscriber keeps the invariant, and output only grows. |
| ProviderProperties.ConnectKeepsValid | index.js:109-111 | `connect` keeps the invariant. |
| ProviderProperties.HandleAccountsChangedKeepsValid | index.js:313-319 | `_handleAccountsChanged` keeps the invariant, and flags and output never go back. |
| ProviderProperties.HandleDisconnectKeepsValid | index.js:301-310 | A disconnect keeps the invariant. The lost-connection warning counts as no one-time warning. |
| ProviderProperties.BeforeDispatchKeepsValid | index.js:266-277 | Sending the metadata and printing the `eth_signTypedData` warning keeps the invariant. |
| ProviderProperties.DispatchKeepsValid | index.js:298 | Handing a request to the engine keeps the invariant. |
| ProviderProperties.LogsKeepValid | utils.js:25-31 | The middleware's log lines count as no one-time warning, so printing them keeps the invariant. |
| ProviderProperties.SendAsyncInternalKeepsValid | index.js:260-299 | `_sendAsync` keeps the invariant. The metadata flag and count move together, the `eth_signTypedData` warning is printed at most once, and middleware log lines count as no warning. |
| ProviderProperties.CatchToConsoleKeepsValid | index.js:253 | Printing a rejection keeps the invariant. |
| ProviderProperties.RequestPermissionThenAccountsKeepsValid | index.js:229-248 | The permission branch keeps the invariant. |
| ProviderProperties.RequestAccountsKeepsValid | index.js:213-254 | `_requestAccounts` keeps the invariant. |
| ProviderProperties.EnableWarningKeepsValid | index.js:189-192 | Printing the `enable` warning for the first time together with setting its flag keeps the invariant. |
| ProviderProperties.SendAsyncWarningKeepsValid | index.js:201-204 | Printing the `sendAsync` warning for the first time together with setting its flag keeps the invariant. |
| ProviderProperties.EnableKeepsValid | index.js:187-194 | `enable` keeps the invariant. |
| ProviderProperties.SendAsyncKeepsValid | index.js:199-206 | `sendAsync` keeps the invariant. |
| ProviderProperties.SendKeepsValid | index.js:134-182 | `send` keeps the invariant on every call shape. |
| ProviderProperties.EnableWarnsExactlyOnce | index.js:189-192 | After any `enable` call, the `enable` deprecation warning has been printed exactly once. |
| ProviderProperties.SendAsyncWarnsExactlyOnce | index.js:201-204 | After any `sendAsync` call, its deprecation warning has been printed exactly once. |
| ProviderProperties.SignTypedDataWarnsExactlyOnce | index.js:271-276 | After any `eth_signTypedData` request, its warning has been printed exactly once. |
| ProviderProperties.SiteMetadataSentExactlyOnce | index.js:266-269 | After any request reaches the engine, the site metadata has been sent exactly once. |
| ProviderProperties.PayloadsCarryJsonRpc | index.js:264 | Every object payload reaches the engine as one request. Its `jsonrpc` is its own when truthy and `'2.0'` otherwise. |
| ProviderProperties.ApplyConfigIdempotent | index.js:57-70 | Applying the same snapshot a second time changes nothing and emits nothing. |
| ProviderProperties.PermissionsPayloadComplete | index.js:229-238 | The permission request already carries `jsonrpc: '2.0'` and asks for `wallet_requestPermissions`. The account read asks for `eth_accounts`. |
| ProviderProperties.RequestAccountsWhenAuthorized | index.js:224-251 | When the first read gives a non-empty array, that array is the answer. Only the one account read is sent. |
| ProviderProperties.PermissionBranchRequests | index.js:229-253 | The permission request is sent, then exactly one more account read iff it was granted. That read's outcome is the answer unless it rejects. A rejected permission request or a rejected second read is printed and the flow fulfils with `undefined`. |
| ProviderProperties.RequestAccountsAsksPermissionOnce | index.js:213-254 | When the first read finds no accounts, the requests are: the read, one permission request, and exactly one more read iff permission was granted. Unless it rejects, that last read's outcome is the answer. From the first read on, the flow is exactly the permission branch. |
| ProviderProperties.RequestAccountsFirstFailureCaught | index.js:216-253 | A failed first read is printed. The flow fulfils with `undefined` and sends nothing more. |
| ProviderProperties.RequestAccountsSendsOnlyAccountsAndPermission | index.js:213-254 | `_requestAccounts` sends only account reads and the permission request. |
| ProviderProperties.SendRequestAccountsDelegates | index.js:170 | `send('eth_requestAccounts')` is exactly `_requestAccounts`. The method itself is never passed to the engine. |
| ProviderProperties.SendRpcCallSendsOne | index.js:150-181 | Any other RPC call sends exactly one request with the method, the coerced params and `jsonrpc: '2.0'`. For a method other than `eth_accounts`, its promise is `promiseCallback` applied to that request's reply: it rejects with the reply's error, or fulfils with its result. |
| ProviderProperties.SendEthAccountsUnauthorizedResolvesEmpty | index.js:278-290 | `send('eth_accounts')` answered with error 4100 resolves with `[]` and clears the selected address. |
| ProviderProperties.SendCallbackFormForwards | index.js:138-145 | The callback form is taken only for an object or `null`. An object payload goes itself to `_sendAsync` and the callback is answered with its outcome. `null` throws a TypeError (reading `jsonrpc` at index.js:264) and changes nothing. |
| ProviderProperties.CoerceParamsIdempotent | index.js:165-168 | Coercing params twice is the same as coercing them once. |
| ProviderProperties.EthAccountsErrorClearsAccount | index.js:281-290 | Any error reply to `eth_accounts` clears the selected address, emitting `accountsChanged([])` iff one was selected. A 4100 error reaches the caller as an empty result; any other error reaches it as itself. |
| ProviderProperties.EthAccountsSuccessTracksAccount | index.js:291-294 | A successful `eth_accounts` reply with a list makes its first entry the selected address. The list is emitted iff that changed, and the reply reaches the caller unchanged. |
| ProviderProperties.DisconnectClosesOnce | index.js:303-309 | A second disconnect right after the first emits no second `close`. |
| ProviderProperties.ConnectedDisconnectCloses | index.js:303-309 | Once connected (index.js:109-111), a disconnect emits `close` with code 1011. |
| InpageProvider.Provider.constructor | index.js:24-39 | A new provider object is in the initial state and satisfies the invariant. |
| InpageProvider.Provider.OnPublicConfig | index.js:57-70 | The object changes exactly as `ApplyConfig` says and keeps the invariant. |
| InpageProvider.Provider.OnConnect | index.js:109-111 | The object changes exactly as `Connect` says and keeps the invariant. |
| InpageProvider.Provider.IsConnected | index.js:125-127 | Returns the provider's own connection flag. |
| InpageProvider.Provider.HandleAccountsChanged | index.js:313-319 | The object changes as `HandleAccountsChanged` says, with the same throw. The invariant is kept. |
| InpageProvider.Provider.HandleDisconnect | index.js:301-310 | The object changes exactly as `HandleDisconnect` says and keeps the invariant. |
| InpageProvider.Provider.AccountsCallback | index.js:281-295 | The object changes as `AccountsCallback` says, with the same delivery. The invariant is kept. |
| InpageProvider.Provider.Dispatch | index.js:298 | The object changes as `Dispatch` says, with the same delivery. The invariant is kept. |
| InpageProvider.Provider.SendAsyncInternal | index.js:260-299 | The object changes as `SendAsyncInternal` says, with the same delivery. The invariant is kept. |
| InpageProvider.Provider.SendAsync | index.js:199-206 | The object changes as `SendAsync` says and keeps the invariant. |
| InpageProvider.Provider.CatchToConsole | index.js:253 | The object changes as `CatchToConsole` says. The invariant is kept. |
| InpageProvider.Provider.RequestAccounts | index.js:213-254 | The object changes as `RequestAccounts` says, with the same outcome. The invariant is kept. |
| InpageProvider.Provider.Enable | index.js:187-194 | The object changes as `Enable` says and keeps the invariant. |
| InpageProvider.Provider.Send | index.js:134-182 | The object changes as `Send` says and keeps the invariant. |
| Findings.SendAsyncInternalAsWritten | index.js:266-269 | As written, with `sendSiteMetadata` undefined by the import at index.js:12: while the metadata flag is unset, `_sendAsync` throws a TypeError and changes nothing. |
| Findings.SiteMetadataImportBreaksEveryRequest | index.js:266-269 | From a new provider, `{ method: 'eth_accounts' }` throws as written and leaves the provider unchanged. As intended, it is sent along with the metadata. |
| Findings.SendAsWritten | index.js:138-145 | As written: the callback form of `send` throws a ReferenceError and changes nothing. |
| Findings.SendCallbackFormThrowsAsWritten | index.js:143 | `send({ method: 'eth_chainId' }, cb)` throws as written. As intended, it sends one request and answers the callback. |
| Findings.HandleDisconnectAsWritten | index.js:301-310 | As written: the warning is printed, then the handler throws a TypeError. No `close` is emitted and the connection flag keeps its value. |
| Findings.DisconnectNeverClosesAsWritten | index.js:302-309 | A connected provider that loses its stream still reports itself connected and emits nothing as written. As intended, it emits `close` and is disconnected. |
| Findings.IsConnectedAsWritten | index.js:125-127 | As written: `isConnected()` reads `_isConnected` from the page's global object, which is `undefined` when the page defines none. |
| Findings.IsConnectedReadsGlobalAsWritten | index.js:125-127 | After `connect` the provider's own flag is true, and after a disconnect it is false. As written, `isConnected()` reports `undefined` throughout. |

## Left out

- Stream plumbing: the multiplexing, `pump`, the JSON-RPC stream and the config store (index.js:44-55, 72-95). Only their effects are modelled: a config snapshot, a reply from the transport oracle, a disconnect call.
- The id-remap middleware (index.js:92): it changes request ids only, and the model tracks no ids.
- Forwarding of notifications and `eth_subscription` (index.js:97-107): these are event relays with no state of their own.
- The deferred `connect` emission and the rebinding of methods to the instance (index.js:113-122). Connecting is an explicit operation, and every method already runs on the provider.
- `isMetaMask` (index.js:129): a constant.
- What the site metadata contains and how it is sent (siteMetadata.js). Only the number of times it is sent is tracked (`metadataSends`); its request is not part of the modelled `requests` sequence.
- The texts of the warnings and errors. They live in messages.json, which is not part of this model, so they are opaque constants in the model.
- `serializeError` (utils.js:30, createErrorMiddleware.js:21): its result is discarded.
- Log levels: `log.warn` and `log.error` are told apart only by the line kind.
- `initializeProvider` and `connectCapnode`: they are not part of this model.
- Asynchronous scheduling: promises, `setTimeout` and engine callbacks are collapsed into synchronous steps. The interleaving of concurrent requests is not modelled.
- Object identity: `===` on objects is modelled as structural equality. Numbers are integers, so there is no `NaN` and there are no fractions.
- Event listeners other than the count of `error` listeners, passed to the disconnect handler as a parameter.
- Mutation of the caller's payload object: `jsonrpc` is added to the payload value sent, and the caller's own object is not tracked.
- Batch (array) payloads: they are accepted as values, but their per-element handling by the engine is not modelled.
- ProviderSpec.RequestPermissionThenAccounts: its contract states only the frame, and the flow, including the printing of a later failure, is stated by `PermissionBranchRequests`.
- ProviderSpec.RequestAccounts: its contract states only the frame, and the flow is stated by the `RequestAccounts*` lemmas beside it.
- ProviderSpec.Send: its contract states the thrown and promise cases only, and the routing is stated by the `Send*` lemmas beside it.

## Findings

| source | as written | input that shows it | evidently intended | confidence | as-written member | corrected member |
|---|---|---|---|---|---|---|
| index.js:12, 266-269 | `sendSiteMetadata` is imported from `./siteMetadata`, which exports only `getSiteMetadata` and `createObjectTransformStream`. Calling it throws a TypeError before the flag is set, so every request throws. | a new provider, then `sendAsync({ method: 'eth_accounts' }, cb)` | send the metadata once, then forward every request | medium, not executed (a different siteMetadata.js may be bundled in a release) | Findings.SendAsyncInternalAsWritten, Findings.SiteMetadataImportBreaksEveryRequest | ProviderSpec.SendAsyncInternal, ProviderProperties.SiteMetadataSentExactlyOnce |
| index.js:143 | the callback form of `send` passes the undeclared names `payload` and `callback`, which throws a ReferenceError | `send({ method: 'eth_chainId' }, function () {})` | `_sendAsync(methodOrPayload, paramsOrCallback)` | high, not executed | Findings.SendAsWritten, Findings.SendCallbackFormThrowsAsWritten | ProviderSpec.Send, ProviderProperties.SendCallbackFormForwards |
| index.js:302 with utils.js:41-44 | `logStreamDisconnectWarning` is called without a receiver, so `this.listenerCount` is looked up on the global object and throws after the warning. No `close` follows, and the connection flag stays set. Lines 303-309 also name the global `self` rather than the provider. | a connected provider whose stream ends | warn, emit `error` to listeners, emit `close` iff connected, then disconnect | high, not executed | Findings.HandleDisconnectAsWritten, Findings.DisconnectNeverClosesAsWritten | ProviderSpec.HandleDisconnect, ProviderProperties.ConnectedDisconnectCloses |
| index.js:126 | `isConnected` returns `self._isConnected`, where `self` is the page's global object, not the provider | `isConnected()` after `connect` on a page without a global `_isConnected` gives `undefined` | return the provider's own flag | high, not executed | Findings.IsConnectedAsWritten, Findings.IsConnectedReadsGlobalAsWritten | InpageProvider.Provider.IsConnected |
