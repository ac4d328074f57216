# electron-trpc IPC bridge: subscription bookkeeping

This project models the core of an Electron bridge that carries tRPC calls and
subscriptions over IPC between a window (the renderer) and the main process.

- **Renderer side (`ipcLink.ts`).** `ipcSubscriptionLink` keeps one table,
  `observers`, from a subscription id to the one observer for that id. Three
  shared listeners route `data`, `error` and `complete` events to the observer
  with the matching id. An event for an unknown id is dropped. On `error` or
  `complete` the entry is deleted before the observer is called. The listeners
  are installed once, behind the `dispatcherRegistered` flag. `ipcLink` turns a
  query or mutation into one bridge call and maps its outcome to observer calls.
- **Main side (`mainHandler.ts`).** `serializeData` maps `undefined` to "no
  payload" and any other value (a promise after awaiting it) to JSON text.
  Truthy `input` fields are JSON-parsed. The `trpc` handler calls a
  procedure and serialises its result. The module-level table `subs` maps a
  window id to a map from subscription id to release function. `trpc:sub:start`
  stores a release function there. `trpc:sub:stop` calls it and deletes the
  entry.

Modules:

- `JsValues` (`js_values.dfy`): JavaScript values, `await`, truthiness.
- `IpcLink` (`ipc_link.dfy`): the step functions that specify each part of
  `ipcSubscriptionLink`. Also the class `SubscriptionLink`, which holds the
  `observers` map, the flag and a trace of every call the link makes (listener
  installs, observer calls, `start`/`stop` sends). Each of its methods is
  proved equal to its step function. `ipcLink` is modelled as `QueryLinkStep`.
- `IpcLinkProofs` (`ipc_link_proofs.dfy`): properties over any sequence of
  events, subscriptions and cleanups.
- `MainHandler` (`main_handler.dfy`): `serializeData`, the input rule, the
  `trpc` handler, and the step functions for start and stop. Also the class
  `SubscriptionTable`, which holds `subs`, the log of release functions called,
  and the messages sent back to windows.
- `MainHandlerProofs` (`main_handler_proofs.dfy`): stop is idempotent, each
  operation is isolated from the others, and every release function is called
  at most once.
- `EndToEnd` (`end_to_end.dfy`): main-side messages fed to the renderer's
  listeners, and a query's procedure result carried to its observer.

Observers and release functions are opaque tokens (`nat`). The JavaScript
code creates a new observer wrapper and a new subscription object each time.
The run theorems model this with a freshness precondition (`FreshOpens`,
`FreshStarts`). `JSON.stringify` and `JSON.parse` are function parameters.

Behaviours of the code that the model keeps as written, although a bridge of this kind is often described otherwise:

- `serializeData` gives "no payload" for `undefined`, and also for a promise
  that resolves to `undefined`, because `JSON.stringify(undefined)` is
  `undefined`.
- The main side does not remove a table entry when a stream errors or completes
  by itself. It has no per-window teardown and no `trpc:abort` handler.
- If `start` throws, the entry for the key is deleted. This restores the
  previous map only when the key was unused. An earlier observer stored under
  the same key is lost.
- A second `trpc:sub:start` for the same (window, id) overwrites the stored
  release function without calling it.
- Only `error.message` crosses the bridge. A stream that errors with a string,
  a number or an object without `message` sends `undefined`, so the
  renderer's client error has cause `undefined` and the error text is lost.
- A stream that errors with `undefined` or `null` sends nothing, because
  reading `.message` throws. The renderer's observer stays registered and
  never gets a terminal call, and the main-side entry stays too.

## Model

| member | source | states |
|---|---|---|
| JsValues.Await | mainHandler.ts:10-12 | awaiting a value gives a non-promise value; a non-promise is returned unchanged; a rejected promise throws its reason; a fulfilled promise gives its value, adopting the state of a promise it resolved with |
| JsValues.Truthy | mainHandler.ts:23 | a value is truthy exactly when it is none of `undefined`, `null`, `false`, `0`, `""` |
| IpcLink.SubscriptionKey | ipcLink.ts:96 | the key is `""` exactly when the operation has no id; an id's key is its decimal digits without leading zeros |
| IpcLinkProofs.DecimalRoundTrip | ipcLink.ts:96 | reading the decimal digits `String(n)` gives back `n` |
| IpcLinkProofs.SubscriptionKeyInjective | ipcLink.ts:96 | two operations get the same key exactly when their ids are equal (a missing id included) |
| IpcLink.InstallList | ipcLink.ts:51-85 | the installs are exactly the channels the bridge offers, each once, all of them listener installs |
| IpcLink.DispatcherStep | ipcLink.ts:48-88 | afterwards the flag is set and the map unchanged; if the flag was set nothing happens, otherwise the offered listeners are installed |
| IpcLink.DataStep | ipcLink.ts:52-63 | the map never changes; an unknown id changes nothing; a known id's observer gets `next({result:{data}})` |
| IpcLink.ErrorStep | ipcLink.ts:66-76 | an unknown id changes nothing; a known id is removed and its observer gets one client error whose cause is the event's error |
| IpcLink.CompleteStep | ipcLink.ts:79-85 | an unknown id changes nothing; a known id is removed and its observer gets `complete` |
| IpcLink.OpenStep | ipcLink.ts:90-119 | a non-subscription op changes nothing; otherwise listeners are installed, `start` is sent with the key, and the key maps to the new observer, or is deleted if `start` threw |
| IpcLink.CloseStep | ipcLink.ts:121-128 | the key is deleted and `stop` is sent; nothing else changes |
| IpcLink.QueryLinkStep | ipcLink.ts:5-31 | subscriptions are forwarded unchanged; a query or mutation makes one call with its path, input and type; a resolved call gives `next` with the data then `complete`; if that `next` throws, the catch-all adds `error` with the exception before `complete`; a failed call gives `error` with the reason then `complete` |
| IpcLink.SubscriptionLink.constructor | ipcLink.ts:37-46 | a new link has an empty map, the flag unset, an empty trace |
| IpcLink.SubscriptionLink.EnsureDispatcherRegistered | ipcLink.ts:48-88 | the new state is `DispatcherStep` of the old |
| IpcLink.SubscriptionLink.OnData | ipcLink.ts:52-63 | the new state is `DataStep` of the old |
| IpcLink.SubscriptionLink.OnError | ipcLink.ts:66-76 | the new state is `ErrorStep` of the old |
| IpcLink.SubscriptionLink.OnComplete | ipcLink.ts:79-85 | the new state is `CompleteStep` of the old |
| IpcLink.SubscriptionLink.Open | ipcLink.ts:90-119 | the new state is `OpenStep` of the old; the op is forwarded exactly when it is not a subscription; the exception is rethrown exactly when `start` threw |
| IpcLink.SubscriptionLink.Close | ipcLink.ts:121-129 | the new state is `CloseStep` of the old |
| IpcLinkProofs.OtherKeysUntouched | ipcLink.ts:101-122 | every event, subscription and cleanup leaves the entries of all other keys as they were |
| IpcLinkProofs.RunExtendsTrace | ipcLink.ts:52-129 | the link only ever appends to its trace of calls |
| IpcLinkProofs.ApplyKeepsConsistent | ipcLink.ts:68-84 | each step keeps the invariant: no call after a terminal call, no registered observer already terminated, no observer under two keys |
| IpcLinkProofs.AtMostOneTerminalDelivery | ipcLink.ts:71-84 | over any run, no observer is called after its `error` or `complete`, so each gets at most one terminal call |
| IpcLinkProofs.UnregisteredObserverReceivesNothing | ipcLink.ts:53-54 | an observer that is not registered and is not subscribed again receives no further call, whatever events arrive |
| IpcLinkProofs.ListenersInstalledOnce | ipcLink.ts:46-99 | over any run, each listener is installed at most once, and exactly the offered ones are installed once the flag is set |
| MainHandler.JsonStringify | mainHandler.ts:12-14 | the text is absent exactly for `undefined` |
| MainHandler.SerializeData | mainHandler.ts:7-16 | "no payload" exactly when the awaited value is `undefined`; otherwise the JSON text of the awaited value; a rejection propagates |
| MainHandlerProofs.AbsentIsNotNull | mainHandler.ts:7-16 | `undefined` has no payload while `null` (awaited or not) has a payload |
| MainHandler.ParseInput | mainHandler.ts:22-25 | a truthy input is JSON-parsed; a falsy one (`undefined`, `null`, `false`, `0`, `""`) gives `undefined` unparsed |
| MainHandler.HandleCall | mainHandler.ts:19-30 | an unknown path fails; otherwise "no payload" exactly when the procedure's awaited result is `undefined` |
| MainHandler.StartStep | mainHandler.ts:36-82 | with no sender, or a path that gives no stream, nothing changes; otherwise the window's map exists and maps `id` to the new release function, and other windows are unchanged |
| MainHandler.StopStep | mainHandler.ts:84-92 | with no sender or no entry nothing changes; otherwise the stored release function is called once and that entry is deleted, and other windows are unchanged |
| MainHandler.MessageOf | mainHandler.ts:67 | reading `error.message` throws exactly for `undefined` and `null`; it gives the object's `message` field, and `undefined` for any other value or an object without that field |
| MainHandler.DataSend | mainHandler.ts:57-62 | a data event carries the subscription's id and is sent unless awaiting the data throws; it has no payload exactly when the awaited data is `undefined`, and otherwise carries the serialised data |
| MainHandler.ErrorSend | mainHandler.ts:64-69 | an error event carries the id and only the error's message |
| MainHandler.SubscriptionTable.constructor | mainHandler.ts:5 | the table starts empty, with nothing released or sent |
| MainHandler.SubscriptionTable.Start | mainHandler.ts:36-82 | the new table is `StartStep` of the old; the procedure receives the input under the input rule |
| MainHandler.SubscriptionTable.Stop | mainHandler.ts:84-92 | the new table and release log are `StopStep` of the old |
| MainHandler.SubscriptionTable.EmitData | mainHandler.ts:57-62 | the table is unchanged; the data event is sent to the window |
| MainHandler.SubscriptionTable.EmitError | mainHandler.ts:64-69 | the table is unchanged (no removal on error); the error event is sent to the window |
| MainHandler.SubscriptionTable.EmitComplete | mainHandler.ts:70-72 | the table is unchanged (no removal on completion); the complete event carries only the id |
| MainHandlerProofs.StopIdempotent | mainHandler.ts:90-91 | a second stop for the same (window, id) calls nothing and changes nothing |
| MainHandlerProofs.StopIsolated | mainHandler.ts:90-91 | a stop calls at most the release function of its own (window, id) and leaves every other entry as it was |
| MainHandlerProofs.StartIsolated | mainHandler.ts:75-81 | a start leaves every other (window, id) entry as it was |
| MainHandlerProofs.StartThenStop | mainHandler.ts:75-91 | a stop after a start calls exactly the release function the start stored; an earlier entry under the same id is dropped without its release being called |
| MainHandlerProofs.StartKeepsConsistent | mainHandler.ts:75-81 | a start with a new subscription keeps the table invariant |
| MainHandlerProofs.StopKeepsConsistent | mainHandler.ts:90-91 | a stop keeps the table invariant |
| MainHandlerProofs.ReleasedAtMostOnce | mainHandler.ts:81-91 | over any run of starts and stops from any windows, no release function is called twice |
| EndToEnd.PayloadValue | mainHandler.ts:29 | the renderer sees `undefined` exactly when there was no payload |
| EndToEnd.LateMessagesDropped | ipcLink.ts:53-54 | once an id has no observer, any further main-side messages for it change nothing in the renderer |
| EndToEnd.SubscriptionDataRoundTrip | ipcLink.ts:52-63 | a stream's data reaches the observer of the same id as the JSON text of the awaited value, or `undefined` |
| EndToEnd.SubscriptionErrorEndsIt | ipcLink.ts:66-76 | a stream's error other than `undefined` or `null` reaches its observer once, as a client error caused by the error's message; the id's entry goes and later messages for the id are dropped |
| EndToEnd.UnreadableErrorLeavesObserver | mainHandler.ts:64-69 | a stream error of `undefined` or `null` sends nothing; the renderer keeps the observer registered, and data that still arrives gives it only `next` calls, never a terminal one |
| EndToEnd.InvokeOutcome | mainHandler.ts:19-30 | `window.trpc.call` resolves exactly when the `trpc` handler completes normally, with the payload (`undefined` exactly for none), and rejects with the handler's exception exactly when the handler throws; a throwing `next` is recorded only for a resolved call |
| EndToEnd.QueryRoundTrip | ipcLink.ts:12-27 | a query whose procedure returns normally gives `next` with the JSON text of the result (or `undefined`); if that `next` throws, `error` with the exception follows; `complete` comes last |
| EndToEnd.QueryFailure | ipcLink.ts:24-27 | a query with an unknown path or a rejecting procedure makes the `trpc` handler throw that failure (the missing path, or the rejection reason); the call rejects with it and the observer gets `error` with that rejection, then `complete` |

## Left out

- `expose.ts` is not part of this model. Its callback sets are plain fan-out. `EndToEnd.Receive` stands for it: a message reaches a listener only if the link installed one.
- Electron and tRPC APIs are not modelled: `ipcMain`, `webContents.send`, `router.createCaller`, `observable`. Procedures are a map from path to function. Streams are a set of paths.
- JSON syntax and `JSON.parse` failures are not modelled. Both JSON functions are parameters.
- Async interleavings are not modelled; each handler is one atomic step. This hides two source behaviours. First, a stop that arrives during the `await` at mainHandler.ts:52 does nothing, and the entry stays behind. Second, the data send in `async next` is deferred, so a data event emitted just before `complete` can be sent after it and then be dropped by the renderer.
- The observable library is not modelled. tRPC's `observable` ignores calls after a terminal call and runs the cleanup after one. The model records the calls the link itself makes, so `ipcLink`'s `error` followed by `complete` shows as two calls.
- IpcLink.SubscriptionLink.OnError: calls back into the link from inside an observer callback are not modelled. So the source's order, which deletes the entry before calling `error`, has no visible effect in the model, and only the final state is stated.
- IpcLink.SubscriptionLink.OnComplete: calls back into the link from inside an observer callback are not modelled. So the source's order, which deletes the entry before calling `complete`, has no visible effect in the model, and only the final state is stated.
- IpcLink.DataStep: an exception thrown by the observer's `next` is not modelled. The listener catches and logs it, so the resulting state is the same.
- IpcLink.ErrorStep: an exception thrown by the observer's `error` is not modelled. The entry is already deleted when it would propagate.
- IpcLink.CloseStep: a failure of `stop` is not modelled as a separate outcome. It is swallowed, and the state is the same either way.
- MainHandler.StopStep: a release function that throws is not modelled. In the source that would skip the delete.
- IpcLink.SubscriptionKey: operation ids are non-negative integers. Other JavaScript numbers (fractions, negatives, NaN) are not modelled.
- JsValues.Truthy: NaN, -0 and BigInt zero are not in the value model.
- IpcLink.QueryLinkStep: a `complete` that throws at ipcLink.ts:22 is not modelled. The catch-all would then call `error` after `complete`. What that does is up to the observable library, which is not modelled.
- Logging through `console.log` and `console.error` has no modelled effect.
