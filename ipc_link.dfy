/**
 * The renderer-side links of the bridge (ipcLink.ts).
 *
 * `ipcSubscriptionLink` keeps one table, `observers`, from a subscription id
 * to the single observer of that id, and three shared listeners that route
 * data, error and complete events from the main process to the observer of
 * the event's id. `ipcLink` turns a query or mutation into one bridge call
 * and maps its outcome to observer calls.
 *
 * Every call the link makes into the preload bridge (`window.trpcSub.*`)
 * and every call it makes on an observer is recorded, in order, in a trace.
 * An observer is an opaque token: the link creates a new wrapper object for
 * every subscription, and only that object's identity matters here.
 */
module IpcLink {
  import opened JsValues

  /** The three shared listeners, one per event channel of the bridge. */
  datatype Channel = DataChannel | ErrorChannel | CompleteChannel

  /** Identity of the observer wrapper stored for one subscription. */
  type ObserverToken = nat

  /** The message of the client error an error event is wrapped in. */
  const SUBSCRIPTION_ERROR: string := "Subscription error"

  /** What an observer's `error` receives: the call's own rejection reason
      (query/mutation) or a client error whose cause is the event's error
      (subscription). */
  datatype ErrorValue = Raw(error: Value) | ClientError(message: string, cause: Value)

  /** A call on an observer. `NextResult(d)` is `next({ result: { data: d } })`. */
  datatype Delivery = NextResult(data: Value) | Error(error: ErrorValue) | Complete

  predicate IsTerminal(d: Delivery) {
    d.Error? || d.Complete?
  }

  /** One call made by the link, in the order it is made. A call into the
      bridge is recorded whether or not it throws. */
  datatype Effect =
    | Install(channel: Channel)                        // window.trpcSub.onData/onError/onComplete(listener)
    | Deliver(observer: ObserverToken, delivery: Delivery)
    | SendStart(id: string, path: string, input: Value) // window.trpcSub.start
    | SendStop(id: string)                              // window.trpcSub.stop

  /** The state of one `ipcSubscriptionLink` instance. */
  datatype LinkState = LinkState(
    observers: map<string, ObserverToken>,
    dispatcherRegistered: bool,
    trace: seq<Effect>)

  const INITIAL: LinkState := LinkState(map[], false, [])

  datatype OpType = Query | Mutation | Subscription

  /** A tRPC operation as the links see it; `id` is absent for `null`/`undefined`. */
  datatype Operation = Operation(id: Option<nat>, opType: OpType, path: string, input: Value)

  // ---------------------------------------------------------------------
  // The subscription key: String(op.id ?? "")
  // ---------------------------------------------------------------------

  function DigitChar(d: nat): (c: char)
    requires d < 10
    ensures '0' <= c <= '9'
  {
    ('0' as int + d) as char
  }

  function DigitValue(c: char): nat
    requires '0' <= c <= '9'
  {
    (c - '0') as nat
  }

  /** `String(n)` for a non-negative integer: its decimal digits. */
  function DecimalString(n: nat): (s: string)
    ensures s != []
    ensures forall i :: 0 <= i < |s| ==> '0' <= s[i] <= '9'
    ensures |s| > 1 ==> s[0] != '0'
  {
    if n < 10 then [DigitChar(n)] else DecimalString(n / 10) + [DigitChar(n % 10)]
  }

  /** The number a string of decimal digits denotes. */
  function DecimalValue(s: string): nat
    requires forall i :: 0 <= i < |s| ==> '0' <= s[i] <= '9'
  {
    if s == [] then 0 else DecimalValue(s[..|s| - 1]) * 10 + DigitValue(s[|s| - 1])
  }

  /** `String(op.id ?? "")`: the key a subscription is stored under. */
  function SubscriptionKey(id: Option<nat>): (k: string)
    ensures k == "" <==> id.None?
  {
    match id
    case None => ""
    case Some(n) => DecimalString(n)
  }

  // ---------------------------------------------------------------------
  // ipcSubscriptionLink: the specification of each step
  // ---------------------------------------------------------------------

  /** The listener installations `ensureDispatcherRegistered` makes, in
      order; `exposed` is the set of `onX` registrars the bridge offers
      (each call is guarded by optional chaining). */
  function InstallList(exposed: set<Channel>): (r: seq<Effect>)
    ensures forall c :: Install(c) in r <==> c in exposed
    ensures forall i :: 0 <= i < |r| ==> r[i].Install?
    ensures forall i, j :: 0 <= i < j < |r| ==> r[i] != r[j]
  {
    var data := if DataChannel in exposed then [Install(DataChannel)] else [];
    var error := if ErrorChannel in exposed then [Install(ErrorChannel)] else [];
    var complete := if CompleteChannel in exposed then [Install(CompleteChannel)] else [];
    var r := data + error + complete;
    assert forall c :: Install(c) in r <==> c in exposed by {
      forall c
        ensures Install(c) in r <==> c in exposed
      {
        assert Install(c) in r <==> Install(c) in data || Install(c) in error || Install(c) in complete;
        if c == DataChannel {
          assert Install(c) !in error && Install(c) !in complete;
        } else if c == ErrorChannel {
          assert Install(c) !in data && Install(c) !in complete;
        } else {
          assert Install(c) !in data && Install(c) !in error;
        }
      }
    }
    r
  }

  /** `ensureDispatcherRegistered`: installs the listeners unless the flag
      says they already are, then sets the flag. */
  function DispatcherStep(s: LinkState, exposed: set<Channel>): (r: LinkState)
    ensures r.dispatcherRegistered && r.observers == s.observers
    ensures s.dispatcherRegistered ==> r == s
    ensures !s.dispatcherRegistered ==> r.trace == s.trace + InstallList(exposed)
  {
    if s.dispatcherRegistered then s
    else LinkState(s.observers, true, s.trace + InstallList(exposed))
  }

  /** The data listener: deliver `{ result: { data } }` to the id's observer,
      or drop the event when the id has none. The map is never changed; an
      exception thrown by the observer is caught inside the listener. */
  function DataStep(s: LinkState, id: string, data: Value): (r: LinkState)
    ensures r.observers == s.observers && r.dispatcherRegistered == s.dispatcherRegistered
    ensures id !in s.observers ==> r == s
    ensures id in s.observers ==> r.trace == s.trace + [Deliver(s.observers[id], NextResult(data))]
  {
    if id !in s.observers then s
    else s.(trace := s.trace + [Deliver(s.observers[id], NextResult(data))])
  }

  /** The error listener: remove the id's entry, then deliver a client error
      whose cause is the event's error; drop the event when the id has no
      entry. */
  function ErrorStep(s: LinkState, id: string, error: Value): (r: LinkState)
    ensures r.dispatcherRegistered == s.dispatcherRegistered
    ensures id !in s.observers ==> r == s
    ensures id in s.observers ==>
      && r.observers == s.observers - {id}
      && r.trace == s.trace + [Deliver(s.observers[id], Error(ClientError(SUBSCRIPTION_ERROR, error)))]
  {
    if id !in s.observers then s
    else
      var observer := s.observers[id];
      LinkState(s.observers - {id}, s.dispatcherRegistered,
                s.trace + [Deliver(observer, Error(ClientError(SUBSCRIPTION_ERROR, error)))])
  }

  /** The complete listener: remove the id's entry, then call `complete`;
      drop the event when the id has no entry. */
  function CompleteStep(s: LinkState, id: string): (r: LinkState)
    ensures r.dispatcherRegistered == s.dispatcherRegistered
    ensures id !in s.observers ==> r == s
    ensures id in s.observers ==>
      r.observers == s.observers - {id} && r.trace == s.trace + [Deliver(s.observers[id], Complete)]
  {
    if id !in s.observers then s
    else
      var observer := s.observers[id];
      LinkState(s.observers - {id}, s.dispatcherRegistered, s.trace + [Deliver(observer, Complete)])
  }

  /** Subscribing to the link's observable for `op`. An operation that is
      not a subscription is passed on to the next link and changes nothing.
      Otherwise: install the listeners if needed, store `observer` under
      the op's key (replacing any earlier one), call `start`; if `start`
      throws, delete the key again before the exception is rethrown. */
  function OpenStep(s: LinkState, exposed: set<Channel>, op: Operation, observer: ObserverToken, startThrows: bool): (r: LinkState)
    ensures op.opType != Subscription ==> r == s
    ensures op.opType == Subscription ==>
      var key := SubscriptionKey(op.id);
      && r.dispatcherRegistered
      && r.trace == DispatcherStep(s, exposed).trace + [SendStart(key, op.path, op.input)]
      && r.observers == if startThrows then s.observers - {key} else s.observers[key := observer]
  {
    if op.opType != Subscription then s
    else
      var key := SubscriptionKey(op.id);
      var registered := DispatcherStep(s, exposed);
      var stored := registered.(observers := registered.observers[key := observer]);
      var started := stored.(trace := stored.trace + [SendStart(key, op.path, op.input)]);
      if startThrows then started.(observers := started.observers - {key}) else started
  }

  /** The cleanup returned by the subscribe function: delete the key first,
      then call `stop`; a failure of `stop` is swallowed. */
  function CloseStep(s: LinkState, key: string): (r: LinkState)
    ensures r.dispatcherRegistered == s.dispatcherRegistered
    ensures r.observers == s.observers - {key}
    ensures r.trace == s.trace + [SendStop(key)]
  {
    LinkState(s.observers - {key}, s.dispatcherRegistered, s.trace + [SendStop(key)])
  }

  // ---------------------------------------------------------------------
  // ipcSubscriptionLink: the object that holds the table
  // ---------------------------------------------------------------------

  /** One `ipcSubscriptionLink()` instance: its `observers` map, its
      `dispatcherRegistered` flag, and the calls it has made so far. */
  class SubscriptionLink {
    const exposed: set<Channel>
    var observers: map<string, ObserverToken>
    var dispatcherRegistered: bool
    var trace: seq<Effect>

    function State(): LinkState
      reads this
    {
      LinkState(observers, dispatcherRegistered, trace)
    }

    constructor (exposed: set<Channel>)
      ensures this.exposed == exposed && State() == INITIAL
    {
      this.exposed := exposed;
      observers := map[];
      dispatcherRegistered := false;
      trace := [];
    }

    method EnsureDispatcherRegistered()
      modifies this
      ensures State() == DispatcherStep(old(State()), exposed)
    {
      if dispatcherRegistered {
        return;
      }
      if DataChannel in exposed {
        trace := trace + [Install(DataChannel)];
      }
      if ErrorChannel in exposed {
        trace := trace + [Install(ErrorChannel)];
      }
      if CompleteChannel in exposed {
        trace := trace + [Install(CompleteChannel)];
      }
      dispatcherRegistered := true;
    }

    method OnData(id: string, data: Value)
      modifies this
      ensures State() == DataStep(old(State()), id, data)
    {
      if id !in observers {
        return;
      }
      var observer := observers[id];
      trace := trace + [Deliver(observer, NextResult(data))];
    }

    method OnError(id: string, error: Value)
      modifies this
      ensures State() == ErrorStep(old(State()), id, error)
    {
      if id !in observers {
        return;
      }
      var observer := observers[id];
      observers := observers - {id};
      trace := trace + [Deliver(observer, Error(ClientError(SUBSCRIPTION_ERROR, error)))];
    }

    method OnComplete(id: string)
      modifies this
      ensures State() == CompleteStep(old(State()), id)
    {
      if id !in observers {
        return;
      }
      var observer := observers[id];
      observers := observers - {id};
      trace := trace + [Deliver(observer, Complete)];
    }

    /** Returns whether the operation was handled here (not forwarded) and,
        if so, whether `start` threw (the exception is rethrown). */
    method Open(op: Operation, observer: ObserverToken, startThrows: bool) returns (forwarded: bool, threw: bool)
      modifies this
      ensures State() == OpenStep(old(State()), exposed, op, observer, startThrows)
      ensures forwarded <==> op.opType != Subscription
      ensures threw <==> !forwarded && startThrows
    {
      if op.opType != Subscription {
        return true, false;
      }
      var key := SubscriptionKey(op.id);
      EnsureDispatcherRegistered();
      observers := observers[key := observer];
      trace := trace + [SendStart(key, op.path, op.input)];
      if startThrows {
        observers := observers - {key};
        return false, true;
      }
      return false, false;
    }

    method Close(key: string)
      modifies this
      ensures State() == CloseStep(old(State()), key)
    {
      observers := observers - {key};
      trace := trace + [SendStop(key)];
    }
  }

  // ---------------------------------------------------------------------
  // ipcLink: queries and mutations
  // ---------------------------------------------------------------------

  /** The request `window.trpc.call` is given. */
  datatype CallRequest = CallRequest(path: string, input: Value, opType: OpType)

  /** How the promise returned by `window.trpc.call` settles, and whether
      the observer's `next` throws on the resolved data (the `.catch` after
      `.then` catches that exception as well). */
  datatype CallOutcome =
    | Resolved(data: Value)
    | ResolvedNextThrew(data: Value, thrown: Value)
    | Failed(reason: Value)

  /** What `ipcLink` does with one operation: pass it to the next link, or
      make one bridge call and the observer calls its outcome leads to. */
  datatype QueryHandling =
    | ForwardedToNext(op: Operation)
    | Called(request: CallRequest, deliveries: seq<Delivery>)

  function QueryLinkStep(op: Operation, outcome: CallOutcome): (r: QueryHandling)
    ensures r.ForwardedToNext? <==> op.opType == Subscription
    ensures r.ForwardedToNext? ==> r.op == op
    ensures r.Called? ==>
      && r.request == CallRequest(op.path, op.input, op.opType)
      && 2 <= |r.deliveries| <= 3
      && r.deliveries[|r.deliveries| - 1] == Complete
      && (|r.deliveries| == 3 <==> outcome.ResolvedNextThrew?)
      && (r.deliveries[0].NextResult? <==> !outcome.Failed?)
      && (!outcome.Failed? ==> r.deliveries[0].data == outcome.data)
      && (outcome.ResolvedNextThrew? ==> r.deliveries[1] == Error(Raw(outcome.thrown)))
      && (outcome.Failed? ==> r.deliveries[0] == Error(Raw(outcome.reason)))
  {
    if !op.opType.Query? && !op.opType.Mutation? then ForwardedToNext(op)
    else
      var request := CallRequest(op.path, op.input, op.opType);
      match outcome
      case Resolved(data) => Called(request, [NextResult(data), Complete])
      case ResolvedNextThrew(data, e) => Called(request, [NextResult(data), Error(Raw(e)), Complete])
      case Failed(e) => Called(request, [Error(Raw(e)), Complete])
  }
}
