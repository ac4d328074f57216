/**
 * The two sides put together: what the main process sends reaches the
 * renderer's shared listeners, and what a query's procedure returns
 * reaches the query's observer.
 */
module EndToEnd {
  import opened JsValues
  import opened IpcLink
  import opened MainHandler

  /** What the renderer receives for a serialised payload: the JSON text,
      or `undefined` when there was none. */
  function PayloadValue(p: Option<string>): (v: Value)
    ensures v == Undefined <==> p.None?
  {
    match p
    case None => Undefined
    case Some(text) => Str(text)
  }

  function ChannelOf(m: SubMessage): Channel {
    match m
    case DataMessage(_, _) => DataChannel
    case ErrorMessage(_, _) => ErrorChannel
    case CompleteMessage(_) => CompleteChannel
  }

  /** A message from the main process reaches the link's listener for its
      channel if the link has installed one; otherwise nothing happens. */
  function Receive(s: LinkState, m: SubMessage): LinkState {
    if Install(ChannelOf(m)) !in s.trace then s
    else
      match m
      case DataMessage(id, data) => DataStep(s, id, PayloadValue(data))
      case ErrorMessage(id, message) => ErrorStep(s, id, message)
      case CompleteMessage(id) => CompleteStep(s, id)
  }

  function ReceiveAll(s: LinkState, ms: seq<SubMessage>): LinkState
    decreases |ms|
  {
    if ms == [] then s else ReceiveAll(Receive(s, ms[0]), ms[1..])
  }

  /** Once an id has no observer (its subscription completed, failed or was
      cleaned up), whatever the main process still sends for that id
      changes nothing in the renderer. */
  lemma {:induction false} LateMessagesDropped(s: LinkState, id: string, ms: seq<SubMessage>)
    requires id !in s.observers
    requires forall k :: 0 <= k < |ms| ==> MessageId(ms[k]) == id
    ensures ReceiveAll(s, ms) == s
    decreases |ms|
  {
    if ms != [] {
      assert Receive(s, ms[0]) == s;
      LateMessagesDropped(s, id, ms[1..]);
    }
  }

  /** A data event sent by the stream's `next` reaches the observer of the
      same id as `{ result: { data } }` with the JSON text of the awaited
      value, or `undefined` when that value is `undefined`. */
  lemma SubscriptionDataRoundTrip(s: LinkState, id: string, data: Value, stringify: Value -> string)
    requires Install(DataChannel) in s.trace && id in s.observers
    requires Await(data).Normal?
    ensures DataSend(id, data, stringify).Some?
    ensures var v := Await(data).value;
      Receive(s, DataSend(id, data, stringify).value).trace
        == s.trace + [Deliver(s.observers[id], NextResult(if v == Undefined then Undefined else Str(stringify(v))))]
  {
  }

  /** An error of the stream reaches the observer of the same id, once, as
      a client error whose cause is the error's message, and the id's entry
      is gone; any later message for the id is dropped. */
  lemma {:induction false} SubscriptionErrorEndsIt(s: LinkState, id: string, error: Value, later: seq<SubMessage>)
    requires Install(ErrorChannel) in s.trace && id in s.observers
    requires error != Undefined && error != Null
    requires forall k :: 0 <= k < |later| ==> MessageId(later[k]) == id
    ensures ErrorSend(id, error).Some?
    ensures var r := Receive(s, ErrorSend(id, error).value);
      && r.trace == s.trace + [Deliver(s.observers[id], Error(ClientError(SUBSCRIPTION_ERROR, MessageOf(error).value)))]
      && r.observers == s.observers - {id}
      && ReceiveAll(r, later) == r
  {
    var r := Receive(s, ErrorSend(id, error).value);
    LateMessagesDropped(r, id, later);
  }

  /** How the renderer's `window.trpc.call` settles for a completion of the
      `trpc` handler, and what the query's observer does with it: the call
      resolves with the payload, or rejects with the error Electron makes of
      the handler's exception (`reject`, since Electron's wrapping of the
      exception is not modelled); `nextThrows` is what the observer's `next`
      throws on the resolved data, if it throws. */
  function InvokeOutcome(c: Completion<Option<string>>, reject: Exception -> Value, nextThrows: Option<Value>): (r: CallOutcome)
    ensures r.Failed? <==> c.Throw?
    ensures r.ResolvedNextThrew? <==> c.Normal? && nextThrows.Some?
    ensures c.Normal? ==> (r.data == Undefined <==> c.value.None?)
    ensures c.Normal? ==> r.data == PayloadValue(c.value)
    ensures r.ResolvedNextThrew? ==> r.thrown == nextThrows.value
    ensures c.Throw? ==> r == Failed(reject(c.exception))
  {
    match c
    case Normal(payload) =>
      if nextThrows.Some? then ResolvedNextThrew(PayloadValue(payload), nextThrows.value)
      else Resolved(PayloadValue(payload))
    case Throw(e) => Failed(reject(e))
  }

  /** A query or mutation whose procedure returns normally: the observer
      gets the JSON text of the awaited result (or `undefined` when the
      result is `undefined`); if its `next` throws, the catch-all then gives
      it `error` with the exception; last comes `complete`. */
  lemma QueryRoundTrip(op: Operation, procedures: map<string, Value -> Value>, parse: Value -> Value,
                       stringify: Value -> string, reject: Exception -> Value, nextThrows: Option<Value>)
    requires op.opType != Subscription && op.path in procedures
    requires Await(procedures[op.path](ParseInput(op.input, parse))).Normal?
    ensures HandleCall(procedures, op.path, op.input, parse, stringify).Normal?
    ensures var v := Await(procedures[op.path](ParseInput(op.input, parse))).value;
      var outcome := InvokeOutcome(HandleCall(procedures, op.path, op.input, parse, stringify), reject, nextThrows);
      QueryLinkStep(op, outcome) ==
        Called(CallRequest(op.path, op.input, op.opType),
               [NextResult(if v == Undefined then Undefined else Str(stringify(v)))]
               + (if nextThrows.Some? then [Error(Raw(nextThrows.value))] else [])
               + [Complete])
  {
  }

  /** A query or mutation whose path is unknown or whose procedure rejects
      never reaches `next`: the observer gets `error` with the rejection of
      the handler's own exception (the missing path, or the procedure's
      rejection reason), then `complete`. */
  lemma QueryFailure(op: Operation, procedures: map<string, Value -> Value>, parse: Value -> Value,
                     stringify: Value -> string, reject: Exception -> Value, nextThrows: Option<Value>)
    requires op.opType != Subscription
    requires op.path !in procedures || Await(procedures[op.path](ParseInput(op.input, parse))).Throw?
    ensures var c := HandleCall(procedures, op.path, op.input, parse, stringify);
      && c.Throw?
      && (op.path !in procedures ==> c.exception == NoSuchProcedure(op.path))
      && (op.path in procedures ==> c.exception == Await(procedures[op.path](ParseInput(op.input, parse))).exception)
      && QueryLinkStep(op, InvokeOutcome(c, reject, nextThrows)) ==
           Called(CallRequest(op.path, op.input, op.opType), [Error(Raw(reject(c.exception))), Complete])
  {
  }

  /** A stream that errors with `undefined` or `null` sends nothing:
      reading `.message` throws in the `error` callback. The renderer's
      observer then stays registered and receives no terminal call from any
      data that still arrives. */
  lemma {:induction false} UnreadableErrorLeavesObserver(s: LinkState, id: string, error: Value, ms: seq<SubMessage>)
    requires error == Undefined || error == Null
    requires forall k :: 0 <= k < |ms| ==> ms[k].DataMessage?
    ensures ErrorSend(id, error).None?
    ensures ReceiveAll(s, ms).observers == s.observers
    ensures |s.trace| <= |ReceiveAll(s, ms).trace| && ReceiveAll(s, ms).trace[..|s.trace|] == s.trace
    ensures forall k :: |s.trace| <= k < |ReceiveAll(s, ms).trace| ==>
      ReceiveAll(s, ms).trace[k].Deliver? && ReceiveAll(s, ms).trace[k].delivery.NextResult?
    decreases |ms|
  {
    if ms != [] {
      var r := Receive(s, ms[0]);
      assert r.observers == s.observers;
      assert forall k :: |s.trace| <= k < |r.trace| ==> r.trace[k].Deliver? && r.trace[k].delivery.NextResult?;
      assert |s.trace| <= |r.trace| && r.trace[..|s.trace|] == s.trace;
      UnreadableErrorLeavesObserver(r, id, error, ms[1..]);
      var final := ReceiveAll(r, ms[1..]);
      assert forall k :: |s.trace| <= k < |r.trace| ==> final.trace[k] == final.trace[..|r.trace|][k] == r.trace[k];
    }
  }
}
