/**
 * Properties of the renderer-side subscription link, proved about the step
 * functions that specify the `SubscriptionLink` methods, over any sequence
 * of listener events, subscriptions and cleanups.
 */
module IpcLinkProofs {
  import opened JsValues
  import opened IpcLink

  // ---------------------------------------------------------------------
  // The subscription key
  // ---------------------------------------------------------------------

  lemma {:induction false} DecimalRoundTrip(n: nat)
    ensures DecimalValue(DecimalString(n)) == n
  {
    if n >= 10 {
      var prefix := DecimalString(n / 10);
      var s := prefix + [DigitChar(n % 10)];
      assert s[..|s| - 1] == prefix;
      DecimalRoundTrip(n / 10);
    }
  }

  /** Distinct operation ids never share a key, and an operation without an
      id never shares the key of one with an id. */
  lemma SubscriptionKeyInjective(a: Option<nat>, b: Option<nat>)
    ensures SubscriptionKey(a) == SubscriptionKey(b) <==> a == b
  {
    if a.Some? && b.Some? && SubscriptionKey(a) == SubscriptionKey(b) {
      DecimalRoundTrip(a.value);
      DecimalRoundTrip(b.value);
    }
  }

  // ---------------------------------------------------------------------
  // Runs of the link
  // ---------------------------------------------------------------------

  /** Everything that can happen to one link: an event on one of the three
      shared channels, a subscription to the link's observable, or the
      cleanup of an earlier subscription. */
  datatype LinkOp =
    | DataEvent(id: string, data: Value)
    | ErrorEvent(id: string, error: Value)
    | CompleteEvent(id: string)
    | Open(op: Operation, observer: ObserverToken, startThrows: bool)
    | Close(key: string)

  function Apply(s: LinkState, exposed: set<Channel>, e: LinkOp): LinkState {
    match e
    case DataEvent(id, data) => DataStep(s, id, data)
    case ErrorEvent(id, error) => ErrorStep(s, id, error)
    case CompleteEvent(id) => CompleteStep(s, id)
    case Open(op, observer, startThrows) => OpenStep(s, exposed, op, observer, startThrows)
    case Close(key) => CloseStep(s, key)
  }

  function Run(s: LinkState, exposed: set<Channel>, ops: seq<LinkOp>): LinkState
    decreases |ops|
  {
    if ops == [] then s else Run(Apply(s, exposed, ops[0]), exposed, ops[1..])
  }

  /** The key a step reads and writes. */
  function KeyOf(e: LinkOp): string {
    match e
    case DataEvent(id, _) => id
    case ErrorEvent(id, _) => id
    case CompleteEvent(id) => id
    case Open(op, _, _) => SubscriptionKey(op.id)
    case Close(key) => key
  }

  /** Every step reads and writes the entry of its own key only: the
      observers of all other ids are untouched. */
  lemma OtherKeysUntouched(s: LinkState, exposed: set<Channel>, e: LinkOp, k: string)
    requires k != KeyOf(e)
    ensures k in Apply(s, exposed, e).observers <==> k in s.observers
    ensures k in s.observers ==> Apply(s, exposed, e).observers[k] == s.observers[k]
  {
  }

  /** Every step only appends to the trace. */
  lemma {:induction false} RunExtendsTrace(s: LinkState, exposed: set<Channel>, ops: seq<LinkOp>)
    ensures |s.trace| <= |Run(s, exposed, ops).trace|
    ensures Run(s, exposed, ops).trace[..|s.trace|] == s.trace
    decreases |ops|
  {
    if ops != [] {
      var next := Apply(s, exposed, ops[0]);
      assert next.trace[..|s.trace|] == s.trace;
      RunExtendsTrace(next, exposed, ops[1..]);
    }
  }

  // ---------------------------------------------------------------------
  // At most one terminal delivery per observer
  // ---------------------------------------------------------------------

  ghost predicate IsTerminalDelivery(e: Effect) {
    e.Deliver? && IsTerminal(e.delivery)
  }

  /** No observer is called after it has received `error` or `complete`;
      in particular no observer receives two terminal calls. */
  ghost predicate NoDeliveryAfterTerminal(trace: seq<Effect>) {
    forall i, j ::
      0 <= i < j < |trace| && IsTerminalDelivery(trace[i]) && trace[j].Deliver? ==>
        trace[j].observer != trace[i].observer
  }

  ghost predicate NeverTerminated(trace: seq<Effect>, o: ObserverToken) {
    forall i :: 0 <= i < |trace| && IsTerminalDelivery(trace[i]) ==> trace[i].observer != o
  }

  /** The invariant: the trace so far is well behaved, no registered
      observer has had a terminal call, and no observer is registered under
      two ids. */
  ghost predicate Consistent(s: LinkState) {
    && NoDeliveryAfterTerminal(s.trace)
    && (forall id :: id in s.observers ==> NeverTerminated(s.trace, s.observers[id]))
    && (forall id1, id2 :: id1 in s.observers && id2 in s.observers && id1 != id2 ==>
          s.observers[id1] != s.observers[id2])
  }

  /** A subscription brings a new observer object: one not registered now
      and never terminated before. */
  ghost predicate FreshObserver(s: LinkState, o: ObserverToken) {
    o !in s.observers.Values && NeverTerminated(s.trace, o)
  }

  ghost predicate FreshOpens(s: LinkState, exposed: set<Channel>, ops: seq<LinkOp>)
    decreases |ops|
  {
    ops == [] ||
    ((ops[0].Open? ==> FreshObserver(s, ops[0].observer)) && FreshOpens(Apply(s, exposed, ops[0]), exposed, ops[1..]))
  }

  lemma ConsistentInitial()
    ensures Consistent(INITIAL)
  {
  }

  /** Appending calls that are not terminal deliveries, and no delivery to
      an observer that has been terminated, keeps the trace well behaved. */
  lemma AppendNonTerminal(trace: seq<Effect>, e: Effect)
    requires NoDeliveryAfterTerminal(trace)
    requires !IsTerminalDelivery(e)
    requires e.Deliver? ==> NeverTerminated(trace, e.observer)
    ensures NoDeliveryAfterTerminal(trace + [e])
  {
    var t := trace + [e];
    forall i, j | 0 <= i < j < |t| && IsTerminalDelivery(t[i]) && t[j].Deliver?
      ensures t[j].observer != t[i].observer
    {
      if j == |trace| {
        assert t[i] == trace[i];
      }
    }
  }

  lemma AppendTerminal(trace: seq<Effect>, o: ObserverToken, d: Delivery)
    requires NoDeliveryAfterTerminal(trace)
    requires IsTerminal(d) && NeverTerminated(trace, o)
    ensures NoDeliveryAfterTerminal(trace + [Deliver(o, d)])
  {
    var t := trace + [Deliver(o, d)];
    forall i, j | 0 <= i < j < |t| && IsTerminalDelivery(t[i]) && t[j].Deliver?
      ensures t[j].observer != t[i].observer
    {
      if j == |trace| {
        assert t[i] == trace[i];
      }
    }
  }

  lemma AppendInstalls(trace: seq<Effect>, more: seq<Effect>)
    requires NoDeliveryAfterTerminal(trace)
    requires forall k :: 0 <= k < |more| ==> more[k].Install?
    ensures NoDeliveryAfterTerminal(trace + more)
    ensures forall o :: NeverTerminated(trace, o) ==> NeverTerminated(trace + more, o)
  {
    var t := trace + more;
    forall i, j | 0 <= i < j < |t| && IsTerminalDelivery(t[i]) && t[j].Deliver?
      ensures t[j].observer != t[i].observer
    {
      assert t[j] == trace[j];
    }
  }

  lemma ApplyKeepsConsistent(s: LinkState, exposed: set<Channel>, e: LinkOp)
    requires Consistent(s)
    requires e.Open? ==> FreshObserver(s, e.observer)
    ensures Consistent(Apply(s, exposed, e))
  {
    var r := Apply(s, exposed, e);
    match e
    case DataEvent(id, data) =>
      if id in s.observers {
        AppendNonTerminal(s.trace, Deliver(s.observers[id], NextResult(data)));
        assert forall k :: k in r.observers ==> NeverTerminated(r.trace, r.observers[k]);
      }
    case ErrorEvent(id, error) =>
      if id in s.observers {
        var o := s.observers[id];
        AppendTerminal(s.trace, o, Error(ClientError(SUBSCRIPTION_ERROR, error)));
        assert forall k :: k in r.observers ==> NeverTerminated(r.trace, r.observers[k]);
      }
    case CompleteEvent(id) =>
      if id in s.observers {
        var o := s.observers[id];
        AppendTerminal(s.trace, o, Complete);
        assert forall k :: k in r.observers ==> NeverTerminated(r.trace, r.observers[k]);
      }
    case Open(op, observer, startThrows) =>
      if op.opType == Subscription {
        var key := SubscriptionKey(op.id);
        var d := DispatcherStep(s, exposed);
        if !s.dispatcherRegistered {
          AppendInstalls(s.trace, InstallList(exposed));
        }
        assert NoDeliveryAfterTerminal(d.trace);
        assert forall o :: NeverTerminated(s.trace, o) ==> NeverTerminated(d.trace, o);
        AppendNonTerminal(d.trace, SendStart(key, op.path, op.input));
        assert forall o :: NeverTerminated(d.trace, o) ==> NeverTerminated(r.trace, o);
      }
    case Close(key) =>
      AppendNonTerminal(s.trace, SendStop(key));
      assert forall k :: k in r.observers ==> NeverTerminated(r.trace, r.observers[k]);
  }

  lemma {:induction false} RunKeepsConsistent(s: LinkState, exposed: set<Channel>, ops: seq<LinkOp>)
    requires Consistent(s) && FreshOpens(s, exposed, ops)
    ensures Consistent(Run(s, exposed, ops))
    decreases |ops|
  {
    if ops != [] {
      ApplyKeepsConsistent(s, exposed, ops[0]);
      RunKeepsConsistent(Apply(s, exposed, ops[0]), exposed, ops[1..]);
    }
  }

  /** Whatever the events, subscriptions and cleanups, as long as every
      subscription brings its own observer: no observer is called after an
      error or complete, so each subscription gets at most one terminal
      call and later events for it are discarded. */
  lemma AtMostOneTerminalDelivery(exposed: set<Channel>, ops: seq<LinkOp>)
    requires FreshOpens(INITIAL, exposed, ops)
    ensures NoDeliveryAfterTerminal(Run(INITIAL, exposed, ops).trace)
  {
    ConsistentInitial();
    RunKeepsConsistent(INITIAL, exposed, ops);
  }

  // ---------------------------------------------------------------------
  // Observers that are no longer registered
  // ---------------------------------------------------------------------

  ghost predicate NoDeliveryTo(trace: seq<Effect>, from: nat, o: ObserverToken) {
    forall i :: from <= i < |trace| && trace[i].Deliver? ==> trace[i].observer != o
  }

  ghost predicate NeverOpens(ops: seq<LinkOp>, o: ObserverToken) {
    forall k :: 0 <= k < |ops| && ops[k].Open? ==> ops[k].observer != o
  }

  /** An observer that is not registered (its subscription was cleaned up,
      ended, or replaced under the same id) and is not subscribed again
      receives no call at all, whatever events arrive afterwards. */
  lemma {:induction false} UnregisteredObserverReceivesNothing(s: LinkState, exposed: set<Channel>, ops: seq<LinkOp>, o: ObserverToken)
    requires o !in s.observers.Values
    requires NeverOpens(ops, o)
    ensures |s.trace| <= |Run(s, exposed, ops).trace|
    ensures NoDeliveryTo(Run(s, exposed, ops).trace, |s.trace|, o)
    decreases |ops|
  {
    RunExtendsTrace(s, exposed, ops);
    if ops != [] {
      var next := Apply(s, exposed, ops[0]);
      assert o !in next.observers.Values;
      assert NoDeliveryTo(next.trace, |s.trace|, o);
      assert NeverOpens(ops[1..], o) by {
        forall k | 0 <= k < |ops| - 1 && ops[1..][k].Open?
          ensures ops[1..][k].observer != o
        {
          assert ops[1..][k] == ops[k + 1];
        }
      }
      UnregisteredObserverReceivesNothing(next, exposed, ops[1..], o);
      RunExtendsTrace(next, exposed, ops[1..]);
      var final := Run(s, exposed, ops);
      assert final == Run(next, exposed, ops[1..]);
      forall i | |s.trace| <= i < |final.trace| && final.trace[i].Deliver?
        ensures final.trace[i].observer != o
      {
        if i < |next.trace| {
          assert final.trace[i] == final.trace[..|next.trace|][i] == next.trace[i];
        }
      }
    }
  }

  // ---------------------------------------------------------------------
  // The shared listeners are installed at most once
  // ---------------------------------------------------------------------

  /** Exactly the offered listeners are installed once the flag is set,
      none before, and none twice. */
  ghost predicate InstalledOnce(s: LinkState, exposed: set<Channel>) {
    && (forall c :: Install(c) in s.trace <==> s.dispatcherRegistered && c in exposed)
    && (forall i, j :: 0 <= i < j < |s.trace| && s.trace[i].Install? ==> s.trace[i] != s.trace[j])
  }

  lemma AppendNonInstall(trace: seq<Effect>, e: Effect)
    requires !e.Install?
    requires forall i, j :: 0 <= i < j < |trace| && trace[i].Install? ==> trace[i] != trace[j]
    ensures forall i, j :: 0 <= i < j < |trace + [e]| && (trace + [e])[i].Install? ==> (trace + [e])[i] != (trace + [e])[j]
    ensures forall c :: Install(c) in trace + [e] <==> Install(c) in trace
  {
  }

  lemma DispatcherInstallsOnce(s: LinkState, exposed: set<Channel>)
    requires InstalledOnce(s, exposed)
    ensures InstalledOnce(DispatcherStep(s, exposed), exposed)
  {
    if !s.dispatcherRegistered {
      var more := InstallList(exposed);
      var t := s.trace + more;
      assert forall k :: 0 <= k < |s.trace| ==> !s.trace[k].Install? by {
        forall k | 0 <= k < |s.trace|
          ensures !s.trace[k].Install?
        {
          assert s.trace[k] in s.trace;
        }
      }
      assert forall k :: 0 <= k < |s.trace| ==> t[k] == s.trace[k];
      assert forall k :: |s.trace| <= k < |t| ==> t[k] == more[k - |s.trace|];
      forall c
        ensures Install(c) in t <==> c in exposed
      {
        assert Install(c) in t <==> Install(c) in s.trace || Install(c) in more;
      }
    }
  }

  lemma ApplyInstallsOnce(s: LinkState, exposed: set<Channel>, e: LinkOp)
    requires InstalledOnce(s, exposed)
    ensures InstalledOnce(Apply(s, exposed, e), exposed)
  {
    match e
    case DataEvent(id, data) =>
      if id in s.observers {
        AppendNonInstall(s.trace, Deliver(s.observers[id], NextResult(data)));
      }
    case ErrorEvent(id, error) =>
      if id in s.observers {
        AppendNonInstall(s.trace, Deliver(s.observers[id], Error(ClientError(SUBSCRIPTION_ERROR, error))));
      }
    case CompleteEvent(id) =>
      if id in s.observers {
        AppendNonInstall(s.trace, Deliver(s.observers[id], Complete));
      }
    case Open(op, observer, startThrows) =>
      if op.opType == Subscription {
        var d := DispatcherStep(s, exposed);
        DispatcherInstallsOnce(s, exposed);
        AppendNonInstall(d.trace, SendStart(SubscriptionKey(op.id), op.path, op.input));
      }
    case Close(key) =>
      AppendNonInstall(s.trace, SendStop(key));
  }

  lemma {:induction false} RunInstallsOnce(s: LinkState, exposed: set<Channel>, ops: seq<LinkOp>)
    requires InstalledOnce(s, exposed)
    ensures InstalledOnce(Run(s, exposed, ops), exposed)
    decreases |ops|
  {
    if ops != [] {
      ApplyInstallsOnce(s, exposed, ops[0]);
      RunInstallsOnce(Apply(s, exposed, ops[0]), exposed, ops[1..]);
    }
  }

  /** However many subscriptions are opened, each shared listener is
      installed at most once per link, and exactly the offered ones are
      installed once the first subscription has been opened. */
  lemma ListenersInstalledOnce(exposed: set<Channel>, ops: seq<LinkOp>)
    ensures InstalledOnce(Run(INITIAL, exposed, ops), exposed)
  {
    RunInstallsOnce(INITIAL, exposed, ops);
  }
}
