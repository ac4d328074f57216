/**
 * Properties of the main-process subscription table, proved about the step
 * functions that specify `SubscriptionTable.Start` and `.Stop`.
 */
module MainHandlerProofs {
  import opened JsValues
  import opened MainHandler

  // ---------------------------------------------------------------------
  // Serialisation
  // ---------------------------------------------------------------------

  /** "No payload" is kept apart from a serialised `null`: `null` (and every
      value other than `undefined`, awaited or not) has a payload. */
  lemma AbsentIsNotNull(stringify: Value -> string)
    ensures SerializeData(Undefined, stringify) == Normal(None)
    ensures SerializeData(Null, stringify) == Normal(Some(stringify(Null)))
    ensures SerializeData(Fulfilled(Null), stringify) == Normal(Some(stringify(Null)))
    ensures SerializeData(Fulfilled(Undefined), stringify) == Normal(None)
  {
  }

  // ---------------------------------------------------------------------
  // Stop
  // ---------------------------------------------------------------------

  /** A second stop for the same (window, id) calls nothing and changes
      nothing. */
  lemma StopIdempotent(t: TableState, sender: Option<WindowId>, id: string)
    ensures StopStep(StopStep(t, sender, id), sender, id) == StopStep(t, sender, id)
  {
    if sender.Some? {
      assert id !in WindowSubs(StopStep(t, sender, id), sender.value);
    }
  }

  /** Stop for (w, id) calls at most the release function stored under
      (w, id), and every other entry keeps its presence and its value. */
  lemma StopIsolated(t: TableState, w: WindowId, id: string, v: WindowId, other: string)
    requires v != w || other != id
    ensures var r := StopStep(t, Some(w), id);
      && |r.released| <= |t.released| + 1
      && r.released[..|t.released|] == t.released
      && (|r.released| == |t.released| + 1 ==> id in WindowSubs(t, w) && r.released[|t.released|] == t.subs[w][id])
      && (other in WindowSubs(r, v) <==> other in WindowSubs(t, v))
      && (other in WindowSubs(t, v) ==> WindowSubs(r, v)[other] == WindowSubs(t, v)[other])
  {
  }

  // ---------------------------------------------------------------------
  // Start
  // ---------------------------------------------------------------------

  /** Start for (w, id) leaves every other (window, id) entry unchanged. */
  lemma StartIsolated(t: TableState, streams: set<string>, w: WindowId, id: string, path: string,
                      subscription: ReleaseToken, v: WindowId, other: string)
    requires v != w || other != id
    ensures var r := StartStep(t, streams, Some(w), id, path, subscription);
      && (other in WindowSubs(r, v) <==> other in WindowSubs(t, v))
      && (other in WindowSubs(t, v) ==> WindowSubs(r, v)[other] == WindowSubs(t, v)[other])
  {
  }

  /** A start followed by a stop for the same (window, id) calls exactly the
      release function the start stored; the window keeps its (possibly
      new, possibly empty) inner map, and an earlier entry under the same id
      is gone without its release function ever being called. */
  lemma StartThenStop(t: TableState, streams: set<string>, w: WindowId, id: string, path: string,
                      subscription: ReleaseToken)
    requires path in streams
    ensures var r := StopStep(StartStep(t, streams, Some(w), id, path, subscription), Some(w), id);
      && r.released == t.released + [subscription]
      && r.subs.Keys == t.subs.Keys + {w}
      && WindowSubs(r, w) == WindowSubs(t, w) - {id}
      && (forall v :: v != w ==> WindowSubs(r, v) == WindowSubs(t, v))
  {
    var s := StartStep(t, streams, Some(w), id, path, subscription);
    assert WindowSubs(s, w)[id := subscription] - {id} == WindowSubs(t, w) - {id};
  }

  // ---------------------------------------------------------------------
  // Every release function is called at most once
  // ---------------------------------------------------------------------

  datatype TableOp =
    | StartOp(sender: Option<WindowId>, id: string, path: string, subscription: ReleaseToken)
    | StopOp(sender: Option<WindowId>, id: string)

  function Apply(t: TableState, streams: set<string>, op: TableOp): TableState {
    match op
    case StartOp(sender, id, path, subscription) => StartStep(t, streams, sender, id, path, subscription)
    case StopOp(sender, id) => StopStep(t, sender, id)
  }

  function Run(t: TableState, streams: set<string>, ops: seq<TableOp>): TableState
    decreases |ops|
  {
    if ops == [] then t else Run(Apply(t, streams, ops[0]), streams, ops[1..])
  }

  ghost predicate NotStored(t: TableState, token: ReleaseToken) {
    forall w, id :: w in t.subs && id in t.subs[w] ==> t.subs[w][id] != token
  }

  ghost predicate NoDuplicates(s: seq<ReleaseToken>) {
    forall i, j :: 0 <= i < j < |s| ==> s[i] != s[j]
  }

  /** The invariant: nothing was released twice, nothing stored has been
      released, and no release function is stored under two entries. */
  ghost predicate TableConsistent(t: TableState) {
    && NoDuplicates(t.released)
    && (forall w, id :: w in t.subs && id in t.subs[w] ==> t.subs[w][id] !in t.released)
    && (forall w1, id1, w2, id2 ::
          w1 in t.subs && id1 in t.subs[w1] && w2 in t.subs && id2 in t.subs[w2] && (w1 != w2 || id1 != id2) ==>
            t.subs[w1][id1] != t.subs[w2][id2])
  }

  /** Each start subscribes anew: its subscription object is neither stored
      nor already released. */
  ghost predicate FreshStarts(t: TableState, streams: set<string>, ops: seq<TableOp>)
    decreases |ops|
  {
    ops == [] ||
    ((ops[0].StartOp? ==> ops[0].subscription !in t.released && NotStored(t, ops[0].subscription))
     && FreshStarts(Apply(t, streams, ops[0]), streams, ops[1..]))
  }

  lemma StartKeepsConsistent(t: TableState, streams: set<string>, sender: Option<WindowId>, id: string,
                             path: string, subscription: ReleaseToken)
    requires TableConsistent(t)
    requires subscription !in t.released && NotStored(t, subscription)
    ensures TableConsistent(StartStep(t, streams, sender, id, path, subscription))
  {
    var r := StartStep(t, streams, sender, id, path, subscription);
    if sender.Some? && path in streams {
      var w := sender.value;
      assert forall v, k :: v in r.subs && k in r.subs[v] ==>
        (v == w && k == id && r.subs[v][k] == subscription) || (v in t.subs && k in t.subs[v] && r.subs[v][k] == t.subs[v][k]);
    }
  }

  lemma StopKeepsConsistent(t: TableState, sender: Option<WindowId>, id: string)
    requires TableConsistent(t)
    ensures TableConsistent(StopStep(t, sender, id))
  {
    var r := StopStep(t, sender, id);
    if sender.Some? && id in WindowSubs(t, sender.value) {
      var w := sender.value;
      var token := t.subs[w][id];
      assert forall v, k :: v in r.subs && k in r.subs[v] ==>
        v in t.subs && k in t.subs[v] && r.subs[v][k] == t.subs[v][k] && (v != w || k != id);
      assert forall v, k :: v in r.subs && k in r.subs[v] ==> r.subs[v][k] != token;
      assert forall i :: 0 <= i < |t.released| ==> t.released[i] != token;
    }
  }

  lemma {:induction false} RunKeepsConsistent(t: TableState, streams: set<string>, ops: seq<TableOp>)
    requires TableConsistent(t) && FreshStarts(t, streams, ops)
    ensures TableConsistent(Run(t, streams, ops))
    decreases |ops|
  {
    if ops != [] {
      match ops[0] {
        case StartOp(sender, id, path, subscription) => StartKeepsConsistent(t, streams, sender, id, path, subscription);
        case StopOp(sender, id) => StopKeepsConsistent(t, sender, id);
      }
      RunKeepsConsistent(Apply(t, streams, ops[0]), streams, ops[1..]);
    }
  }

  /** Whatever starts and stops arrive, from whichever windows, as long as
      each start brings its own subscription: no release function is ever
      called twice. */
  lemma ReleasedAtMostOnce(streams: set<string>, ops: seq<TableOp>)
    requires FreshStarts(EMPTY, streams, ops)
    ensures NoDuplicates(Run(EMPTY, streams, ops).released)
  {
    RunKeepsConsistent(EMPTY, streams, ops);
  }
}
