/**
 * The main-process side of the bridge (mainHandler.ts): the serialisation
 * rule for results, the input-parsing rule, the `trpc` call handler, and
 * the subscription table `subs` (window id -> subscription id -> release
 * function) kept by the `trpc:sub:start` and `trpc:sub:stop` handlers.
 *
 * `JSON.stringify` and `JSON.parse` are not modelled: they are passed in as
 * functions. A release function is an opaque token naming the subscription
 * whose `unsubscribe()` it calls; calling it appends the token to a log.
 * Each handler runs as one atomic step.
 */
module MainHandler {
  import opened JsValues

  /** `webContents.id` of the window that sent a message. */
  type WindowId = int

  /** The subscription object whose `unsubscribe()` a release function calls. */
  type ReleaseToken = nat

  // ---------------------------------------------------------------------
  // serializeData and the input rule
  // ---------------------------------------------------------------------

  /** `JSON.stringify(v)`: `undefined` has no JSON text; every other value
      has the text the (unmodelled) `stringify` gives it. */
  function JsonStringify(v: Value, stringify: Value -> string): (r: Option<string>)
    ensures r.None? <==> v == Undefined
    ensures r.Some? ==> r.value == stringify(v)
  {
    if v == Undefined then None else Some(stringify(v))
  }

  /** `serializeData`: `undefined` is "no payload"; a promise is awaited and
      its value stringified; any other value is stringified directly. */
  function SerializeData(result: Value, stringify: Value -> string): (r: Completion<Option<string>>)
    ensures result == Undefined ==> r == Normal(None)
    ensures r == Normal(None) <==> Await(result) == Normal(Undefined)
    ensures r.Throw? <==> Await(result).Throw?
    ensures r.Throw? ==> r == Throw(Await(result).exception)
    ensures r.Normal? && r.value.Some? ==> r.value.value == stringify(Await(result).value)
  {
    if result == Undefined then Normal(None)
    else if IsPromise(result) then
      match Await(result)
      case Throw(e) => Throw(e)
      case Normal(awaited) => Normal(JsonStringify(awaited, stringify))
    else Normal(JsonStringify(result, stringify))
  }

  /** The input rule of both handlers: the `input` field is JSON-parsed only
      when it is truthy; otherwise the procedure receives `undefined`. */
  function ParseInput(input: Value, parse: Value -> Value): (r: Value)
    ensures Truthy(input) ==> r == parse(input)
    ensures input in FALSY ==> r == Undefined
  {
    if Truthy(input) then parse(input) else Undefined
  }

  /** The `trpc` handler: parse the input, call the procedure at `path`,
      serialise what it returns. A path the router does not have fails. */
  function HandleCall(procedures: map<string, Value -> Value>, path: string, input: Value,
                      parse: Value -> Value, stringify: Value -> string): (r: Completion<Option<string>>)
    ensures path !in procedures ==> r == Throw(NoSuchProcedure(path))
    ensures path in procedures ==>
      (r == Normal(None) <==> Await(procedures[path](ParseInput(input, parse))) == Normal(Undefined))
  {
    if path !in procedures then Throw(NoSuchProcedure(path))
    else SerializeData(procedures[path](ParseInput(input, parse)), stringify)
  }

  // ---------------------------------------------------------------------
  // The subscription table: specification of the two handlers
  // ---------------------------------------------------------------------

  /** The table and the log of release functions called so far. */
  datatype TableState = TableState(subs: map<WindowId, map<string, ReleaseToken>>, released: seq<ReleaseToken>)

  const EMPTY: TableState := TableState(map[], [])

  /** The window's inner map, or the empty map when it has none. */
  function WindowSubs(t: TableState, w: WindowId): map<string, ReleaseToken> {
    if w in t.subs then t.subs[w] else map[]
  }

  /** `trpc:sub:start`: without a sender nothing happens; when `path` does
      not yield a subscribable stream the handler throws before touching
      the table; otherwise the window's inner map is created if missing and
      the new subscription's release function is stored under `id`,
      replacing any earlier one. */
  function StartStep(t: TableState, streams: set<string>, sender: Option<WindowId>, id: string, path: string,
                     subscription: ReleaseToken): (r: TableState)
    ensures r.released == t.released
    ensures sender.None? || path !in streams ==> r == t
    ensures sender.Some? && path in streams ==>
      var w := sender.value;
      && r.subs.Keys == t.subs.Keys + {w}
      && WindowSubs(r, w) == WindowSubs(t, w)[id := subscription]
      && (forall v :: v != w ==> WindowSubs(r, v) == WindowSubs(t, v))
  {
    if sender.None? || path !in streams then t
    else
      var w := sender.value;
      TableState(t.subs[w := WindowSubs(t, w)[id := subscription]], t.released)
  }

  /** `trpc:sub:stop`: without a sender nothing happens; otherwise the
      release function stored under (window, id), if any, is called and the
      entry deleted; when there is none the table is left as it is. */
  function StopStep(t: TableState, sender: Option<WindowId>, id: string): (r: TableState)
    ensures sender.None? || id !in WindowSubs(t, sender.value) ==> r == t
    ensures sender.Some? && id in WindowSubs(t, sender.value) ==>
      var w := sender.value;
      && r.released == t.released + [t.subs[w][id]]
      && r.subs.Keys == t.subs.Keys
      && WindowSubs(r, w) == WindowSubs(t, w) - {id}
      && (forall v :: v != w ==> WindowSubs(r, v) == WindowSubs(t, v))
  {
    if sender.None? then t
    else
      var w := sender.value;
      if w !in t.subs then t
      else
        var winSubs := t.subs[w];
        var released := if id in winSubs then t.released + [winSubs[id]] else t.released;
        assert id !in winSubs ==> winSubs - {id} == winSubs;
        TableState(t.subs[w := winSubs - {id}], released)
  }

  // ---------------------------------------------------------------------
  // Messages sent back to the window
  // ---------------------------------------------------------------------

  /** A `webContents.send` of one of the three subscription channels. */
  datatype SubMessage =
    | DataMessage(id: string, data: Option<string>)   // "trpc:sub:data" { id, data }
    | ErrorMessage(id: string, message: Value)        // "trpc:sub:error" { id, error: error.message }
    | CompleteMessage(id: string)                     // "trpc:sub:complete" { id }

  /** `error.message`: reading a property of `undefined` or `null` throws. */
  function MessageOf(error: Value): (r: Completion<Value>)
    ensures r.Throw? <==> error == Undefined || error == Null
    ensures error.Obj? && "message" in error.fields ==> r == Normal(error.fields["message"])
    ensures r.Normal? && !(error.Obj? && "message" in error.fields) ==> r == Normal(Undefined)
  {
    match error
    case Undefined => Throw(TypeError)
    case Null => Throw(TypeError)
    case Obj(fields) => Normal(if "message" in fields then fields["message"] else Undefined)
    case _ => Normal(Undefined)
  }

  /** The stream's `next`: the data is serialised (awaiting it if it is a
      promise) and sent with the subscription's id; if that throws, the
      async callback rejects and nothing is sent. */
  function DataSend(id: string, data: Value, stringify: Value -> string): (r: Option<SubMessage>)
    ensures r.None? <==> Await(data).Throw?
    ensures r.Some? ==> r.value.DataMessage? && r.value.id == id
    ensures r.Some? ==> (r.value.data.None? <==> Await(data) == Normal(Undefined))
    ensures r.Some? ==> r.value.data == SerializeData(data, stringify).value
  {
    match SerializeData(data, stringify)
    case Normal(payload) => Some(DataMessage(id, payload))
    case Throw(_) => None
  }

  /** The stream's `error`: only the error's message is sent, with the id. */
  function ErrorSend(id: string, error: Value): (r: Option<SubMessage>)
    ensures r.None? <==> error == Undefined || error == Null
    ensures r.Some? ==> r.value == ErrorMessage(id, MessageOf(error).value)
  {
    match MessageOf(error)
    case Normal(message) => Some(ErrorMessage(id, message))
    case Throw(_) => None
  }

  function MessageId(m: SubMessage): string {
    match m
    case DataMessage(id, _) => id
    case ErrorMessage(id, _) => id
    case CompleteMessage(id) => id
  }

  // ---------------------------------------------------------------------
  // The handlers over the module-level table
  // ---------------------------------------------------------------------

  datatype StartOutcome = NoSender | Threw | Subscribed(procedureInput: Value)

  /** The module-level `subs` table with the two handlers, the callbacks of
      the streams they subscribe to, and the sends those callbacks make. */
  class SubscriptionTable {
    /** The paths whose procedure yields an observable. */
    const streams: set<string>
    var subs: map<WindowId, map<string, ReleaseToken>>
    var released: seq<ReleaseToken>
    var outbox: seq<(WindowId, SubMessage)>

    function State(): TableState
      reads this
    {
      TableState(subs, released)
    }

    constructor (streams: set<string>)
      ensures this.streams == streams && State() == EMPTY && outbox == []
    {
      this.streams := streams;
      subs := map[];
      released := [];
      outbox := [];
    }

    /** `trpc:sub:start`. `subscription` is the object `observable.subscribe`
        returns, whose `unsubscribe` the stored release function calls. */
    method Start(sender: Option<WindowId>, id: string, path: string, input: Value,
                 parse: Value -> Value, subscription: ReleaseToken) returns (outcome: StartOutcome)
      modifies this`subs
      ensures State() == StartStep(old(State()), streams, sender, id, path, subscription)
      ensures outcome.NoSender? <==> sender.None?
      ensures outcome.Threw? <==> sender.Some? && path !in streams
      ensures outcome.Subscribed? ==> outcome.procedureInput == ParseInput(input, parse)
    {
      var parsedInput := Undefined;
      if Truthy(input) {
        parsedInput := parse(input);
      }
      if sender.None? {
        return NoSender;
      }
      var w := sender.value;
      if path !in streams {
        return Threw;
      }
      var winSubs: map<string, ReleaseToken>;
      if w in subs {
        winSubs := subs[w];
      } else {
        winSubs := map[];
        subs := subs[w := winSubs];
      }
      winSubs := winSubs[id := subscription];
      subs := subs[w := winSubs];
      return Subscribed(parsedInput);
    }

    /** `trpc:sub:stop`. */
    method Stop(sender: Option<WindowId>, id: string)
      modifies this`subs, this`released
      ensures State() == StopStep(old(State()), sender, id)
    {
      if sender.None? {
        return;
      }
      var w := sender.value;
      if w in subs && id in subs[w] {
        released := released + [subs[w][id]];
      }
      if w in subs {
        subs := subs[w := subs[w] - {id}];
      }
    }

    /** The stream's `next` callback for the subscription (w, id). */
    method EmitData(w: WindowId, id: string, data: Value, stringify: Value -> string)
      modifies this`outbox
      ensures State() == old(State())
      ensures outbox == old(outbox) + match DataSend(id, data, stringify)
                                      case Some(m) => [(w, m)]
                                      case None => []
    {
      var serialized := SerializeData(data, stringify);
      if serialized.Normal? {
        outbox := outbox + [(w, DataMessage(id, serialized.value))];
      }
    }

    /** The stream's `error` callback: the table entry is left in place. */
    method EmitError(w: WindowId, id: string, error: Value)
      modifies this`outbox
      ensures State() == old(State())
      ensures outbox == old(outbox) + match ErrorSend(id, error)
                                      case Some(m) => [(w, m)]
                                      case None => []
    {
      var message := MessageOf(error);
      if message.Normal? {
        outbox := outbox + [(w, ErrorMessage(id, message.value))];
      }
    }

    /** The stream's `complete` callback: the table entry is left in place. */
    method EmitComplete(w: WindowId, id: string)
      modifies this`outbox
      ensures State() == old(State())
      ensures outbox == old(outbox) + [(w, CompleteMessage(id))]
    {
      outbox := outbox + [(w, CompleteMessage(id))];
    }
  }
}
