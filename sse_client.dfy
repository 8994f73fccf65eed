/**
 * The client end of the server-sent events channel, `SSEClient` (lib/sse.ts):
 * five listener tables keyed by listener id, the checks a pushed message must
 * pass before the listeners of its event are notified, and `new_connection`,
 * which opens the event source and installs the single current handler.
 * Callbacks are identified by an opaque number; the event source, JSON
 * parsing and uuid generation are parameters.
 */
module SseClient {
  import opened Wrappers
  import opened ClientTypes
  import opened ClientUtils

  /** A registered callback, by identity. */
  type Callback = nat

  /** The events a listener can subscribe to. */
  datatype ListenerEvent = OnPool | OnTransfer | OnLogout | OnError | OnClosed

  /** A message of the event source: its `type`, and its `data` when that is a string. */
  datatype SseMessage = SseMessage(kind: string, data: Option<string>)

  /**
   * What `JSON.parse` makes of a message's data: it throws, or it yields a value
   * with (or without) a `Pool` member holding an object, and with (or without) a
   * `Transfer` member holding an object.
   */
  datatype ParsedPayload = Unparsable | Parsed(pool: Option<PoolReply>, transfer: Option<TransferReply>)

  /** The pool a "pool" message delivers, when every check passes; anything else is dropped silently. */
  function PoolPayload(msg: SseMessage, parse: string -> ParsedPayload): (r: Option<PoolReply>)
    ensures r.Some? <==>
      msg.kind == "pool" && msg.data.Some? && parse(msg.data.value).Parsed? &&
      parse(msg.data.value).pool.Some? && IsDevicesPool(parse(msg.data.value).pool.value)
    ensures r.Some? ==> r == parse(msg.data.value).pool
  {
    if msg.kind != "pool" || msg.data.None? then None
    else match parse(msg.data.value)
      case Unparsable => None
      case Parsed(pool, _) => if pool.Some? && IsDevicesPool(pool.value) then pool else None
  }

  /** The transfer a "transfer" message delivers, when every check passes. */
  function TransferPayload(msg: SseMessage, parse: string -> ParsedPayload): (r: Option<TransferReply>)
    ensures r.Some? <==>
      msg.kind == "transfer" && msg.data.Some? && parse(msg.data.value).Parsed? &&
      parse(msg.data.value).transfer.Some? && IsTransfer(parse(msg.data.value).transfer.value)
    ensures r.Some? ==> r == parse(msg.data.value).transfer
  {
    if msg.kind != "transfer" || msg.data.None? then None
    else match parse(msg.data.value)
      case Unparsable => None
      case Parsed(_, transfer) => if transfer.Some? && IsTransfer(transfer.value) then transfer else None
  }

  /** A "logout" message needs only its type and a string payload. */
  predicate IsLogout(msg: SseMessage) {
    msg.kind == "logout" && msg.data.Some?
  }

  /** A message can pass the check of at most one of the three events. */
  lemma PayloadsExclusive(msg: SseMessage, parse: string -> ParsedPayload)
    ensures PoolPayload(msg, parse).Some? ==> TransferPayload(msg, parse).None? && !IsLogout(msg)
    ensures TransferPayload(msg, parse).Some? ==> PoolPayload(msg, parse).None? && !IsLogout(msg)
  {
  }

  /**
   * A listener object `{ [id]: cb }`: its entries in the order `Object.values`
   * visits them. That is insertion order for keys that are not canonical integer
   * strings, as every uuid is (it holds `-`); integer-like keys would come first,
   * in numeric order, and are not modelled.
   */
  type Listeners = seq<(string, Callback)>

  /** An object holds each key once. */
  predicate UniqueIds(t: Listeners) {
    forall i, j :: 0 <= i < j < |t| ==> t[i].0 != t[j].0
  }

  /** The position of `id` in the object, or -1 when it is absent. */
  function IdIndex(t: Listeners, id: string): (k: int)
    ensures -1 <= k < |t|
    ensures k >= 0 ==> t[k].0 == id && forall j :: 0 <= j < k ==> t[j].0 != id
    ensures k < 0 ==> forall j :: 0 <= j < |t| ==> t[j].0 != id
    decreases |t|
  {
    if |t| == 0 then -1
    else if t[|t| - 1].0 != id then IdIndex(t[..|t| - 1], id)
    else if IdIndex(t[..|t| - 1], id) >= 0 then IdIndex(t[..|t| - 1], id)
    else |t| - 1
  }

  /** `Object.values`: the callbacks in the object's order, one per entry. */
  function Values(t: Listeners): (vs: seq<Callback>)
    ensures |vs| == |t| && forall i :: 0 <= i < |t| ==> vs[i] == t[i].1
  {
    seq(|t|, i requires 0 <= i < |t| => t[i].1)
  }

  /** `listeners[id] = cb`: a new key goes last; a present one keeps its place and takes the new callback. */
  function Put(t: Listeners, id: string, cb: Callback): (r: Listeners)
    ensures IdIndex(t, id) < 0 ==> r == t + [(id, cb)]
    ensures IdIndex(t, id) >= 0 ==> |r| == |t| && r[IdIndex(t, id)] == (id, cb)
    ensures forall j :: 0 <= j < |t| && t[j].0 != id ==> r[j] == t[j]
    ensures UniqueIds(t) ==> UniqueIds(r)
  {
    var k := IdIndex(t, id);
    if k < 0 then t + [(id, cb)] else t[k := (id, cb)]
  }

  /** `delete listeners[id]`: every entry under `id` dropped, the others kept in order. */
  function Remove(t: Listeners, id: string): (r: Listeners)
    ensures forall e :: e in r <==> e in t && e.0 != id
    ensures |r| <= |t|
    ensures UniqueIds(t) ==> UniqueIds(r)
    decreases |t|
  {
    if |t| == 0 then []
    else
      var rest := Remove(t[1..], id);
      assert forall e :: e in t[1..] ==> e in t;
      if t[0].0 == id then rest else [t[0]] + rest
  }

  /** Removing an id that was never added leaves the object as it was. */
  lemma {:induction false} RemoveAbsent(t: Listeners, id: string)
    requires IdIndex(t, id) < 0
    ensures Remove(t, id) == t
    decreases |t|
  {
    if |t| > 0 {
      assert IdIndex(t[1..], id) < 0 by {
        forall j | 0 <= j < |t[1..]| ensures t[1..][j].0 != id {
          assert t[1..][j] == t[j + 1];
        }
      }
      RemoveAbsent(t[1..], id);
      assert t == [t[0]] + t[1..];
    }
  }

  /**
   * A listener added under a new id is called after every earlier one, and
   * removing it restores the object exactly.
   */
  lemma AddThenRemove(t: Listeners, id: string, cb: Callback)
    requires IdIndex(t, id) < 0
    ensures Values(Put(t, id, cb)) == Values(t) + [cb]
    ensures Remove(Put(t, id, cb), id) == t
  {
    RemoveAppended(t, id, cb);
    RemoveAbsent(t, id);
  }

  /** Removing `id` from `t + [(id, cb)]` is removing it from `t`. */
  lemma {:induction false} RemoveAppended(t: Listeners, id: string, cb: Callback)
    ensures Remove(t + [(id, cb)], id) == Remove(t, id)
    decreases |t|
  {
    if |t| == 0 {
      assert Remove([(id, cb)], id) == Remove([(id, cb)][1..], id);
    } else {
      assert (t + [(id, cb)])[1..] == t[1..] + [(id, cb)];
      RemoveAppended(t[1..], id, cb);
    }
  }

  /** One callback registered under two new ids is called twice, as separate entries. */
  lemma CalledOncePerRegistration(t: Listeners, id1: string, id2: string, cb: Callback)
    requires IdIndex(t, id1) < 0 && IdIndex(t, id2) < 0 && id1 != id2
    ensures Values(Put(Put(t, id1, cb), id2, cb)) == Values(t) + [cb, cb]
    ensures multiset(Values(Put(Put(t, id1, cb), id2, cb)))[cb] == multiset(Values(t))[cb] + 2
  {
    var t1 := Put(t, id1, cb);
    assert t1 == t + [(id1, cb)];
    assert IdIndex(t1, id2) < 0 by {
      forall j | 0 <= j < |t1| ensures t1[j].0 != id2 {
        if j < |t| { assert t1[j] == t[j]; }
      }
    }
    var t2 := Put(t1, id2, cb);
    assert t2 == t1 + [(id2, cb)];
    var vs := Values(t2);
    assert vs == Values(t) + [cb, cb] by {
      assert |vs| == |Values(t) + [cb, cb]|;
      forall i | 0 <= i < |vs| ensures vs[i] == (Values(t) + [cb, cb])[i] {
        if i < |t| { assert t2[i] == t[i]; }
      }
    }
    assert multiset(vs) == multiset(Values(t)) + multiset{cb, cb};
  }

  /** The event source; only whether it is still open matters here. */
  class EventSource {
    /** `${SERVER_BASE_URL}/events?device_id=${device_id}`. */
    const url: string
    /** The `Authorization` header: the key phrase. */
    const authorization: string
    var open: bool

    constructor(url: string, authorization: string)
      ensures this.url == url && this.authorization == authorization && open
    {
      this.url := url;
      this.authorization := authorization;
      open := true;
    }

    method Close()
      modifies this
      ensures !open
    {
      open := false;
    }
  }

  class SSEClient {
    var poolListeners: Listeners
    var transferListeners: Listeners
    var logoutListeners: Listeners
    var errorListeners: Listeners
    var closeListeners: Listeners
    const connection: EventSource
    /** `JSON.parse` applied to a message's data. */
    const parse: string -> ParsedPayload

    constructor(connection: EventSource, parse: string -> ParsedPayload)
      ensures this.connection == connection && this.parse == parse
      ensures poolListeners == [] && transferListeners == [] && logoutListeners == []
      ensures errorListeners == [] && closeListeners == []
    {
      this.connection := connection;
      this.parse := parse;
      poolListeners := [];
      transferListeners := [];
      logoutListeners := [];
      errorListeners := [];
      closeListeners := [];
    }

    /** The table of one event. */
    function Table(event: ListenerEvent): Listeners
      reads this
    {
      match event
      case OnPool => poolListeners
      case OnTransfer => transferListeners
      case OnLogout => logoutListeners
      case OnError => errorListeners
      case OnClosed => closeListeners
    }

    /**
     * `addEventListener`: the callback stored under the generated id in its
     * event's table only. The id is a uuid, so never integer-like, and `Put`'s
     * "a new key goes last" is JavaScript's property order for it.
     */
    method AddEventListener(event: ListenerEvent, cb: Callback, generatedId: string) returns (id: string)
      modifies this
      ensures id == generatedId
      ensures Table(event) == Put(old(Table(event)), id, cb)
      ensures forall e :: e != event ==> Table(e) == old(Table(e))
    {
      id := generatedId;
      match event {
        case OnPool => poolListeners := Put(poolListeners, id, cb);
        case OnTransfer => transferListeners := Put(transferListeners, id, cb);
        case OnLogout => logoutListeners := Put(logoutListeners, id, cb);
        case OnClosed => closeListeners := Put(closeListeners, id, cb);
        case OnError => errorListeners := Put(errorListeners, id, cb);
      }
    }

    /** `removeEventListener`: that id dropped from that event's table; everything else unchanged. */
    method RemoveEventListener(event: ListenerEvent, id: string)
      modifies this
      ensures Table(event) == Remove(old(Table(event)), id)
      ensures forall e :: e != event ==> Table(e) == old(Table(e))
    {
      match event {
        case OnPool => poolListeners := Remove(poolListeners, id);
        case OnTransfer => transferListeners := Remove(transferListeners, id);
        case OnLogout => logoutListeners := Remove(logoutListeners, id);
        case OnClosed => closeListeners := Remove(closeListeners, id);
        case OnError => errorListeners := Remove(errorListeners, id);
      }
    }

    /** A "pool" message: every pool listener receives the pool, in the object's order, or none is called. */
    method OnPoolMessage(msg: SseMessage) returns (called: seq<Callback>, pool: Option<PoolReply>)
      ensures pool == PoolPayload(msg, parse)
      ensures called == (if pool.Some? then Values(poolListeners) else [])
    {
      pool := PoolPayload(msg, parse);
      called := if pool.Some? then Values(poolListeners) else [];
    }

    /** A "transfer" message: every transfer listener receives the transfer, or none is called. */
    method OnTransferMessage(msg: SseMessage) returns (called: seq<Callback>, transfer: Option<TransferReply>)
      ensures transfer == TransferPayload(msg, parse)
      ensures called == (if transfer.Some? then Values(transferListeners) else [])
    {
      transfer := TransferPayload(msg, parse);
      called := if transfer.Some? then Values(transferListeners) else [];
    }

    /** A "logout" message: every logout listener is called, or none. */
    method OnLogoutMessage(msg: SseMessage) returns (called: seq<Callback>)
      ensures called == (if IsLogout(msg) then Values(logoutListeners) else [])
    {
      called := if IsLogout(msg) then Values(logoutListeners) else [];
    }

    /** The "close" event: every close listener is called. */
    method OnCloseEvent() returns (called: seq<Callback>)
      ensures called == Values(closeListeners)
    {
      called := Values(closeListeners);
    }

    /** The "error" event: the connection is closed first, then every error listener is called. */
    method OnErrorEvent() returns (called: seq<Callback>)
      modifies connection
      ensures !connection.open && called == Values(errorListeners)
    {
      connection.Close();
      called := Values(errorListeners);
    }
  }

  /** The static `#_handler` slot: the one current client. */
  class HandlerSlot {
    var handler: SSEClient?

    constructor()
      ensures handler == null
    {
      handler := null;
    }
  }

  /** Which of the three happens first once the event source exists: "open", "error", or the 5 s timer. */
  datatype ConnectOutcome = Opened | ConnectError | TimedOut

  /** The reason `new_connection` gives for each failed outcome. */
  function ConnectReason(outcome: ConnectOutcome): (r: Option<string>)
    ensures r.None? <==> outcome.Opened?
    ensures outcome.ConnectError? ==> r == Some("failed to connect")
    ensures outcome.TimedOut? ==> r == Some("timeout")
  {
    match outcome
    case Opened => None
    case ConnectError => Some("failed to connect")
    case TimedOut => Some("timeout")
  }

  /** The arguments `new_connection` accepts before it opens anything. */
  predicate ConnectArgsOk(deviceId: string, keyPhrase: string) {
    !IsEmptyString(deviceId) && IsCodeOk(keyPhrase)
  }

  /**
   * `new_connection`: bad arguments fail without an event source; a failed
   * outcome closes the new event source; success installs a new handler as the
   * single current one.
   */
  method NewConnection(slot: HandlerSlot, baseUrl: string, deviceId: string, keyPhrase: string,
                       outcome: ConnectOutcome, parse: string -> ParsedPayload)
    returns (r: FunctionResult<SSEClient>, source: EventSource?)
    modifies slot
    ensures !ConnectArgsOk(deviceId, keyPhrase) ==>
      r == FunctionResult(false, None, None) && source == null && slot.handler == old(slot.handler)
    ensures ConnectArgsOk(deviceId, keyPhrase) ==>
      source != null && fresh(source) && source.url == baseUrl + "/events?device_id=" + deviceId &&
      source.authorization == keyPhrase
    ensures ConnectArgsOk(deviceId, keyPhrase) && !outcome.Opened? ==>
      r == FunctionResult(false, None, ConnectReason(outcome)) && !source.open && slot.handler == old(slot.handler)
    ensures ConnectArgsOk(deviceId, keyPhrase) && outcome.Opened? ==>
      r.succeed && r.data.Some? && r.reason.None? && slot.handler == r.data.value && fresh(r.data.value) &&
      r.data.value.connection == source && source.open && r.data.value.parse == parse &&
      r.data.value.poolListeners == [] && r.data.value.transferListeners == [] &&
      r.data.value.logoutListeners == [] && r.data.value.errorListeners == [] && r.data.value.closeListeners == []
  {
    if !ConnectArgsOk(deviceId, keyPhrase) {
      return FunctionResult(false, None, None), null;
    }
    source := new EventSource(baseUrl + "/events?device_id=" + deviceId, keyPhrase);
    if !outcome.Opened? {
      source.Close();
      return FunctionResult(false, None, ConnectReason(outcome)), source;
    }
    var handler := new SSEClient(source, parse);
    slot.handler := handler;
    r := FunctionResult(true, Some(handler), None);
  }
}
