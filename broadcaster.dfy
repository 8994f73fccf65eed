/**
 * The server-sent events hub (apps/ilix-server/src/utils/sse.rs): how each
 * message becomes an event, and the broadcaster's list of connected clients,
 * each identified by a hash of its device id and its pool's hashed key phrase.
 * Channels are identified by an opaque number; whether a send reaches its
 * client, JSON serialisation and the hashes are parameters. The mutex and the
 * 30-second ping task are left to the caller: each operation runs on its own.
 */
module Broadcasting {
  import opened Wrappers
  import opened Errors
  import opened KeyPhrases

  /** A pool as the database stores it. */
  datatype DevicesPool = DevicesPool(poolName: string, devicesId: seq<string>, hashedKeyPhrase: string)

  /** A transfer with its id in text form. */
  datatype FilePoolTransferExt = FilePoolTransferExt(id: string, poolHashedKeyPhrase: string, to: string, from: string,
                                                     filesId: seq<string>)

  /** What can be pushed to the devices of a pool. */
  datatype SSEData = Pool(pool: DevicesPool) | Transfer(transfer: FilePoolTransferExt) | Logout

  datatype BroadcastMessage = Ping | Connected | Data(data: SSEData)

  /** An event on the wire: a comment, or a named event with its data. */
  datatype Event = Comment(text: string) | Message(name: string, data: string)

  const STRINGIFY_FAILED := "Failed to stringify message"

  /** The event name of each kind of data, as the client listens for it. */
  function EventName(d: SSEData): (name: string)
    ensures d.Pool? <==> name == "pool"
    ensures d.Transfer? <==> name == "transfer"
    ensures d.Logout? <==> name == "logout"
  {
    match d
    case Pool(_) => "pool"
    case Transfer(_) => "transfer"
    case Logout => "logout"
  }

  /**
   * `From<BroadcastMessage> for Event`: a ping is a comment; a connection is
   * announced as "connected"; data goes under its own name, as JSON or, when
   * that fails, as a fixed text.
   */
  function ToEvent(msg: BroadcastMessage, toJson: SSEData -> Option<string>): (e: Event)
    ensures msg.Ping? <==> e.Comment?
    ensures msg.Ping? ==> e == Comment("Ping")
    ensures msg.Connected? ==> e == Message("connected", "client connected")
    ensures msg.Data? ==> e == Message(EventName(msg.data), toJson(msg.data).GetOr(STRINGIFY_FAILED))
  {
    match msg
    case Ping => Comment("Ping")
    case Connected => Message("connected", "client connected")
    case Data(data) => Message(EventName(data), toJson(data).GetOr(STRINGIFY_FAILED))
  }

  /** A channel's sending end, by identity. */
  type Sender = nat

  /** `make_client_id`: the hash of `<device id>:<hashed key phrase>`, or the key phrase hash's failure. */
  function ClientId(deviceId: string, kp: KeyPhrase, env: Option<string>, sha: string -> string): Result<string, HashFailure> {
    match HashOf(kp, env, sha)
    case Err(f) => Err(f)
    case Ok(h) => Ok(sha(deviceId + ":" + h))
  }

  /**
   * Two devices of one pool get the same channel id only through a collision of
   * the hash: the texts hashed for them differ, yet hash alike.
   */
  lemma SharedIdIsCollision(d1: string, d2: string, kp: KeyPhrase, env: Option<string>, sha: string -> string)
    requires d1 != d2 && HashOf(kp, env, sha).Ok?
    ensures var h := HashOf(kp, env, sha).value;
      ClientId(d1, kp, env, sha) == ClientId(d2, kp, env, sha) ==>
        d1 + ":" + h != d2 + ":" + h && sha(d1 + ":" + h) == sha(d2 + ":" + h)
  {
    var h := HashOf(kp, env, sha).value;
    if |d1| == |d2| {
      // same length: the texts differ within their device-id prefixes
      assert (d1 + ":" + h)[..|d1|] == d1;
      assert (d2 + ":" + h)[..|d2|] == d2;
    }
  }

  /** The ids of the devices that could be hashed, in order (`filter_map` of `make_client_id`). */
  function TargetIds(deviceIds: seq<string>, kp: KeyPhrase, env: Option<string>, sha: string -> string): (ids: seq<string>)
    ensures |ids| <= |deviceIds|
    ensures HashOf(kp, env, sha).Err? ==> ids == []
    ensures HashOf(kp, env, sha).Ok? ==>
      (|ids| == |deviceIds| && forall i :: 0 <= i < |ids| ==> ids[i] == ClientId(deviceIds[i], kp, env, sha).value)
    decreases |deviceIds|
  {
    if |deviceIds| == 0 then []
    else
      var rest := TargetIds(deviceIds[1..], kp, env, sha);
      match ClientId(deviceIds[0], kp, env, sha)
      case Ok(id) => [id] + rest
      case Err(_) => rest
  }

  /** The senders of the clients whose id is a target, in the clients' order. */
  function Recipients(clients: seq<(string, Sender)>, targets: seq<string>): (rs: seq<Sender>)
    ensures |rs| <= |clients|
    ensures forall s :: s in rs <==> exists i :: 0 <= i < |clients| && clients[i].1 == s && clients[i].0 in targets
    decreases |clients|
  {
    if |clients| == 0 then []
    else
      var rest := Recipients(clients[1..], targets);
      assert forall i :: 0 <= i < |clients[1..]| ==> clients[1..][i] == clients[i + 1];
      if clients[0].0 in targets then [clients[0].1] + rest else rest
  }

  /** The clients whose ping went through, in their order. */
  function Alive(clients: seq<(string, Sender)>, pingOk: Sender -> bool): (alive: seq<(string, Sender)>)
    ensures |alive| <= |clients|
    ensures forall c :: c in alive ==> c in clients && pingOk(c.1)
    decreases |clients|
  {
    if |clients| == 0 then []
    else
      var rest := Alive(clients[..|clients| - 1], pingOk);
      var last := clients[|clients| - 1];
      if pingOk(last.1) then rest + [last] else rest
  }

  /** The fold over a prefix one client longer. */
  lemma AliveStep(clients: seq<(string, Sender)>, i: nat, pingOk: Sender -> bool)
    requires i < |clients|
    ensures Alive(clients[..i + 1], pingOk) ==
            if pingOk(clients[i].1) then Alive(clients[..i], pingOk) + [clients[i]] else Alive(clients[..i], pingOk)
  {
    assert clients[..i + 1][..i] == clients[..i];
  }

  /** Every responsive client is kept. */
  lemma {:induction false} AliveKeepsResponsive(clients: seq<(string, Sender)>, pingOk: Sender -> bool, i: nat)
    requires i < |clients| && pingOk(clients[i].1)
    ensures clients[i] in Alive(clients, pingOk)
    decreases |clients|
  {
    if i < |clients| - 1 {
      AliveKeepsResponsive(clients[..|clients| - 1], pingOk, i);
    }
  }

  /** Filtering two runs of clients is filtering each: the order is kept. */
  lemma {:induction false} AliveAppend(a: seq<(string, Sender)>, b: seq<(string, Sender)>, pingOk: Sender -> bool)
    ensures Alive(a + b, pingOk) == Alive(a, pingOk) + Alive(b, pingOk)
    decreases |b|
  {
    if |b| == 0 {
      assert a + b == a;
    } else {
      assert (a + b)[..|a + b| - 1] == a + b[..|b| - 1];
      AliveAppend(a, b[..|b| - 1], pingOk);
    }
  }

  /** A second filtering with the same answers removes nothing more. */
  lemma {:induction false} AliveIdempotent(clients: seq<(string, Sender)>, pingOk: Sender -> bool)
    ensures Alive(Alive(clients, pingOk), pingOk) == Alive(clients, pingOk)
    decreases |clients|
  {
    if |clients| > 0 {
      var init := clients[..|clients| - 1];
      var last := clients[|clients| - 1];
      AliveIdempotent(init, pingOk);
      if pingOk(last.1) {
        AliveAppend(Alive(init, pingOk), [last], pingOk);
        assert Alive([last], pingOk) == Alive([], pingOk) + [last];
      }
    }
  }

  /** The event every new channel receives first. */
  const CONNECTED_EVENT := Message("connected", "client connected")

  class Broadcaster {
    /** The registered clients: (client id, channel), oldest first. */
    var clients: seq<(string, Sender)>

    constructor()
      ensures clients == []
    {
      clients := [];
    }

    /**
     * `new_client`: the new channel is told it is connected, then registered at
     * the end of the list under its client id; when the id cannot be computed
     * nothing is registered.
     */
    method NewClient(deviceId: string, kp: KeyPhrase, env: Option<string>, sha: string -> string, tx: Sender)
      returns (r: Result<Sender, HashFailure>, first: Event)
      modifies this
      ensures first == CONNECTED_EVENT && first == ToEvent(Connected, _ => None)
      ensures ClientId(deviceId, kp, env, sha).Ok? ==>
        r == Ok(tx) && clients == old(clients) + [(ClientId(deviceId, kp, env, sha).value, tx)]
      ensures ClientId(deviceId, kp, env, sha).Err? ==>
        r == Err(ClientId(deviceId, kp, env, sha).error) && clients == old(clients)
    {
      first := ToEvent(Connected, _ => None);
      match ClientId(deviceId, kp, env, sha) {
        case Err(f) =>
          r := Err(f);
        case Ok(id) =>
          clients := clients + [(id, tx)];
          r := Ok(tx);
      }
    }

    /**
     * `broadcast_to`: `HashError` before anything is sent when a target cannot
     * be hashed; otherwise the message goes to every matching client, and any
     * failed send makes the result `SseFailedToSend`. Returns the result and the
     * channels sent to.
     */
    function BroadcastTo(deviceIds: seq<string>, kp: KeyPhrase, env: Option<string>, sha: string -> string,
                         delivered: Sender -> bool): (res: (Result<(), ServerError>, seq<Sender>))
      reads this
      ensures |deviceIds| > 0 && HashOf(kp, env, sha).Err? ==> res == (Err(HashError), [])
      ensures !(|deviceIds| > 0 && HashOf(kp, env, sha).Err?) ==>
        res.1 == Recipients(clients, TargetIds(deviceIds, kp, env, sha)) &&
        (res.0 == Ok(()) <==> forall s :: s in res.1 ==> delivered(s)) &&
        (res.0.Err? ==> res.0.error == SseFailedToSend)
    {
      var toClientsIds := TargetIds(deviceIds, kp, env, sha);
      if |toClientsIds| != |deviceIds| then (Err(HashError), [])
      else
        var sent := Recipients(clients, toClientsIds);
        if exists s :: s in sent && !delivered(s) then (Err(SseFailedToSend), sent) else (Ok(()), sent)
    }

    /**
     * `remove_stale_clients`: every client of a snapshot is pinged, and the list
     * becomes the clients whose ping went through. Returns the channels pinged.
     */
    method RemoveStaleClients(pingOk: Sender -> bool) returns (pinged: seq<Sender>)
      modifies this
      ensures clients == Alive(old(clients), pingOk)
      ensures |pinged| == |old(clients)| && forall i :: 0 <= i < |pinged| ==> pinged[i] == old(clients)[i].1
    {
      var okClients;
      okClients, pinged := PingAll(clients, pingOk);
      clients := okClients;
    }
  }

  /** The ping sweep over a snapshot: every channel is pinged, in order, and the responsive clients are kept. */
  method PingAll(snapshot: seq<(string, Sender)>, pingOk: Sender -> bool) returns (okClients: seq<(string, Sender)>, pinged: seq<Sender>)
    ensures okClients == Alive(snapshot, pingOk)
    ensures |pinged| == |snapshot| && forall i :: 0 <= i < |pinged| ==> pinged[i] == snapshot[i].1
  {
    okClients := [];
    pinged := [];
    var i := 0;
    while i < |snapshot|
      invariant 0 <= i <= |snapshot|
      invariant okClients == Alive(snapshot[..i], pingOk)
      invariant |pinged| == i && forall k :: 0 <= k < i ==> pinged[k] == snapshot[k].1
    {
      AliveStep(snapshot, i, pingOk);
      pinged := pinged + [snapshot[i].1];
      if pingOk(snapshot[i].1) {
        okClients := okClients + [snapshot[i]];
      }
      i := i + 1;
    }
    assert snapshot[..|snapshot|] == snapshot;
  }

  /** A client only hears a broadcast meant for its own device id in its own pool. */
  lemma BroadcastReachesTargetsOnly(b: Broadcaster, deviceIds: seq<string>, kp: KeyPhrase, env: Option<string>,
                                    sha: string -> string, delivered: Sender -> bool, s: Sender)
    requires s in b.BroadcastTo(deviceIds, kp, env, sha, delivered).1
    ensures HashOf(kp, env, sha).Ok?
    ensures exists i, j :: 0 <= i < |b.clients| && 0 <= j < |deviceIds| && b.clients[i].1 == s &&
                           b.clients[i].0 == sha(deviceIds[j] + ":" + HashOf(kp, env, sha).value)
  {
    var targets := TargetIds(deviceIds, kp, env, sha);
    var i :| 0 <= i < |b.clients| && b.clients[i].1 == s && b.clients[i].0 in targets;
    var j :| 0 <= j < |targets| && targets[j] == b.clients[i].0;
    assert b.clients[i].0 == sha(deviceIds[j] + ":" + HashOf(kp, env, sha).value);
  }
}
