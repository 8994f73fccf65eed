/**
 * How the two halves meet: the server's envelope as the client's
 * `HandleRequest` reads it, the server's events as the client's event
 * handlers filter them, the server's pool record as the client's pool checks
 * read it, and the client's form checks against the server's.
 */
module Protocol {
  import opened Wrappers
  import opened Strings
  import opened ClientTypes
  import ClientUtils
  import ApiClient
  import SseClient
  import NewPoolScreen
  import PoolLogic
  import JoinScreens
  import opened Responses
  import opened Broadcasting
  import PoolService

  /** The envelope as the client's JSON parser sees it: every member present, `data` a string when sent. */
  function AsBody(p: ResponsePayload): (b: ApiClient.RespBody)
    ensures b.Body? && b.success == Some(p.success) && b.statusCode == Some(p.statusCode) && b.reason == p.reason
    ensures b.data.DataText? <==> p.data.Some?
    ensures p.data.Some? ==> b.data.text == p.data.value
  {
    ApiClient.Body(Some(p.success), Some(p.statusCode),
                   if p.data.Some? then ApiClient.DataText(p.data.value) else ApiClient.NoData, p.reason)
  }

  /** A refusal reaches the client as a failure with the server's reason, whatever the client's flags. */
  lemma RefusalReachesClient<T>(status: Option<int>, reason: string, parse: string -> Option<T>, isNoBodyOk: bool, isNoDataOk: bool)
    ensures var p := NewPayload(false, None, status, Some(reason));
      ApiClient.HandleRequest(ApiClient.Received(AsBody(p)), parse, isNoBodyOk, isNoDataOk) == FunctionResult(false, None, Some(reason))
  {
  }

  /** A success whose data the client can parse reaches it as that value, with no reason. */
  lemma AnswerReachesClient<T>(json: string, parse: string -> Option<T>, isNoBodyOk: bool, isNoDataOk: bool)
    requires parse(json).Some?
    ensures var p := NewPayload(true, Some(json), None, None);
      ApiClient.HandleRequest(ApiClient.Received(AsBody(p)), parse, isNoBodyOk, isNoDataOk) == FunctionResult(true, parse(json), None)
  {
  }

  /** A success whose data the client cannot parse is a success only for a caller that accepts no data. */
  lemma UnparsableAnswer<T>(json: string, parse: string -> Option<T>, isNoBodyOk: bool, isNoDataOk: bool)
    requires parse(json).None?
    ensures var p := NewPayload(true, Some(json), None, None);
      ApiClient.HandleRequest(ApiClient.Received(AsBody(p)), parse, isNoBodyOk, isNoDataOk) ==
      FunctionResult(isNoDataOk, None, Some("failed to parse data"))
  {
  }

  /** An event as the client's event source hands it over. */
  function Delivered(e: Event): (m: Option<SseClient.SseMessage>)
    ensures e.Message? <==> m.Some?
    ensures e.Message? ==> m.value.kind == e.name && m.value.data == Some(e.data)
  {
    match e
    case Comment(_) => None
    case Message(name, data) => Some(SseClient.SseMessage(name, Some(data)))
  }

  /**
   * Each kind of data reaches at most the client handler of its own name: a
   * logout always passes the logout check, a pool never reaches the transfer
   * handler and a transfer never the pool handler; the "connected" event and
   * pings reach none.
   */
  lemma EventsRouteByName(msg: BroadcastMessage, toJson: SSEData -> Option<string>, parse: string -> SseClient.ParsedPayload)
    ensures var m := Delivered(ToEvent(msg, toJson));
      (msg.Ping? ==> m.None?) &&
      (msg.Connected? ==> m.Some? && SseClient.PoolPayload(m.value, parse).None? &&
                          SseClient.TransferPayload(m.value, parse).None? && !SseClient.IsLogout(m.value)) &&
      (msg == Data(Logout) ==> m.Some? && SseClient.IsLogout(m.value) && SseClient.PoolPayload(m.value, parse).None? &&
                               SseClient.TransferPayload(m.value, parse).None?) &&
      (msg.Data? && msg.data.Pool? ==> m.Some? && SseClient.TransferPayload(m.value, parse).None? && !SseClient.IsLogout(m.value)) &&
      (msg.Data? && msg.data.Transfer? ==> m.Some? && SseClient.PoolPayload(m.value, parse).None? && !SseClient.IsLogout(m.value))
  {
  }

  /**
   * A pool as the server's `DevicesPool` record serialises it: `pool_name`,
   * `devices_id` and `hashed_key_phrase`; the record has no name map.
   */
  datatype ServerPool = ServerPool(poolName: string, devicesId: seq<string>, hashedKeyPhrase: string)

  /**
   * The object the client's `JSON.parse` makes of a serialised server pool:
   * `hashed_key_phrase` is no member the client reads, and `devices_id_to_name`
   * is absent.
   */
  function PoolAsRead(p: ServerPool): PoolReply {
    PoolReply(None, Some(p.poolName), Some(p.devicesId), None)
  }

  /**
   * No pool the server sends passes the client's pool checks, which all ask for
   * `devices_id_to_name`: a "pool" event delivers nothing, a join (directly or
   * through the "AlreadyInPool" fetch) yields no pool on either screen, and a
   * refresh has no target.
   */
  lemma ServerPoolsAreDropped(p: ServerPool, json: string, parse: string -> SseClient.ParsedPayload,
                              keyPhrase: Option<string>, ctx: PoolCtx, get: FunctionResult<PoolReply>)
    requires parse(json).Parsed? && parse(json).pool == Some(PoolAsRead(p))
    ensures !IsDevicesPool(PoolAsRead(p))
    ensures SseClient.PoolPayload(SseClient.SseMessage("pool", Some(json)), parse).None?
    ensures var answered := FunctionResult(true, Some(PoolAsRead(p)), None);
      JoinScreens.JoinData(answered, get).None? && JoinScreens.LegacyJoinData(answered, get).None? &&
      JoinScreens.JoinData(FunctionResult(false, None, Some(JoinScreens.ALREADY_IN_POOL)), answered).None? &&
      PoolLogic.RefreshTargetOf(keyPhrase, answered, ctx).None?
  {
  }

  /** The client's pool creation form checks no length, so a 51-letter pool name it sends is refused by the server. */
  lemma LongPoolNamePassesClientOnly()
    ensures NewPoolScreen.IsNewPoolArgsOk("phone", PoolService.Repeated('a', 51))
    ensures !PoolService.NewPoolArgsOk(PoolService.Repeated('a', 51), "device", "phone")
  {
    var name := PoolService.Repeated('a', 51);
    RepeatedAscii(51);
    AsciiLengths(name);
    ClientUtils.NonWhitespaceIsNotEmpty(name, 0);
    ClientUtils.NonWhitespaceIsNotEmpty("phone", 0);
  }

  lemma {:induction false} RepeatedAscii(k: nat)
    ensures forall i :: 0 <= i < k ==> PoolService.Repeated('a', k)[i] == 'a'
  {
    if k > 0 {
      RepeatedAscii(k - 1);
    }
  }
}
