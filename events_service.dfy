/**
 * The event-stream handler (apps/ilix-server/src/services/events.rs): check the
 * key phrase of the query, make sure its pool exists, then register the
 * device's channel with the broadcaster.
 */
module EventsService {
  import opened Wrappers
  import opened Errors
  import opened KeyPhrases
  import opened Responses
  import opened Broadcasting

  /** The handler's answer: an envelope, or the event stream of the new channel. */
  datatype RegisterResult = Rejected(reply: Reply) | Stream(channel: Sender)

  /** The status of a failed pool lookup: 404 for an unknown pool; otherwise none is given, so 500 applies. */
  function LookupStatus(e: ServerError): (s: Option<int>)
    ensures s.Some? <==> e == PoolNotFound
    ensures s.Some? ==> s.value == NOT_FOUND
  {
    if e == PoolNotFound then Some(NOT_FOUND) else None
  }

  /**
   * `event_stream`: the query's key phrase, then the pool lookup, then the
   * registration; only a registered channel is streamed. The device id is not
   * checked.
   */
  method EventStream(sse: Broadcaster, keyPhrase: string, deviceId: string, poolLookup: Result<(), ServerError>,
                     env: Option<string>, sha: string -> string, tx: Sender)
    returns (r: RegisterResult)
    modifies sse
    ensures !IsKeyPhrase(keyPhrase) ==> r == Rejected(BadArgs)
    ensures IsKeyPhrase(keyPhrase) && poolLookup.Err? ==>
      r.Rejected? && r.reply.Payload? && !r.reply.p.success && r.reply.p.reason == Some(Name(poolLookup.error)) &&
      r.reply.p.statusCode == (if poolLookup.error == PoolNotFound then NOT_FOUND else INTERNAL_SERVER_ERROR)
    ensures !(IsKeyPhrase(keyPhrase) && poolLookup.Ok?) ==> sse.clients == old(sse.clients)
    ensures IsKeyPhrase(keyPhrase) && poolLookup.Ok? ==>
      var id := ClientId(deviceId, KeyPhrase(keyPhrase), env, sha);
      (id.Ok? ==> r == Stream(tx) && sse.clients == old(sse.clients) + [(id.value, tx)]) &&
      (id.Err? ==> r.Rejected? && r.reply.Payload? && !r.reply.p.success &&
                   r.reply.p.statusCode == INTERNAL_SERVER_ERROR && r.reply.p.reason == Some(FailureText(id.error)) &&
                   sse.clients == old(sse.clients))
  {
    match TryFrom(keyPhrase) {
      case Err(_) =>
        return Rejected(BadArgs);
      case Ok(kp) =>
        if poolLookup.Err? {
          var err := poolLookup.error;
          return Rejected(Payload(NewPayload(false, None, LookupStatus(err), Some(Name(err)))));
        }
        var registered, _ := sse.NewClient(deviceId, kp, env, sha, tx);
        match registered {
          case Ok(channel) =>
            r := Stream(channel);
          case Err(f) =>
            r := Rejected(Refused(None, FailureText(f)));
        }
    }
  }
}
