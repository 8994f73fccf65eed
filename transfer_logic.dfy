/**
 * `fecthTransfers` of the app-wide state hook (lib/hooks/AppState.ts) and of the
 * earlier transfer hook (lib/hooks/Transfer.ts): the guard before the request,
 * and the checks on the reply, which both share.
 */
module TransferLogic {
  import opened Wrappers
  import opened ClientTypes

  /** The checks on the reply: non-empty data, and every item a complete transfer. */
  function CheckTransfers(reply: FunctionResult<seq<TransferReply>>): (r: FunctionResult<seq<TransferReply>>)
    // success carries the reply's data unchanged, and it is non-empty and complete
    ensures r.succeed <==>
      reply.succeed && reply.data.Some? && |reply.data.value| > 0 &&
      forall i :: 0 <= i < |reply.data.value| ==> IsTransfer(reply.data.value[i])
    ensures r.succeed ==> r.data == reply.data && r.reason.None?
    ensures !r.succeed ==> r.data.None?
    // a missing or empty list fails with the server's reason
    ensures !reply.succeed || reply.data.None? || |reply.data.value| == 0 ==> r == Failed(reply.reason)
    // a list with an incomplete item fails with "Corrupted datas"
    ensures (reply.succeed && reply.data.Some? && |reply.data.value| > 0 &&
             exists i :: 0 <= i < |reply.data.value| && !IsTransfer(reply.data.value[i])) ==>
            r == Failed(Some("Corrupted datas"))
  {
    if !reply.succeed || reply.data.None? || |reply.data.value| == 0 then Failed(reply.reason)
    else if !(forall i :: 0 <= i < |reply.data.value| ==> IsTransfer(reply.data.value[i])) then Failed(Some("Corrupted datas"))
    else FunctionResult(true, reply.data, None)
  }

  /** The guard of AppState's fetch: auth settled, with a device id and a key phrase. */
  predicate CanFetch(auth: AuthShape) {
    !auth.loading && auth.deviceId.Some? && auth.poolKeyPhrase.Some?
  }

  /** AppState's `fecthTransfers`: a bare failure, without a request, unless `CanFetch`. */
  function FetchTransfers(auth: AuthShape, reply: FunctionResult<seq<TransferReply>>): FunctionResult<seq<TransferReply>> {
    if !CanFetch(auth) then Failed(None) else CheckTransfers(reply)
  }

  /** The older hook's guard: auth settled with a device id; the key phrase is not checked. */
  predicate HookCanFetch(auth: AuthShape) {
    !auth.loading && auth.deviceId.Some?
  }

  /** The older hook's `fecthTransfers`. */
  function HookFetchTransfers(auth: AuthShape, reply: FunctionResult<seq<TransferReply>>): FunctionResult<seq<TransferReply>> {
    if !HookCanFetch(auth) then Failed(None) else CheckTransfers(reply)
  }

  /**
   * What either fetch yields: the reply's own list exactly when the guard passes
   * and the reply is a complete non-empty list; and wherever AppState's guard
   * passes, the older hook fetches the same.
   */
  lemma FetchOutcomes(auth: AuthShape, reply: FunctionResult<seq<TransferReply>>)
    ensures FetchTransfers(auth, reply).succeed <==>
      CanFetch(auth) && reply.succeed && reply.data.Some? && |reply.data.value| > 0 &&
      forall i :: 0 <= i < |reply.data.value| ==> IsTransfer(reply.data.value[i])
    ensures HookFetchTransfers(auth, reply).succeed <==>
      HookCanFetch(auth) && reply.succeed && reply.data.Some? && |reply.data.value| > 0 &&
      forall i :: 0 <= i < |reply.data.value| ==> IsTransfer(reply.data.value[i])
    ensures FetchTransfers(auth, reply).succeed ==> FetchTransfers(auth, reply).data == reply.data
    ensures HookFetchTransfers(auth, reply).succeed ==> HookFetchTransfers(auth, reply).data == reply.data
    ensures CanFetch(auth) ==> HookFetchTransfers(auth, reply) == FetchTransfers(auth, reply)
  {
  }

  /** The older hook goes ahead without a key phrase, whereas AppState's refuses. */
  lemma HookIgnoresKeyPhrase(auth: AuthShape, reply: FunctionResult<seq<TransferReply>>)
    requires !auth.loading && auth.deviceId.Some? && auth.poolKeyPhrase.None?
    ensures HookFetchTransfers(auth, reply) == CheckTransfers(reply)
    ensures FetchTransfers(auth, reply) == Failed(None)
  {
  }

  /** `realSuccess`: success with non-empty data. */
  predicate RealSuccess(r: FunctionResult<seq<TransferReply>>) {
    r.succeed && r.data.Some? && |r.data.value| > 0
  }

  /** After the checks, "real success" is plain success: a successful result always has data. */
  lemma RealSuccessIsSuccess(reply: FunctionResult<seq<TransferReply>>)
    ensures RealSuccess(CheckTransfers(reply)) <==> CheckTransfers(reply).succeed
  {
  }

  /** The transfer slice at the end of AppState's effect: `[false, true, data]` or `[false, false, []]`. */
  function FinishedTransferState(r: FunctionResult<seq<TransferReply>>): TransferState {
    if RealSuccess(r) then TransferState(false, Some(true), r.data.value) else TransferState(false, Some(false), [])
  }
}
