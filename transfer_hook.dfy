/**
 * The earlier transfer hook `TransferHook` (lib/hooks/Transfer.ts): three separate
 * pieces of state, and an effect that clears the outcome, fetches, and then
 * records it, keeping the previous list when the fetch fails.
 */
module TransferHookState {
  import opened Wrappers
  import opened ClientTypes
  import opened TransferLogic

  class TransferHook {
    var isLoading: bool
    /** `null` while no outcome is known. */
    var isSuccess: Option<bool>
    var transfers: seq<TransferReply>

    constructor()
      ensures !isLoading && isSuccess.None? && transfers == []
    {
      isLoading := false;
      isSuccess := None;
      transfers := [];
    }

    /** Before the fetch: outcome unknown, loading. */
    method EffectStart()
      modifies this
      ensures isSuccess.None? && isLoading && transfers == old(transfers)
    {
      isSuccess := None;
      isLoading := true;
    }

    /** After the fetch: the list replaced only on real success, the outcome recorded, loading over. */
    method EffectFinish(fetchAuth: AuthShape, reply: FunctionResult<seq<TransferReply>>)
      modifies this
      ensures
        var r := HookFetchTransfers(fetchAuth, reply);
        isSuccess == Some(RealSuccess(r)) && !isLoading &&
        transfers == (if RealSuccess(r) then r.data.value else old(transfers))
    {
      var r := HookFetchTransfers(fetchAuth, reply);
      var realSuccess := r.succeed && r.data.Some? && |r.data.value| > 0;
      if realSuccess {
        transfers := r.data.value;
      }
      isSuccess := Some(realSuccess);
      isLoading := false;
    }
  }

  /** A failed fetch leaves the previously shown transfers in place, unlike AppState's effect. */
  lemma FailureKeepsList(fetchAuth: AuthShape, reply: FunctionResult<seq<TransferReply>>)
    requires !CheckTransfers(reply).succeed || !HookCanFetch(fetchAuth)
    ensures !RealSuccess(HookFetchTransfers(fetchAuth, reply))
    ensures FinishedTransferState(FetchTransfers(fetchAuth, reply)).transfers == []
  {
  }
}
