/**
 * The earlier pool hook `PoolHook` (lib/hooks/Pool.ts). It holds only the pool
 * slice, reads the auth slice's key phrase and cascading flag from its context
 * (parameters here), persists the whole slice object rather than the pool list,
 * and merges a refreshed pool with the reply's fields last.
 */
module PoolHookState {
  import opened Wrappers
  import opened ClientTypes
  import opened StoredState
  import opened PoolLogic

  class PoolHook {
    var pool: PoolCtx
    /** Whether the loaded slice carries its `addPool`/`setPool` members. */
    var poolActions: bool
    const storage: Storage

    constructor(storage: Storage)
      ensures this.storage == storage && pool == PoolCtx(None, true, true) && !poolActions
    {
      this.storage := storage;
      pool := PoolCtx(None, true, true);
      poolActions := false;
    }

    /** `setInitialState`: the slice replaced by the stored one. */
    method SetInitialState(io: Io)
      modifies this
      ensures pool == GetStoredPools(storage.asyncStore, io) && poolActions
    {
      pool := GetStoredPools(storage.asyncStore, io);
      poolActions := true;
    }

    /**
     * `addPool`: prepend and select, then persist the whole new slice object under
     * `POOL_KEY`. Spreading a `pools` member that is not a list throws before
     * anything is set or stored.
     */
    method AddPool(p: StoredPool, withCascade: bool, io: Io) returns (r: Completion<FunctionResult<()>>)
      modifies this, storage
      ensures !IsPoolList(old(pool)) ==> r == TypeError && pool == old(pool) && storage.asyncStore == old(storage.asyncStore)
      ensures IsPoolList(old(pool)) ==>
        pool == WithPoolAdded(old(pool), p, withCascade) && r.Returned? &&
        (r.value, storage.asyncStore) == StoreItem(old(storage.asyncStore), POOL_KEY, ContextEntry(pool), io)
      ensures poolActions == old(poolActions) && storage.secure == old(storage.secure)
    {
      if !IsPoolList(pool) {
        return TypeError;
      }
      pool := WithPoolAdded(pool, p, withCascade);
      var (res, store') := StoreItem(storage.asyncStore, POOL_KEY, ContextEntry(pool), io);
      storage.asyncStore := store';
      r := Returned(res);
    }

    /** `setPool`: the index replaced, unchecked, cascading set, and the whole slice persisted. */
    method SetPool(newIndex: int, io: Io) returns (r: FunctionResult<()>)
      modifies this, storage
      ensures pool == WithIndex(old(pool), newIndex)
      ensures (r, storage.asyncStore) == StoreItem(old(storage.asyncStore), POOL_KEY, ContextEntry(pool), io)
      ensures poolActions == old(poolActions) && storage.secure == old(storage.secure)
    {
      pool := WithIndex(pool, newIndex);
      var (res, store') := StoreItem(storage.asyncStore, POOL_KEY, ContextEntry(pool), io);
      storage.asyncStore := store';
      r := res;
    }

    /**
     * `updatePool`: splice in place, fail without a current index, else keep the
     * index and persist. Calling `splice` on a `pools` member that is not a list throws.
     */
    method UpdatePool(index: int, p: StoredPool, io: Io) returns (r: Completion<FunctionResult<()>>)
      modifies this, storage
      ensures !IsPoolList(old(pool)) ==> r == TypeError && pool == old(pool) && storage.asyncStore == old(storage.asyncStore)
      ensures IsPoolList(old(pool)) && WithReplaced(old(pool), index, p).None? ==>
        r == Returned(Failed(None)) && pool == Spliced(old(pool), index, p) && storage.asyncStore == old(storage.asyncStore)
      ensures IsPoolList(old(pool)) && WithReplaced(old(pool), index, p).Some? ==>
        pool == WithReplaced(old(pool), index, p).value && r.Returned? &&
        (r.value, storage.asyncStore) == StoreItem(old(storage.asyncStore), POOL_KEY, ContextEntry(pool), io)
      ensures poolActions == old(poolActions) && storage.secure == old(storage.secure)
    {
      if !IsPoolList(pool) {
        return TypeError;
      }
      var replaced := WithReplaced(pool, index, p);
      pool := Spliced(pool, index, p);
      if replaced.None? {
        return Returned(Failed(None));
      }
      pool := replaced.value;
      var (res, store') := StoreItem(storage.asyncStore, POOL_KEY, ContextEntry(pool), io);
      storage.asyncStore := store';
      r := Returned(res);
    }

    /**
     * `refresh_pool`: the same checks and the same throw as AppState's, but the
     * reply's fields are spread after the stored key.
     */
    method RefreshPool(authKeyPhrase: Option<string>, reply: FunctionResult<PoolReply>, io: Io) returns (threw: bool)
      modifies this, storage
      ensures threw <==> RefreshThrows(authKeyPhrase, reply, old(pool))
      ensures RefreshTargetOf(authKeyPhrase, reply, old(pool)).None? ==>
        pool == old(pool) && storage.asyncStore == old(storage.asyncStore)
      ensures RefreshTargetOf(authKeyPhrase, reply, old(pool)).Some? ==>
        var t := RefreshTargetOf(authKeyPhrase, reply, old(pool)).value;
        pool == WithReplaced(old(pool), t.index, MergeKeyFirst(t.ssKey, t.data)).value &&
        storage.asyncStore == StoreItem(old(storage.asyncStore), POOL_KEY, ContextEntry(pool), io).1
      ensures poolActions == old(poolActions) && storage.secure == old(storage.secure)
    {
      threw := RefreshThrows(authKeyPhrase, reply, pool);
      var target := RefreshTargetOf(authKeyPhrase, reply, pool);
      if target.Some? {
        var _ := UpdatePool(target.value.index, MergeKeyFirst(target.value.ssKey, target.value.data), io);
      }
    }

    /** The effect on the auth phrase: a refresh only while auth cascades. */
    method Effect(authCascade: bool, authKeyPhrase: Option<string>, reply: FunctionResult<PoolReply>, io: Io) returns (threw: bool)
      modifies this, storage
      ensures threw <==> authCascade && RefreshThrows(authKeyPhrase, reply, old(pool))
      ensures !authCascade ==> pool == old(pool) && storage.asyncStore == old(storage.asyncStore)
      ensures authCascade && RefreshTargetOf(authKeyPhrase, reply, old(pool)).Some? ==>
        var t := RefreshTargetOf(authKeyPhrase, reply, old(pool)).value;
        pool == WithReplaced(old(pool), t.index, MergeKeyFirst(t.ssKey, t.data)).value &&
        storage.asyncStore == StoreItem(old(storage.asyncStore), POOL_KEY, ContextEntry(pool), io).1
      ensures authCascade && RefreshTargetOf(authKeyPhrase, reply, old(pool)).None? ==>
        pool == old(pool) && storage.asyncStore == old(storage.asyncStore)
      ensures poolActions == old(poolActions) && storage.secure == old(storage.secure)
    {
      if !authCascade {
        return false;
      }
      threw := RefreshPool(authKeyPhrase, reply, io);
    }
  }

  /** The slice `AddPool` writes, read back at the next start. */
  function ReloadAfterAdd(ctx: PoolCtx, p: StoredPool, withCascade: bool, store: map<string, AsValue>): PoolCtx
    requires IsPoolList(ctx)
  {
    GetStoredPools(store[POOL_KEY := ContextEntry(WithPoolAdded(ctx, p, withCascade))], Done)
  }

  /**
   * What this hook persists is not what `GetStoredPools` reads: after a restart
   * the slice's `pools` member is an object that is not a list, with no current
   * index. No pool is current, so the auth effect's read of `current` throws and
   * no refresh applies; `addPool` and `updatePool` throw on it; and `setPool`,
   * whatever the index, keeps the non-list, so no pool ever becomes current again.
   */
  lemma PersistedContextLosesPools(ctx: PoolCtx, p: StoredPool, withCascade: bool, store: map<string, AsValue>,
                                   kp: Option<string>, reply: FunctionResult<PoolReply>, newIndex: int)
    requires IsPoolList(ctx)
    ensures
      var reloaded := ReloadAfterAdd(ctx, p, withCascade, store);
      reloaded.pools.Some? && reloaded.pools.value.currentIndex.None? &&
      Current(reloaded.pools.value).None? && !IsPoolList(reloaded) &&
      RefreshTargetOf(kp, reply, reloaded).None? &&
      !IsPoolList(WithIndex(reloaded, newIndex)) && Current(WithIndex(reloaded, newIndex).pools.value).None?
  {
    var reloaded := ReloadAfterAdd(ctx, p, withCascade, store);
    assert reloaded.pools.value == StoredPools(None, NotArray);
  }
}
