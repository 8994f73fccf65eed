/**
 * The app-wide state hook `useAppState` (lib/hooks/AppState.ts): the auth, pool
 * and transfer slices in one object, the operations that replace them, and the
 * three effects, each an explicit method called with the current state. Each
 * asynchronous operation runs to completion in one call; the outcome of every
 * storage call and server request is a parameter.
 */
module AppStateHook {
  import opened Wrappers
  import opened ClientTypes
  import opened ClientUtils
  import opened StoredState
  import opened PoolLogic
  import opened TransferLogic

  /** The auth slice before anything is loaded. */
  const InitialAuth := AuthShape(false, true, true, None, None)
  /** The pool slice before anything is loaded. */
  const InitialPool := PoolCtx(None, true, true)
  /** The transfer slice `[false, null, []]`. */
  const NoTransfers := TransferState(false, None, [])

  /** `SS_clear`: the device id and the phrase key of every given pool removed from SecureStore. */
  function SecureCleared(secure: map<string, string>, pools: seq<StoredPool>): (r: map<string, string>)
    ensures DEVICE_ID_KEY !in r
    ensures forall i :: 0 <= i < |pools| ==> pools[i].ssKeyHashedKp !in r
    ensures forall k :: k in r ==> k in secure && r[k] == secure[k]
    ensures forall k :: k in secure && k != DEVICE_ID_KEY && (forall i :: 0 <= i < |pools| ==> pools[i].ssKeyHashedKp != k) ==> k in r
  {
    secure - {DEVICE_ID_KEY} - (set i | 0 <= i < |pools| :: pools[i].ssKeyHashedKp)
  }

  class AppState {
    var auth: AuthShape
    var pool: PoolCtx
    var transfer: TransferState
    /** Whether the loaded auth slice carries its `addPoolKeyPhrase`/`setPoolKeyPhrase`/`logOut` members. */
    var authActions: bool
    /** Whether the loaded pool slice carries its `addPool`/`setPool` members. */
    var poolActions: bool
    /** The `lastPoolLoadingState` ref: false until the first load with a current pool. */
    var lastPoolLoadingState: bool
    const storage: Storage
    /** SHA3-256 as a hex string. */
    const hash: string -> string

    constructor(storage: Storage, hash: string -> string)
      ensures this.storage == storage && this.hash == hash
      ensures auth == InitialAuth && pool == InitialPool && transfer == NoTransfers
      ensures !authActions && !poolActions && !lastPoolLoadingState
    {
      this.storage := storage;
      this.hash := hash;
      auth := InitialAuth;
      pool := InitialPool;
      transfer := NoTransfers;
      authActions := false;
      poolActions := false;
      lastPoolLoadingState := false;
    }

    /** `setAuthInitialState`: the auth slice replaced by what the loader rebuilds from SecureStore. */
    method SetAuthInitialState(kpRef: Option<string>, io: AuthLoadIo)
      modifies this, storage
      ensures auth == GetStoredAuthState(old(storage.secure), kpRef, io).state
      ensures storage.secure == GetStoredAuthState(old(storage.secure), kpRef, io).secure
      ensures authActions
      ensures pool == old(pool) && transfer == old(transfer) && poolActions == old(poolActions)
      ensures lastPoolLoadingState == old(lastPoolLoadingState) && storage.asyncStore == old(storage.asyncStore)
    {
      var load := GetStoredAuthState(storage.secure, kpRef, io);
      auth := load.state;
      storage.secure := load.secure;
      authActions := true;
    }

    /**
     * `getDeviceName`: the name the current pool gives to `deviceId`, or to the
     * slice's own device id. With a pool object but no current pool, reading
     * `current.devices_id_to_name` throws.
     */
    function GetDeviceName(deviceId: Option<string>): (r: Completion<Option<string>>)
      reads this
      ensures r.TypeError? <==>
        (deviceId.Some? || auth.deviceId.Some?) && pool.pools.Some? && Current(pool.pools.value).None?
      ensures deviceId.None? && auth.deviceId.None? ==> r == Returned(None)
      ensures r.Returned? && r.value.Some? <==>
        var id := if deviceId.Some? then deviceId else auth.deviceId;
        id.Some? && pool.pools.Some? && Current(pool.pools.value).Some? && id.value in Current(pool.pools.value).value.devicesIdToName
      ensures r.Returned? && r.value.Some? ==>
        var id := if deviceId.Some? then deviceId.value else auth.deviceId.value;
        r.value.value == Current(pool.pools.value).value.devicesIdToName[id]
    {
      var id := if deviceId.Some? then deviceId else auth.deviceId;
      if id.None? || pool.pools.None? then Returned(None)
      else match Current(pool.pools.value)
        case None => TypeError
        case Some(cur) =>
          if id.value in cur.devicesIdToName then Returned(Some(cur.devicesIdToName[id.value])) else Returned(None)
    }

    /**
     * `logOut`: nothing happens without a pool list. Otherwise both stores are
     * cleared; only when both clears complete are the three slices reset. When
     * `pools` is an object that is not a list, `SS_clear` deletes the device id,
     * then fails on `pools.map`, so the device stays logged in. `secureIo` is the
     * outcome of the SecureStore deletions that are attempted.
     */
    method LogOut(secureIo: Io, asyncIo: Io) returns (loggedOut: bool)
      modifies this, storage
      ensures old(pool.pools.None? || pool.pools.value.pools.NoMember?) ==>
        !loggedOut && storage.secure == old(storage.secure) && storage.asyncStore == old(storage.asyncStore)
      ensures old(pool.pools.Some? && pool.pools.value.pools.PoolArray?) ==>
        storage.secure == (if secureIo.Done? then SecureCleared(old(storage.secure), old(pool.pools.value.pools.items)) else old(storage.secure)) &&
        storage.asyncStore == (if asyncIo.Done? then map[] else old(storage.asyncStore)) &&
        loggedOut == (secureIo.Done? && asyncIo.Done?)
      ensures old(pool.pools.Some? && pool.pools.value.pools.NotArray?) ==>
        storage.secure == (if secureIo.Done? then old(storage.secure) - {DEVICE_ID_KEY} else old(storage.secure)) &&
        storage.asyncStore == (if asyncIo.Done? then map[] else old(storage.asyncStore)) &&
        !loggedOut
      ensures loggedOut ==>
        auth == old(auth).(cascadingUpdate := true, loading := false, loggedIn := false, poolKeyPhrase := None) &&
        pool == old(pool).(cascadingUpdate := true, loading := false, pools := None) &&
        transfer == NoTransfers
      ensures !loggedOut ==> auth == old(auth) && pool == old(pool) && transfer == old(transfer)
      ensures authActions == old(authActions) && poolActions == old(poolActions) && lastPoolLoadingState == old(lastPoolLoadingState)
    {
      if pool.pools.None? || pool.pools.value.pools.NoMember? {
        return false;
      }
      var secureOk := false;
      if secureIo.Done? {
        if pool.pools.value.pools.PoolArray? {
          storage.secure := SecureCleared(storage.secure, pool.pools.value.pools.items);
          secureOk := true;
        } else {
          storage.secure := storage.secure - {DEVICE_ID_KEY};
        }
      }
      if asyncIo.Done? {
        storage.asyncStore := map[];
      }
      if !secureOk || !asyncIo.Done? {
        return false;
      }
      auth := auth.(cascadingUpdate := true, loading := false, loggedIn := false, poolKeyPhrase := None);
      pool := pool.(cascadingUpdate := true, loading := false, pools := None);
      transfer := NoTransfers;
      loggedOut := true;
    }

    /** `addPoolKeyPhrase`: the phrase set with cascading = the flag, then stored under its key. */
    method AddPoolKeyPhrase(keyPhrase: string, withCascade: bool, io: Io) returns (r: FunctionResult<()>)
      modifies this, storage
      ensures auth == old(auth).(poolKeyPhrase := Some(keyPhrase), cascadingUpdate := withCascade)
      ensures (r, storage.secure) == StoreItem(old(storage.secure), MakeKeyPhraseKey(hash, keyPhrase), keyPhrase, io)
      ensures pool == old(pool) && transfer == old(transfer) && storage.asyncStore == old(storage.asyncStore)
      ensures authActions == old(authActions) && poolActions == old(poolActions) && lastPoolLoadingState == old(lastPoolLoadingState)
    {
      auth := auth.(poolKeyPhrase := Some(keyPhrase), cascadingUpdate := withCascade);
      var (res, secure') := StoreItem(storage.secure, MakeKeyPhraseKey(hash, keyPhrase), keyPhrase, io);
      storage.secure := secure';
      r := res;
    }

    /** `setPoolKeyPhrase`: a failed lookup changes nothing; otherwise the found phrase is set, cascading. */
    method SetPoolKeyPhrase(ssKeyHashedKp: string, io: Io) returns (r: FunctionResult<()>)
      modifies this
      ensures
        var read := SsGet(old(storage.secure), ssKeyHashedKp, io);
        (!read.succeed ==> r == Failed(None) && auth == old(auth)) &&
        (read.succeed ==> r == Succeeded() && auth == old(auth).(poolKeyPhrase := read.data, cascadingUpdate := true))
      ensures r.succeed <==> io.Done? && ssKeyHashedKp in storage.secure
      ensures pool == old(pool) && transfer == old(transfer)
      ensures authActions == old(authActions) && poolActions == old(poolActions) && lastPoolLoadingState == old(lastPoolLoadingState)
    {
      var read := SsGet(storage.secure, ssKeyHashedKp, io);
      if !read.succeed {
        return Failed(None);
      }
      auth := auth.(poolKeyPhrase := read.data, cascadingUpdate := true);
      r := Succeeded();
    }

    /**
     * The pool→auth effect: nothing while the pool slice loads or does not cascade;
     * without a pool object only a first load rebuilds auth; with a current pool,
     * the first load rebuilds auth from its key and later ones look the phrase up
     * again. A pool object without a current pool makes `current.SS_key_hashed_kp`
     * throw, and the effect stops there.
     */
    method AuthEffect(initIo: AuthLoadIo, kpIo: Io) returns (threw: bool)
      modifies this, storage
      ensures threw <==> old(pool.cascadingUpdate && !pool.loading && pool.pools.Some? && Current(pool.pools.value).None?)
      ensures threw || !old(pool.cascadingUpdate) || old(pool.loading) ==>
        auth == old(auth) && lastPoolLoadingState == old(lastPoolLoadingState) &&
        storage.secure == old(storage.secure) && authActions == old(authActions)
      ensures old(pool.cascadingUpdate && !pool.loading && pool.pools.None?) ==>
        lastPoolLoadingState == old(lastPoolLoadingState) &&
        (!old(lastPoolLoadingState) ==>
          auth == GetStoredAuthState(old(storage.secure), None, initIo).state &&
          storage.secure == GetStoredAuthState(old(storage.secure), None, initIo).secure && authActions) &&
        (old(lastPoolLoadingState) ==>
          auth == old(auth) && storage.secure == old(storage.secure) && authActions == old(authActions))
      ensures old(pool.cascadingUpdate && !pool.loading && pool.pools.Some? && Current(pool.pools.value).Some?) ==>
        var kpRef := old(Current(pool.pools.value).value.ssKeyHashedKp);
        lastPoolLoadingState &&
        (!old(lastPoolLoadingState) ==>
          auth == GetStoredAuthState(old(storage.secure), Some(kpRef), initIo).state &&
          storage.secure == GetStoredAuthState(old(storage.secure), Some(kpRef), initIo).secure && authActions) &&
        (old(lastPoolLoadingState) ==>
          var read := SsGet(old(storage.secure), kpRef, kpIo);
          auth == (if read.succeed then old(auth).(poolKeyPhrase := read.data, cascadingUpdate := true) else old(auth)) &&
          storage.secure == old(storage.secure) && authActions == old(authActions))
      ensures pool == old(pool) && transfer == old(transfer) && storage.asyncStore == old(storage.asyncStore)
      ensures poolActions == old(poolActions)
    {
      threw := false;
      var isFirstLoad := !lastPoolLoadingState;
      if !pool.cascadingUpdate || pool.loading {
        return;
      }
      if pool.pools.None? {
        if isFirstLoad {
          SetAuthInitialState(None, initIo);
        }
        return;
      }
      var current := Current(pool.pools.value);
      if current.None? {
        return true;
      }
      var poolKp := current.value.ssKeyHashedKp;
      if isFirstLoad {
        lastPoolLoadingState := true;
        SetAuthInitialState(Some(poolKp), initIo);
      } else {
        var _ := SetPoolKeyPhrase(poolKp, kpIo);
      }
    }

    /** `setPoolInitialState`: the pool slice replaced by the stored one. */
    method SetPoolInitialState(io: Io)
      modifies this
      ensures pool == GetStoredPools(storage.asyncStore, io) && poolActions
      ensures auth == old(auth) && transfer == old(transfer)
      ensures authActions == old(authActions) && lastPoolLoadingState == old(lastPoolLoadingState)
    {
      pool := GetStoredPools(storage.asyncStore, io);
      poolActions := true;
    }

    /**
     * `addPool`: the pool prepended and selected, then the pool list (only)
     * persisted under `POOL_KEY`. Spreading a `pools` member that is not a list
     * throws before anything is set or stored.
     */
    method AddPool(p: StoredPool, withCascade: bool, io: Io) returns (r: Completion<FunctionResult<()>>)
      modifies this, storage
      ensures !IsPoolList(old(pool)) ==> r == TypeError && pool == old(pool) && storage.asyncStore == old(storage.asyncStore)
      ensures IsPoolList(old(pool)) ==>
        pool == WithPoolAdded(old(pool), p, withCascade) && r.Returned? &&
        (r.value, storage.asyncStore) == StoreItem(old(storage.asyncStore), POOL_KEY, PoolsEntry(pool.pools.value), io)
      ensures auth == old(auth) && transfer == old(transfer) && storage.secure == old(storage.secure)
      ensures authActions == old(authActions) && poolActions == old(poolActions) && lastPoolLoadingState == old(lastPoolLoadingState)
    {
      if !IsPoolList(pool) {
        return TypeError;
      }
      pool := WithPoolAdded(pool, p, withCascade);
      var (res, store') := StoreItem(storage.asyncStore, POOL_KEY, PoolsEntry(pool.pools.value), io);
      storage.asyncStore := store';
      r := Returned(res);
    }

    /** `setPool`: the index replaced, unchecked, and the pool list persisted. */
    method SetPool(newIndex: int, io: Io) returns (r: FunctionResult<()>)
      modifies this, storage
      ensures pool == WithIndex(old(pool), newIndex)
      ensures (r, storage.asyncStore) == StoreItem(old(storage.asyncStore), POOL_KEY, PoolsEntry(pool.pools.value), io)
      ensures auth == old(auth) && transfer == old(transfer) && storage.secure == old(storage.secure)
      ensures authActions == old(authActions) && poolActions == old(poolActions) && lastPoolLoadingState == old(lastPoolLoadingState)
    {
      pool := WithIndex(pool, newIndex);
      var (res, store') := StoreItem(storage.asyncStore, POOL_KEY, PoolsEntry(pool.pools.value), io);
      storage.asyncStore := store';
      r := res;
    }

    /**
     * `updatePool`: the list is spliced in place first; without a current index
     * the call then fails, nothing is persisted and the spliced list stays.
     * Calling `splice` on a `pools` member that is not a list throws.
     */
    method UpdatePool(index: int, p: StoredPool, io: Io) returns (r: Completion<FunctionResult<()>>)
      modifies this, storage
      ensures !IsPoolList(old(pool)) ==> r == TypeError && pool == old(pool) && storage.asyncStore == old(storage.asyncStore)
      ensures IsPoolList(old(pool)) && WithReplaced(old(pool), index, p).None? ==>
        r == Returned(Failed(None)) && pool == Spliced(old(pool), index, p) && storage.asyncStore == old(storage.asyncStore)
      ensures IsPoolList(old(pool)) && WithReplaced(old(pool), index, p).Some? ==>
        pool == WithReplaced(old(pool), index, p).value && r.Returned? &&
        (r.value, storage.asyncStore) == StoreItem(old(storage.asyncStore), POOL_KEY, PoolsEntry(pool.pools.value), io)
      ensures auth == old(auth) && transfer == old(transfer) && storage.secure == old(storage.secure)
      ensures authActions == old(authActions) && poolActions == old(poolActions) && lastPoolLoadingState == old(lastPoolLoadingState)
    {
      if !IsPoolList(pool) {
        return TypeError;
      }
      var replaced := WithReplaced(pool, index, p);
      pool := Spliced(pool, index, p);
      if replaced.None? {
        return Returned(Failed(None));
      }
      pool := replaced.value;
      var (res, store') := StoreItem(storage.asyncStore, POOL_KEY, PoolsEntry(pool.pools.value), io);
      storage.asyncStore := store';
      r := Returned(res);
    }

    /**
     * `refresh_pool`: when every check passes, the current entry is rewritten with
     * the reply's fields and its own SecureStore key; with an index but no current
     * pool, reading its key throws (`threw`); otherwise nothing changes.
     */
    method RefreshPool(reply: FunctionResult<PoolReply>, io: Io) returns (threw: bool)
      modifies this, storage
      ensures threw <==> RefreshThrows(old(auth.poolKeyPhrase), reply, old(pool))
      ensures RefreshTargetOf(old(auth.poolKeyPhrase), reply, old(pool)).None? ==>
        pool == old(pool) && storage.asyncStore == old(storage.asyncStore)
      ensures RefreshTargetOf(old(auth.poolKeyPhrase), reply, old(pool)).Some? ==>
        var t := RefreshTargetOf(old(auth.poolKeyPhrase), reply, old(pool)).value;
        pool == WithReplaced(old(pool), t.index, MergeKeyLast(t.data, t.ssKey)).value &&
        storage.asyncStore == StoreItem(old(storage.asyncStore), POOL_KEY, PoolsEntry(pool.pools.value), io).1
      ensures auth == old(auth) && transfer == old(transfer) && storage.secure == old(storage.secure)
      ensures authActions == old(authActions) && poolActions == old(poolActions) && lastPoolLoadingState == old(lastPoolLoadingState)
    {
      threw := RefreshThrows(auth.poolKeyPhrase, reply, pool);
      var target := RefreshTargetOf(auth.poolKeyPhrase, reply, pool);
      if target.Some? {
        var _ := UpdatePool(target.value.index, MergeKeyLast(target.value.data, target.value.ssKey), io);
      }
    }

    /** The auth→pool effect: a refresh, unless auth does not cascade. */
    method PoolEffect(reply: FunctionResult<PoolReply>, io: Io) returns (threw: bool)
      modifies this, storage
      ensures threw <==> old(auth.cascadingUpdate) && RefreshThrows(old(auth.poolKeyPhrase), reply, old(pool))
      ensures !old(auth.cascadingUpdate) ==> pool == old(pool) && storage.asyncStore == old(storage.asyncStore)
      ensures old(auth.cascadingUpdate) && RefreshTargetOf(old(auth.poolKeyPhrase), reply, old(pool)).Some? ==>
        var t := RefreshTargetOf(old(auth.poolKeyPhrase), reply, old(pool)).value;
        pool == WithReplaced(old(pool), t.index, MergeKeyLast(t.data, t.ssKey)).value &&
        storage.asyncStore == StoreItem(old(storage.asyncStore), POOL_KEY, PoolsEntry(pool.pools.value), io).1
      ensures old(auth.cascadingUpdate) && RefreshTargetOf(old(auth.poolKeyPhrase), reply, old(pool)).None? ==>
        pool == old(pool) && storage.asyncStore == old(storage.asyncStore)
      ensures auth == old(auth) && transfer == old(transfer) && storage.secure == old(storage.secure)
      ensures authActions == old(authActions) && poolActions == old(poolActions) && lastPoolLoadingState == old(lastPoolLoadingState)
    {
      if !auth.cascadingUpdate {
        return false;
      }
      threw := RefreshPool(reply, io);
    }

    /** The transfer effect's first step: nothing unless auth can fetch; then `[true, null, []]`. */
    method TransferEffectStart() returns (started: bool)
      modifies this
      ensures started == CanFetch(old(auth))
      ensures started ==> transfer == TransferState(true, None, [])
      ensures !started ==> transfer == old(transfer)
      ensures auth == old(auth) && pool == old(pool)
      ensures authActions == old(authActions) && poolActions == old(poolActions) && lastPoolLoadingState == old(lastPoolLoadingState)
    {
      if !CanFetch(auth) {
        return false;
      }
      transfer := TransferState(true, None, []);
      started := true;
    }

    /** The transfer effect's second step, with the auth slice the fetch was started from. */
    method TransferEffectFinish(fetchAuth: AuthShape, reply: FunctionResult<seq<TransferReply>>)
      modifies this
      ensures transfer == FinishedTransferState(FetchTransfers(fetchAuth, reply))
      ensures auth == old(auth) && pool == old(pool)
      ensures authActions == old(authActions) && poolActions == old(poolActions) && lastPoolLoadingState == old(lastPoolLoadingState)
    {
      transfer := FinishedTransferState(FetchTransfers(fetchAuth, reply));
    }
  }

  /** A completed transfer effect shows the fetched transfers on success and an empty list otherwise. */
  lemma TransferEffectOutcome(fetchAuth: AuthShape, reply: FunctionResult<seq<TransferReply>>)
    requires CanFetch(fetchAuth)
    ensures
      var s := FinishedTransferState(FetchTransfers(fetchAuth, reply));
      !s.isLoading &&
      (s.isSuccess == Some(true) <==> CheckTransfers(reply).succeed) &&
      (s.isSuccess == Some(true) ==> s.transfers == reply.data.value) &&
      (s.isSuccess == Some(false) ==> s.transfers == [])
  {
    RealSuccessIsSuccess(reply);
  }

  /**
   * What `AddPool` persists is what the next start reads back: the same list and
   * index, with the new pool current again.
   */
  lemma PersistedPoolsSurviveReload(ctx: PoolCtx, p: StoredPool, withCascade: bool, store: map<string, AsValue>)
    requires IsPoolList(ctx)
    ensures
      var written := WithPoolAdded(ctx, p, withCascade);
      var reloaded := GetStoredPools(store[POOL_KEY := PoolsEntry(written.pools.value)], Done);
      reloaded.pools == written.pools && Current(reloaded.pools.value) == Some(p) &&
      PoolList(reloaded) == [p] + PoolList(ctx)
  {
  }
}
