/**
 * The earlier auth hook `AuthHook` (lib/hooks/Auth.ts). It holds only the auth
 * slice and reads the pool slice from its context (parameters here). Its loader
 * is `GetStoredAuthState` with a key that is always given.
 */
module AuthHookState {
  import opened Wrappers
  import opened ClientTypes
  import opened StoredState

  class AuthHook {
    var auth: AuthShape
    /** Whether the loaded slice carries its `addPoolKeyPhrase`/`setPoolKeyPhrase` members. */
    var authActions: bool
    /** The `lastPoolLoadingState` ref. */
    var lastPoolLoadingState: bool
    const storage: Storage
    /** SHA3-256 as a hex string. */
    const hash: string -> string

    constructor(storage: Storage, hash: string -> string)
      ensures this.storage == storage && this.hash == hash
      ensures auth == AuthShape(false, true, true, None, None) && !authActions && !lastPoolLoadingState
    {
      this.storage := storage;
      this.hash := hash;
      auth := AuthShape(false, true, true, None, None);
      authActions := false;
      lastPoolLoadingState := false;
    }

    /** `setInitialState`: the slice rebuilt from SecureStore for the given phrase key. */
    method SetInitialState(ssKeyHashedKp: string, io: AuthLoadIo)
      modifies this, storage
      ensures auth == GetStoredAuthState(old(storage.secure), Some(ssKeyHashedKp), io).state
      ensures storage.secure == GetStoredAuthState(old(storage.secure), Some(ssKeyHashedKp), io).secure
      ensures authActions && lastPoolLoadingState == old(lastPoolLoadingState)
      ensures storage.asyncStore == old(storage.asyncStore)
    {
      var load := GetStoredAuthState(storage.secure, Some(ssKeyHashedKp), io);
      auth := load.state;
      storage.secure := load.secure;
      authActions := true;
    }

    /** `addPoolKeyPhrase`: the phrase set with cascading = the flag, then stored under its key. */
    method AddPoolKeyPhrase(keyPhrase: string, withCascade: bool, io: Io) returns (r: FunctionResult<()>)
      modifies this, storage
      ensures auth == old(auth).(poolKeyPhrase := Some(keyPhrase), cascadingUpdate := withCascade)
      ensures (r, storage.secure) == StoreItem(old(storage.secure), MakeKeyPhraseKey(hash, keyPhrase), keyPhrase, io)
      ensures authActions == old(authActions) && lastPoolLoadingState == old(lastPoolLoadingState)
      ensures storage.asyncStore == old(storage.asyncStore)
    {
      auth := auth.(poolKeyPhrase := Some(keyPhrase), cascadingUpdate := withCascade);
      var (res, secure') := StoreItem(storage.secure, MakeKeyPhraseKey(hash, keyPhrase), keyPhrase, io);
      storage.secure := secure';
      r := res;
    }

    /** `setPoolKeyPhrase`: cascading is set only when the lookup succeeds; a failure changes nothing. */
    method SetPoolKeyPhrase(ssKeyHashedKp: string, io: Io) returns (r: FunctionResult<()>)
      modifies this
      ensures
        var read := SsGet(old(storage.secure), ssKeyHashedKp, io);
        (!read.succeed ==> r == Failed(None) && auth == old(auth)) &&
        (read.succeed ==> r == Succeeded() && auth == old(auth).(poolKeyPhrase := read.data, cascadingUpdate := true))
      ensures authActions == old(authActions) && lastPoolLoadingState == old(lastPoolLoadingState)
    {
      var read := SsGet(storage.secure, ssKeyHashedKp, io);
      if !read.succeed {
        return Failed(None);
      }
      auth := auth.(poolKeyPhrase := read.data, cascadingUpdate := true);
      r := Succeeded();
    }

    /**
     * The pool→auth effect: skipped when the pool slice does not cascade, except on
     * the first load. Without a pool object a first load sets the default state;
     * with a current pool, the first load rebuilds auth and later loads look the
     * phrase up. A pool object without a current pool makes
     * `pools?.current.SS_key_hashed_kp` throw. Unlike AppState's, this effect does
     * not wait for the pool slice to load.
     */
    method Effect(pools: Option<StoredPools>, poolCascade: bool, initIo: AuthLoadIo, kpIo: Io) returns (threw: bool)
      modifies this, storage
      ensures threw <==> (poolCascade || !old(lastPoolLoadingState)) && pools.Some? && Current(pools.value).None?
      ensures threw || (!poolCascade && old(lastPoolLoadingState)) ==>
        auth == old(auth) && lastPoolLoadingState == old(lastPoolLoadingState) &&
        storage.secure == old(storage.secure) && authActions == old(authActions)
      ensures (poolCascade || !old(lastPoolLoadingState)) && pools.None? ==>
        lastPoolLoadingState == old(lastPoolLoadingState) && storage.secure == old(storage.secure) &&
        auth == (if old(lastPoolLoadingState) then old(auth) else DefaultAuth) && authActions == old(authActions)
      ensures (poolCascade || !old(lastPoolLoadingState)) && pools.Some? && Current(pools.value).Some? ==>
        var kpRef := Current(pools.value).value.ssKeyHashedKp;
        lastPoolLoadingState &&
        (!old(lastPoolLoadingState) ==>
          auth == GetStoredAuthState(old(storage.secure), Some(kpRef), initIo).state &&
          storage.secure == GetStoredAuthState(old(storage.secure), Some(kpRef), initIo).secure && authActions) &&
        (old(lastPoolLoadingState) ==>
          var read := SsGet(old(storage.secure), kpRef, kpIo);
          auth == (if read.succeed then old(auth).(poolKeyPhrase := read.data, cascadingUpdate := true) else old(auth)) &&
          storage.secure == old(storage.secure) && authActions == old(authActions))
      ensures storage.asyncStore == old(storage.asyncStore)
    {
      threw := false;
      var isFirstLoad := !lastPoolLoadingState;
      if !poolCascade && !isFirstLoad {
        return;
      }
      if pools.None? {
        if isFirstLoad {
          auth := DefaultAuth;
        }
        return;
      }
      var current := Current(pools.value);
      if current.None? {
        return true;
      }
      var poolKp := current.value.ssKeyHashedKp;
      if isFirstLoad {
        lastPoolLoadingState := true;
        SetInitialState(poolKp, initIo);
      } else {
        var _ := SetPoolKeyPhrase(poolKp, kpIo);
      }
    }
  }
}
