/**
 * The loaders that rebuild the auth and pool slices from device storage when
 * the app starts: `GetStoredAuthState` (lib/db/Auth.ts, also used with a
 * required key by lib/hooks/Auth.ts), the older single-phrase
 * `defaultAuthState` (lib/Auth.ts) and `GetStoredPools` (lib/db/Pools.ts and
 * lib/hooks/Pool.ts, which are identical).
 */
module StoredState {
  import opened Wrappers
  import opened ClientTypes
  import opened ClientUtils

  /** `defaultState` of the auth loaders: logged out, not loading, cascading, nothing known. */
  const DefaultAuth := AuthShape(false, false, true, None, None)

  /**
   * The storage outcomes one load sees: reading the device id, the id generated
   * from the device's properties (a hash computed outside this model), writing
   * it, and reading the key phrase.
   */
  datatype AuthLoadIo = AuthLoadIo(idRead: Io, generatedId: string, idStore: Io, kpRead: Io)

  /** The loaded auth slice and the SecureStore contents after the load. */
  datatype AuthLoad = AuthLoad(state: AuthShape, secure: map<string, string>)

  /** A usable device id is already stored: the read completes and yields a non-empty string. */
  predicate HasStoredId(secure: map<string, string>, io: AuthLoadIo) {
    io.idRead.Done? && DEVICE_ID_KEY in secure && secure[DEVICE_ID_KEY] != ""
  }

  /**
   * The device-id step: keep a stored id; otherwise generate one and persist it.
   * `None` means that persisting failed, after which the loader gives up.
   */
  function LoadDeviceId(secure: map<string, string>, io: AuthLoadIo): (r: (Option<string>, map<string, string>))
    ensures HasStoredId(secure, io) ==> r == (Some(secure[DEVICE_ID_KEY]), secure)
    ensures !HasStoredId(secure, io) && io.idStore.Done? ==>
      r == (Some(io.generatedId), secure[DEVICE_ID_KEY := io.generatedId])
    ensures !HasStoredId(secure, io) && io.idStore.Threw? ==> r == (None, secure)
  {
    var read := SsGet(secure, DEVICE_ID_KEY, io.idRead);
    if !read.succeed || read.data.None? || read.data.value == "" then
      var (stored, secure') := StoreItem(secure, DEVICE_ID_KEY, io.generatedId, io.idStore);
      if !stored.succeed then (None, secure) else (Some(io.generatedId), secure')
    else (read.data, secure)
  }

  /** The key phrase the load finds under `kpRef`, when the read completes and yields a non-empty string. */
  function FoundKeyPhrase(secure: map<string, string>, kpRef: Option<string>, io: Io): (r: Option<string>)
    ensures r.Some? <==> kpRef.Some? && io.Done? && kpRef.value in secure && secure[kpRef.value] != ""
    ensures r.Some? ==> r.value == secure[kpRef.value]
  {
    if kpRef.None? then None
    else
      var read := SsGet(secure, kpRef.value, io);
      if !read.succeed || read.data.None? || read.data.value == "" then None else read.data
  }

  /**
   * `GetStoredAuthState` of lib/db/Auth.ts: the auth slice a (re)start begins with.
   * `kpRef` is the SecureStore key of the current pool's phrase, when there is a current pool.
   */
  function GetStoredAuthState(secure: map<string, string>, kpRef: Option<string>, io: AuthLoadIo): (r: AuthLoad)
    // every result is settled and cascades
    ensures !r.state.loading && r.state.cascadingUpdate
    // the only storage change is the generated id
    ensures r.secure == LoadDeviceId(secure, io).1
    // failing to persist a generated id gives the bare default state
    ensures LoadDeviceId(secure, io).0.None? ==> r.state == DefaultAuth
    // logged in exactly when an id and a non-blank phrase were found and the id is not blank
    ensures r.state.loggedIn <==>
      var id := LoadDeviceId(secure, io).0;
      var kp := FoundKeyPhrase(r.secure, kpRef, io.kpRead);
      id.Some? && kp.Some? && !IsEmptyString(kp.value) && !IsEmptyString(id.value)
    ensures r.state.loggedIn ==>
      r.state.poolKeyPhrase == FoundKeyPhrase(r.secure, kpRef, io.kpRead) &&
      r.state.deviceId == LoadDeviceId(secure, io).0
    // a logged-out state never carries a phrase
    ensures !r.state.loggedIn ==> r.state.poolKeyPhrase.None?
    // no key, or no phrase under it: logged out, but the id is kept
    ensures LoadDeviceId(secure, io).0.Some? && FoundKeyPhrase(r.secure, kpRef, io.kpRead).None? ==>
      r.state == DefaultAuth.(deviceId := LoadDeviceId(secure, io).0)
    // a blank phrase or a blank id: the bare default state
    ensures
      var id := LoadDeviceId(secure, io).0;
      var kp := FoundKeyPhrase(r.secure, kpRef, io.kpRead);
      id.Some? && kp.Some? && (IsEmptyString(kp.value) || IsEmptyString(id.value)) ==> r.state == DefaultAuth
  {
    var (id, secure') := LoadDeviceId(secure, io);
    if id.None? then AuthLoad(DefaultAuth, secure)
    else
      var kp := FoundKeyPhrase(secure', kpRef, io.kpRead);
      if kp.None? then AuthLoad(DefaultAuth.(deviceId := id), secure')
      else if IsEmptyString(kp.value) || IsEmptyString(id.value) then AuthLoad(DefaultAuth, secure')
      else AuthLoad(AuthShape(true, false, true, kp, id), secure')
  }

  /** The auth shape of the older client: `{ logged_in, hasBeenAttempted, pool_key_phrase?, device_id? }`. */
  datatype LegacyAuth = LegacyAuth(loggedIn: bool, hasBeenAttempted: bool, poolKeyPhrase: Option<string>, deviceId: Option<string>)

  /** The context default of the older client: not yet attempted. */
  const LegacyContextDefault := LegacyAuth(false, false, None, None)

  /** The device id the older loader goes on with: the stored one, else the generated one even if saving it failed. */
  function LegacyDeviceId(secure: map<string, string>, io: AuthLoadIo): string {
    if HasStoredId(secure, io) then secure[DEVICE_ID_KEY] else io.generatedId
  }

  /**
   * `defaultAuthState` of lib/Auth.ts: a single phrase under `"key_phrase"`, the
   * result of saving a generated id ignored, and no device id on failure.
   */
  function DefaultAuthState(secure: map<string, string>, io: AuthLoadIo): (r: (LegacyAuth, map<string, string>))
    // every result is an attempt, unlike the context default
    ensures r.0.hasBeenAttempted && r.0 != LegacyContextDefault
    // a generated id is saved if the write completes, and used either way
    ensures r.1 == (if HasStoredId(secure, io) || io.idStore.Threw? then secure else secure[DEVICE_ID_KEY := io.generatedId])
    ensures r.0.loggedIn <==>
      var kp := FoundKeyPhrase(r.1, Some(KEY_PHRASE_KEY), io.kpRead);
      kp.Some? && !IsEmptyString(kp.value) && !IsEmptyString(LegacyDeviceId(secure, io))
    ensures r.0.loggedIn ==>
      r.0.poolKeyPhrase == FoundKeyPhrase(r.1, Some(KEY_PHRASE_KEY), io.kpRead) &&
      r.0.deviceId == Some(LegacyDeviceId(secure, io))
    // every failure is the same bare result, without the device id
    ensures !r.0.loggedIn ==> r.0 == LegacyAuth(false, true, None, None)
  {
    var read := SsGet(secure, DEVICE_ID_KEY, io.idRead);
    var (id, secure') :=
      if !read.succeed || read.data.None? || read.data.value == "" then
        (io.generatedId, StoreItem(secure, DEVICE_ID_KEY, io.generatedId, io.idStore).1)
      else (read.data.value, secure);
    var kp := FoundKeyPhrase(secure', Some(KEY_PHRASE_KEY), io.kpRead);
    if kp.None? then (LegacyAuth(false, true, None, None), secure')
    else if IsEmptyString(kp.value) || IsEmptyString(id) then (LegacyAuth(false, true, None, None), secure')
    else (LegacyAuth(true, true, kp, Some(id)), secure')
  }

  /**
   * A value under `POOL_KEY` read as a pool list. A whole pool slice object has no
   * `current_index`, and its `pools` member is the slice's own `{ current_index,
   * pools, current }` object, which is not a list.
   */
  function AsPools(v: AsValue): (r: StoredPools)
    ensures v.PoolsEntry? ==> r == v.stored
    ensures !v.PoolsEntry? ==> r.currentIndex.None? && Current(r).None?
    ensures v.ContextEntry? ==> (r.pools.NotArray? <==> v.ctx.pools.Some?) && !r.pools.PoolArray?
  {
    match v
    case PoolsEntry(sp) => sp
    case ContextEntry(ctx) => StoredPools(None, if ctx.pools.Some? then NotArray else NoMember)
    case FilesCacheEntry(_) => StoredPools(None, NoMember)
  }

  /** `GetStoredPools`: the settled pool slice, with the stored list when the read finds one. */
  function GetStoredPools(store: map<string, AsValue>, io: Io): (r: PoolCtx)
    ensures !r.loading && r.cascadingUpdate
    ensures r.pools.Some? <==> io.Done? && POOL_KEY in store
    ensures r.pools.Some? ==> r.pools.value == AsPools(store[POOL_KEY])
  {
    var read := AsGet(store, POOL_KEY, io);
    if !read.succeed || read.data.None? then PoolCtx(None, false, true)
    else PoolCtx(Some(AsPools(read.data.value)), false, true)
  }
}
