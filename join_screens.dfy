/**
 * The two join screens: `Join` of the sign-in flow (components/pages/Auth/Join.tsx)
 * and its earlier version (components/pages/Join.tsx). Both validate the form,
 * ask the server to join the pool behind the 20-word code, and store the code
 * and the pool through the app state's members. The server's replies and the
 * outcome of every storage call are parameters.
 */
module JoinScreens {
  import opened Wrappers
  import opened Strings
  import opened ClientTypes
  import opened ClientUtils
  import opened PoolLogic
  import opened AppStateHook

  /**
   * How a join or pool creation ends; only `Submitted` navigates to the home
   * screen. `RequestFailed` is a refusal by the server (the join, or the creation
   * of a pool), and `Rejected` a submission whose promise rejects because
   * `addPool` threw.
   */
  datatype SubmitOutcome = NoDeviceId | InvalidArgs | RequestFailed | StoreFailed | Rejected | Submitted

  /** A device name longer than this (in UTF-16 code units, as `length` counts) is refused. */
  const MAX_NAME_LEN := 50

  /** `IsArgsOk` of both screens: a well-formed code and a non-blank name of at most 50 code units. */
  predicate IsArgsOk(syncCode: string, deviceName: string) {
    IsCodeOk(syncCode) && !IsEmptyString(deviceName) && Utf16Len(deviceName) <= MAX_NAME_LEN
  }

  /** The form check accepts exactly 19 dashes, and for an ASCII name counts characters. */
  lemma ArgsOkMeaning(syncCode: string, deviceName: string)
    requires forall i :: 0 <= i < |deviceName| ==> deviceName[i] as int < 0x80
    ensures IsArgsOk(syncCode, deviceName) <==>
      Count(syncCode, '-') == 19 && (exists i :: 0 <= i < |deviceName| && !IsJsWhitespace(deviceName[i])) && |deviceName| <= MAX_NAME_LEN
  {
    CodeOkIffNineteenDashes(syncCode);
    AsciiLengths(deviceName);
    EmptyStringIsAllWhitespace(deviceName);
  }

  /** The reason the server gives when the device already belongs to the pool. */
  const ALREADY_IN_POOL := "AlreadyInPool"

  /**
   * The pool data the current screen goes on with: the join reply's on success,
   * the fetched pool's when the device is already in the pool, and in either case
   * only when it carries the three pool fields.
   */
  function JoinData(join: FunctionResult<PoolReply>, get: FunctionResult<PoolReply>): (r: Option<PoolReply>)
    ensures r.Some? ==> IsDevicesPool(r.value)
    ensures join.succeed ==> r == (if join.data.Some? && IsDevicesPool(join.data.value) then join.data else None)
    ensures !join.succeed && join.reason == Some(ALREADY_IN_POOL) ==>
      r == (if get.succeed && get.data.Some? && IsDevicesPool(get.data.value) then get.data else None)
    ensures !join.succeed && join.reason != Some(ALREADY_IN_POOL) ==> r.None?
  {
    var data :=
      if !join.succeed && join.reason == Some(ALREADY_IN_POOL) then
        (if !get.succeed || get.data.None? then None else get.data)
      else join.data;
    if (!join.succeed && join.reason != Some(ALREADY_IN_POOL)) || data.None? then None
    else if !IsDevicesPool(data.value) then None
    else data
  }

  /**
   * The earlier screen's check after the same fetch: `succeed` is still the join's,
   * so only a successful join goes on.
   */
  function LegacyJoinData(join: FunctionResult<PoolReply>, get: FunctionResult<PoolReply>): (r: Option<PoolReply>)
    ensures r.Some? <==> join.succeed && join.data.Some? && IsDevicesPool(join.data.value)
    ensures r.Some? ==> r == join.data
  {
    var data :=
      if !join.succeed && join.reason == Some(ALREADY_IN_POOL) then
        (if !get.succeed || get.data.None? then None else get.data)
      else join.data;
    if !join.succeed || data.None? then None
    else if !IsDevicesPool(data.value) then None
    else data
  }

  /**
   * In the earlier screen a device already in the pool can never get in again:
   * even when the pool is fetched, nothing is stored.
   */
  lemma LegacyAlreadyInPoolIsDropped(join: FunctionResult<PoolReply>, get: FunctionResult<PoolReply>)
    requires !join.succeed && join.reason == Some(ALREADY_IN_POOL)
    requires get.succeed && get.data.Some? && IsDevicesPool(get.data.value)
    ensures LegacyJoinData(join, get).None?
    ensures JoinData(join, get) == get.data
  {
  }

  /** The two screens agree on every reply except an "already in pool" refusal. */
  lemma JoinScreensAgree(join: FunctionResult<PoolReply>, get: FunctionResult<PoolReply>)
    requires join.succeed || join.reason != Some(ALREADY_IN_POOL)
    ensures JoinData(join, get) == LegacyJoinData(join, get)
  {
  }

  /** The record a join prepends: the reply's pool under the code's SecureStore key. */
  function JoinedPool(hash: string -> string, syncCode: string, data: PoolReply): (p: StoredPool)
    requires IsDevicesPool(data)
    ensures p == MergeKeyFirst(MakeKeyPhraseKey(hash, syncCode), data)
    ensures data.ssKeyHashedKp.None? ==> p.ssKeyHashedKp == MakeKeyPhraseKey(hash, syncCode)
  {
    MergeKeyFirst(MakeKeyPhraseKey(hash, syncCode), data)
  }

  /** `{ succeed: false }`, what a missing context member yields. */
  function Absent(): FunctionResult<()> {
    FunctionResult(false, None, None)
  }

  /** The form of the current join screen, holding the `SyncCode` and `DeviceName` inputs. */
  class JoinScreen {
    var syncCode: string
    var deviceName: string

    constructor()
      ensures syncCode == "" && deviceName == ""
    {
      syncCode := "";
      deviceName := "";
    }

    /**
     * `SubmitJoinReq`: the checks, the join (with a pool fetch when "already in
     * pool"), then the phrase and the pool stored without cascading. Success
     * needs both stores, and resets both inputs.
     */
    method Submit(app: AppState, join: FunctionResult<PoolReply>, get: FunctionResult<PoolReply>, kpIo: Io, poolIo: Io)
      returns (outcome: SubmitOutcome)
      modifies this, app, app.storage
      ensures old(app.auth.deviceId).None? ==> outcome == NoDeviceId
      ensures old(app.auth.deviceId).Some? && !old(IsArgsOk(syncCode, deviceName)) ==> outcome == InvalidArgs
      ensures old(app.auth.deviceId).Some? && old(IsArgsOk(syncCode, deviceName)) && JoinData(join, get).None? ==> outcome == RequestFailed
      ensures outcome in {NoDeviceId, InvalidArgs, RequestFailed} ==>
        app.auth == old(app.auth) && app.pool == old(app.pool) &&
        app.storage.secure == old(app.storage.secure) && app.storage.asyncStore == old(app.storage.asyncStore) &&
        syncCode == old(syncCode) && deviceName == old(deviceName)
      ensures old(app.auth.deviceId).Some? && old(IsArgsOk(syncCode, deviceName)) && JoinData(join, get).Some? ==>
        var code := old(syncCode);
        var p := JoinedPool(app.hash, code, JoinData(join, get).value);
        (app.authActions ==>
          app.auth == old(app.auth).(poolKeyPhrase := Some(code), cascadingUpdate := false) &&
          app.storage.secure == StoreItem(old(app.storage.secure), MakeKeyPhraseKey(app.hash, code), code, kpIo).1) &&
        (!app.authActions ==> app.auth == old(app.auth) && app.storage.secure == old(app.storage.secure)) &&
        (app.poolActions && IsPoolList(old(app.pool)) ==>
          app.pool == WithPoolAdded(old(app.pool), p, false) &&
          app.storage.asyncStore == StoreItem(old(app.storage.asyncStore), POOL_KEY, PoolsEntry(app.pool.pools.value), poolIo).1) &&
        (!(app.poolActions && IsPoolList(old(app.pool))) ==>
          app.pool == old(app.pool) && app.storage.asyncStore == old(app.storage.asyncStore)) &&
        (outcome == Rejected <==> app.poolActions && !IsPoolList(old(app.pool))) &&
        (outcome == Submitted <==> app.authActions && kpIo.Done? && app.poolActions && IsPoolList(old(app.pool)) && poolIo.Done?) &&
        (outcome != Submitted ==> outcome in {StoreFailed, Rejected} && syncCode == old(syncCode) && deviceName == old(deviceName))
      ensures outcome == Submitted ==> syncCode == "" && deviceName == ""
      ensures app.transfer == old(app.transfer)
      ensures app.authActions == old(app.authActions) && app.poolActions == old(app.poolActions)
    {
      if app.auth.deviceId.None? {
        return NoDeviceId;
      }
      if !IsArgsOk(syncCode, deviceName) {
        return InvalidArgs;
      }
      var code := syncCode;
      var data := JoinData(join, get);
      if data.None? {
        return RequestFailed;
      }
      var kp := Absent();
      if app.authActions {
        kp := app.AddPoolKeyPhrase(code, false, kpIo);
      }
      var stored := Absent();
      if app.poolActions {
        var added := app.AddPool(JoinedPool(app.hash, code, data.value), false, poolIo);
        if added.TypeError? {
          return Rejected;
        }
        stored := added.value;
      }
      if !kp.succeed || !stored.succeed {
        return StoreFailed;
      }
      deviceName := "";
      syncCode := "";
      outcome := Submitted;
    }
  }

  /** The form of the earlier join screen: the same inputs, never reset. */
  class LegacyJoinScreen {
    var syncCode: string
    var deviceName: string

    constructor()
      ensures syncCode == "" && deviceName == ""
    {
      syncCode := "";
      deviceName := "";
    }

    /** The earlier `SubmitJoinReq`: only a successful join is stored, with the default (no) cascading. */
    method Submit(app: AppState, join: FunctionResult<PoolReply>, get: FunctionResult<PoolReply>, kpIo: Io, poolIo: Io)
      returns (outcome: SubmitOutcome)
      modifies app, app.storage
      ensures old(app.auth.deviceId).None? ==> outcome == NoDeviceId
      ensures old(app.auth.deviceId).Some? && !IsArgsOk(syncCode, deviceName) ==> outcome == InvalidArgs
      ensures old(app.auth.deviceId).Some? && IsArgsOk(syncCode, deviceName) && LegacyJoinData(join, get).None? ==> outcome == RequestFailed
      ensures outcome in {NoDeviceId, InvalidArgs, RequestFailed} ==>
        app.auth == old(app.auth) && app.pool == old(app.pool) &&
        app.storage.secure == old(app.storage.secure) && app.storage.asyncStore == old(app.storage.asyncStore)
      ensures old(app.auth.deviceId).Some? && IsArgsOk(syncCode, deviceName) && LegacyJoinData(join, get).Some? ==>
        var p := JoinedPool(app.hash, syncCode, LegacyJoinData(join, get).value);
        (app.authActions ==>
          app.auth == old(app.auth).(poolKeyPhrase := Some(syncCode), cascadingUpdate := false) &&
          app.storage.secure == StoreItem(old(app.storage.secure), MakeKeyPhraseKey(app.hash, syncCode), syncCode, kpIo).1) &&
        (!app.authActions ==> app.auth == old(app.auth) && app.storage.secure == old(app.storage.secure)) &&
        (app.poolActions && IsPoolList(old(app.pool)) ==>
          app.pool == WithPoolAdded(old(app.pool), p, false) &&
          app.storage.asyncStore == StoreItem(old(app.storage.asyncStore), POOL_KEY, PoolsEntry(app.pool.pools.value), poolIo).1) &&
        (!(app.poolActions && IsPoolList(old(app.pool))) ==>
          app.pool == old(app.pool) && app.storage.asyncStore == old(app.storage.asyncStore)) &&
        (outcome == Rejected <==> app.poolActions && !IsPoolList(old(app.pool))) &&
        (outcome == Submitted <==> app.authActions && kpIo.Done? && app.poolActions && IsPoolList(old(app.pool)) && poolIo.Done?) &&
        (outcome != Submitted ==> outcome in {StoreFailed, Rejected})
      ensures app.transfer == old(app.transfer)
      ensures app.authActions == old(app.authActions) && app.poolActions == old(app.poolActions)
    {
      if app.auth.deviceId.None? {
        return NoDeviceId;
      }
      if !IsArgsOk(syncCode, deviceName) {
        return InvalidArgs;
      }
      var data := LegacyJoinData(join, get);
      if data.None? {
        return RequestFailed;
      }
      var kp := Absent();
      if app.authActions {
        kp := app.AddPoolKeyPhrase(syncCode, false, kpIo);
      }
      var stored := Absent();
      if app.poolActions {
        var added := app.AddPool(JoinedPool(app.hash, syncCode, data.value), false, poolIo);
        if added.TypeError? {
          return Rejected;
        }
        stored := added.value;
      }
      if !kp.succeed || !stored.succeed {
        return StoreFailed;
      }
      outcome := Submitted;
    }
  }
}
