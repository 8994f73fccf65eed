/**
 * The pool creation screen `NewPool` of the sign-in flow
 * (components/pages/Auth/NewPool.tsx): validate the two names, ask the server
 * for a new pool, then store its key phrase and a one-device pool record
 * without cascading. The server's reply and the storage outcomes are parameters.
 */
module NewPoolScreen {
  import opened Wrappers
  import opened ClientTypes
  import opened ClientUtils
  import opened PoolLogic
  import opened AppStateHook
  import opened JoinScreens

  /** `IsArgsOk`: both names non-blank; neither length is checked here. */
  predicate IsNewPoolArgsOk(deviceName: string, poolName: string) {
    !IsEmptyString(deviceName) && !IsEmptyString(poolName)
  }

  /** The key phrase of the new pool: present only for a successful reply with a non-blank phrase. */
  function CreatedKeyPhrase(reply: FunctionResult<string>): (r: Option<string>)
    ensures r.Some? <==> reply.succeed && reply.data.Some? && !IsEmptyString(reply.data.value)
    ensures r.Some? ==> r == reply.data && |r.value| > 0
  {
    if !reply.succeed || reply.data.None? || reply.data.value == "" || IsEmptyString(reply.data.value) then None
    else reply.data
  }

  /** The record stored for the new pool: this device alone, under its own name. */
  function NewPoolRecord(hash: string -> string, keyPhrase: string, deviceId: string, poolName: string, deviceName: string): (p: StoredPool)
    ensures p.devicesId == [deviceId] && p.poolName == poolName
    ensures p.devicesIdToName.Keys == {deviceId} && p.devicesIdToName[deviceId] == deviceName
    ensures p.ssKeyHashedKp == MakeKeyPhraseKey(hash, keyPhrase)
  {
    StoredPool(MakeKeyPhraseKey(hash, keyPhrase), poolName, [deviceId], map[deviceId := deviceName])
  }

  /** After a creation the current pool is the new one, with this device as its only member. */
  lemma CreatedPoolIsCurrent(ctx: PoolCtx, hash: string -> string, keyPhrase: string, deviceId: string, poolName: string, deviceName: string)
    requires IsPoolList(ctx)
    ensures
      var r := WithPoolAdded(ctx, NewPoolRecord(hash, keyPhrase, deviceId, poolName, deviceName), false);
      Current(r.pools.value).Some? && Current(r.pools.value).value.devicesId == [deviceId] &&
      deviceId in Current(r.pools.value).value.devicesIdToName &&
      Current(r.pools.value).value.devicesIdToName[deviceId] == deviceName && !r.cascadingUpdate
  {
  }

  /** The form, holding the `PoolName` and `DeviceName` inputs. */
  class NewPoolForm {
    var poolName: string
    var deviceName: string

    constructor()
      ensures poolName == "" && deviceName == ""
    {
      poolName := "";
      deviceName := "";
    }

    /**
     * `SubmitNewPool`: the checks, the creation, then both stores; success needs
     * both, and resets the device name only.
     */
    method Submit(app: AppState, reply: FunctionResult<string>, kpIo: Io, poolIo: Io) returns (outcome: SubmitOutcome)
      modifies this, app, app.storage
      ensures old(app.auth.deviceId).None? ==> outcome == NoDeviceId
      ensures old(app.auth.deviceId).Some? && !old(IsNewPoolArgsOk(deviceName, poolName)) ==> outcome == InvalidArgs
      ensures old(app.auth.deviceId).Some? && old(IsNewPoolArgsOk(deviceName, poolName)) && CreatedKeyPhrase(reply).None? ==>
        outcome == RequestFailed
      ensures outcome in {NoDeviceId, InvalidArgs, RequestFailed} ==>
        app.auth == old(app.auth) && app.pool == old(app.pool) && deviceName == old(deviceName) &&
        app.storage.secure == old(app.storage.secure) && app.storage.asyncStore == old(app.storage.asyncStore)
      ensures old(app.auth.deviceId).Some? && old(IsNewPoolArgsOk(deviceName, poolName)) && CreatedKeyPhrase(reply).Some? ==>
        var kp := CreatedKeyPhrase(reply).value;
        var p := NewPoolRecord(app.hash, kp, old(app.auth.deviceId).value, old(poolName), old(deviceName));
        (app.authActions ==>
          app.auth == old(app.auth).(poolKeyPhrase := Some(kp), cascadingUpdate := false) &&
          app.storage.secure == StoreItem(old(app.storage.secure), MakeKeyPhraseKey(app.hash, kp), kp, kpIo).1) &&
        (!app.authActions ==> app.auth == old(app.auth) && app.storage.secure == old(app.storage.secure)) &&
        (app.poolActions && IsPoolList(old(app.pool)) ==>
          app.pool == WithPoolAdded(old(app.pool), p, false) &&
          app.storage.asyncStore == StoreItem(old(app.storage.asyncStore), POOL_KEY, PoolsEntry(app.pool.pools.value), poolIo).1) &&
        (!(app.poolActions && IsPoolList(old(app.pool))) ==>
          app.pool == old(app.pool) && app.storage.asyncStore == old(app.storage.asyncStore)) &&
        (outcome == Rejected <==> app.poolActions && !IsPoolList(old(app.pool))) &&
        (outcome == Submitted <==> app.authActions && kpIo.Done? && app.poolActions && IsPoolList(old(app.pool)) && poolIo.Done?) &&
        (outcome != Submitted ==> outcome in {StoreFailed, Rejected} && deviceName == old(deviceName))
      ensures outcome == Submitted ==> deviceName == ""
      ensures poolName == old(poolName) && app.transfer == old(app.transfer)
      ensures app.authActions == old(app.authActions) && app.poolActions == old(app.poolActions)
    {
      if app.auth.deviceId.None? {
        return NoDeviceId;
      }
      if !IsNewPoolArgsOk(deviceName, poolName) {
        return InvalidArgs;
      }
      var deviceId := app.auth.deviceId.value;
      var created := CreatedKeyPhrase(reply);
      if created.None? {
        return RequestFailed;
      }
      var kp := created.value;
      var kpStored := Absent();
      if app.authActions {
        kpStored := app.AddPoolKeyPhrase(kp, false, kpIo);
      }
      var poolStored := Absent();
      if app.poolActions {
        var added := app.AddPool(NewPoolRecord(app.hash, kp, deviceId, poolName, deviceName), false, poolIo);
        if added.TypeError? {
          return Rejected;
        }
        poolStored := added.value;
      }
      if !kpStored.succeed || !poolStored.succeed {
        return StoreFailed;
      }
      deviceName := "";
      outcome := Submitted;
    }
  }
}
