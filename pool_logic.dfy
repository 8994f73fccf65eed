/**
 * The pool-slice transitions shared by the app-wide state hook (lib/hooks/AppState.ts)
 * and the earlier pool hook (lib/hooks/Pool.ts): prepend a pool, select one,
 * replace one with `splice`, and the checks and merges of `refresh_pool`.
 */
module PoolLogic {
  import opened Wrappers
  import opened ClientTypes
  import opened ClientUtils

  /** `curState.pools?.pools ?? []`: the slice's `pools` member, an empty list when there is none. */
  function PoolsOrEmpty(ctx: PoolCtx): PoolsMember {
    if ctx.pools.Some? && !ctx.pools.value.pools.NoMember? then ctx.pools.value.pools else PoolArray([])
  }

  /**
   * Whether that value is a list. Only then can `addPool` spread it and
   * `updatePool` call its `splice`; on anything else both throw a `TypeError`.
   */
  predicate IsPoolList(ctx: PoolCtx) {
    PoolsOrEmpty(ctx).PoolArray?
  }

  /** The pools of the slice as a list: empty when there is no list. */
  function PoolList(ctx: PoolCtx): seq<StoredPool> {
    if IsPoolList(ctx) then PoolsOrEmpty(ctx).items else []
  }

  /** The only slices that are not lists: a `pools` object whose own `pools` member is not one. */
  lemma NotPoolListMeans(ctx: PoolCtx)
    ensures !IsPoolList(ctx) <==> ctx.pools.Some? && ctx.pools.value.pools.NotArray?
    ensures ctx.pools.Some? && Current(ctx.pools.value).Some? ==> IsPoolList(ctx)
  {
  }

  /** `addPool` once the spread succeeds: `pool` first, the old list after it, the index on the new pool, cascading set to the flag. */
  function WithPoolAdded(ctx: PoolCtx, pool: StoredPool, withCascade: bool): (r: PoolCtx)
    requires IsPoolList(ctx)
    ensures r.pools.Some? && r.pools.value.currentIndex == Some(0) && IsPoolList(r)
    ensures PoolList(r) == [pool] + PoolList(ctx)
    ensures Current(r.pools.value) == Some(pool)
    ensures r.loading == ctx.loading && r.cascadingUpdate == withCascade
  {
    PoolCtx(Some(StoredPools(Some(0), PoolArray([pool] + PoolList(ctx)))), ctx.loading, withCascade)
  }

  /**
   * `setPool`: the index set to `newIndex` without any bounds check, the `pools`
   * member kept as it is (a non-list included), cascading set.
   */
  function WithIndex(ctx: PoolCtx, newIndex: int): (r: PoolCtx)
    ensures r.pools.Some? && r.pools.value.currentIndex == Some(newIndex)
    ensures PoolList(r) == PoolList(ctx) && IsPoolList(r) == IsPoolList(ctx)
    ensures r.loading == ctx.loading && r.cascadingUpdate
    ensures Current(r.pools.value).Some? <==> IsPoolList(ctx) && 0 <= newIndex < |PoolList(ctx)|
  {
    PoolCtx(Some(StoredPools(Some(newIndex), PoolsOrEmpty(ctx))), ctx.loading, true)
  }

  /**
   * `a.splice(index, 1, x)`: a negative index counts from the end (clamped at 0),
   * an index past the end is clamped to the length, and at most one element is removed.
   */
  function Splice<T>(a: seq<T>, index: int, x: T): (r: seq<T>)
    // in range: exactly that element is replaced
    ensures 0 <= index < |a| ==> |r| == |a| && r[index] == x && forall j :: 0 <= j < |a| && j != index ==> r[j] == a[j]
    // at or past the end: appended
    ensures index >= |a| ==> r == a + [x]
    // from the end: the same as the non-negative position it denotes
    ensures -|a| <= index < 0 ==> r == Splice(a, |a| + index, x)
    // before the start: the first element is replaced
    ensures index < -|a| ==> r == Splice(a, 0, x)
    decreases if index < 0 then 1 else 0
  {
    var start := if index < 0 then (if |a| + index < 0 then 0 else |a| + index) else (if index > |a| then |a| else index);
    var removed := if start < |a| then 1 else 0;
    a[..start] + [x] + a[start + removed..]
  }

  /**
   * `curState.pools?.pools?.splice(index, 1, pool)` on a slice holding a list
   * (a missing member is skipped by `?.`). It happens in place, whether or not
   * `updatePool` then succeeds.
   */
  function Spliced(ctx: PoolCtx, index: int, pool: StoredPool): PoolCtx
    requires IsPoolList(ctx)
  {
    if ctx.pools.Some? && ctx.pools.value.pools.PoolArray?
    then ctx.(pools := Some(ctx.pools.value.(pools := PoolArray(Splice(ctx.pools.value.pools.items, index, pool)))))
    else ctx
  }

  /** `updatePool` after the splice: `None` (failure) without a current index, else the same index, the spliced list, cascading. */
  function WithReplaced(ctx: PoolCtx, index: int, pool: StoredPool): (r: Option<PoolCtx>)
    requires IsPoolList(ctx)
    ensures r.None? <==> ctx.pools.None? || ctx.pools.value.currentIndex.None?
    ensures r.Some? ==>
      r.value.pools.Some? && r.value.pools.value.currentIndex == ctx.pools.value.currentIndex &&
      IsPoolList(r.value) && PoolList(r.value) == PoolList(Spliced(ctx, index, pool)) &&
      r.value.loading == ctx.loading && r.value.cascadingUpdate
  {
    var spliced := Spliced(ctx, index, pool);
    if spliced.pools.None? || spliced.pools.value.currentIndex.None? then None
    else Some(PoolCtx(Some(StoredPools(spliced.pools.value.currentIndex, PoolArray(PoolList(spliced)))), ctx.loading, true))
  }

  /**
   * The splice leaves a missing member missing and changes only the list
   * otherwise: `Splice` of the old list, with the index and both flags kept.
   */
  lemma SplicedKeepsRest(ctx: PoolCtx, index: int, pool: StoredPool)
    requires IsPoolList(ctx)
    ensures var r := Spliced(ctx, index, pool);
      r.loading == ctx.loading && r.cascadingUpdate == ctx.cascadingUpdate &&
      r.pools.Some? == ctx.pools.Some? && IsPoolList(r) &&
      (ctx.pools.Some? ==> r.pools.value.currentIndex == ctx.pools.value.currentIndex) &&
      (ctx.pools.Some? && ctx.pools.value.pools.PoolArray? ==> PoolList(r) == Splice(PoolList(ctx), index, pool)) &&
      (ctx.pools.None? || ctx.pools.value.pools.NoMember? ==> r == ctx)
  {
  }

  /** With the index in range, `updatePool` touches only the entry at `index` and keeps the selection. */
  lemma ReplaceInRange(ctx: PoolCtx, index: int, pool: StoredPool)
    requires ctx.pools.Some? && ctx.pools.value.currentIndex.Some? && ctx.pools.value.pools.PoolArray?
    requires 0 <= index < |PoolList(ctx)|
    ensures
      var r := WithReplaced(ctx, index, pool).value;
      |PoolList(r)| == |PoolList(ctx)| && PoolList(r)[index] == pool &&
      (forall j :: 0 <= j < |PoolList(ctx)| && j != index ==> PoolList(r)[j] == PoolList(ctx)[j]) &&
      r.pools.value.currentIndex == ctx.pools.value.currentIndex
  {
  }

  /** AppState's merge `{ ...data, SS_key_hashed_kp: ss_key }`: the stored key comes last and always wins. */
  function MergeKeyLast(data: PoolReply, ssKey: string): (r: StoredPool)
    requires IsDevicesPool(data)
    ensures r.ssKeyHashedKp == ssKey
    ensures r.poolName == data.poolName.value && r.devicesId == data.devicesId.value && r.devicesIdToName == data.devicesIdToName.value
  {
    StoredPool(ssKey, data.poolName.value, data.devicesId.value, data.devicesIdToName.value)
  }

  /** The merge `{ SS_key_hashed_kp: ss_key, ...data }` of Pool.ts and the join screens: a key in the reply overrides. */
  function MergeKeyFirst(ssKey: string, data: PoolReply): (r: StoredPool)
    requires IsDevicesPool(data)
    ensures r.ssKeyHashedKp == (if data.ssKeyHashedKp.Some? then data.ssKeyHashedKp.value else ssKey)
    ensures r.poolName == data.poolName.value && r.devicesId == data.devicesId.value && r.devicesIdToName == data.devicesIdToName.value
  {
    StoredPool(data.ssKeyHashedKp.GetOr(ssKey), data.poolName.value, data.devicesId.value, data.devicesIdToName.value)
  }

  /** The two merge orders agree exactly when the reply carries no key of its own (or the same key). */
  lemma MergeOrdersAgree(ssKey: string, data: PoolReply)
    requires IsDevicesPool(data)
    ensures MergeKeyFirst(ssKey, data) == MergeKeyLast(data, ssKey) <==> data.ssKeyHashedKp.None? || data.ssKeyHashedKp == Some(ssKey)
  {
  }

  /**
   * `pools?.current.SS_key_hashed_kp` once the other checks pass: with an index
   * set but no current pool (an index outside the list, or a member that is not a
   * list), `current` is undefined and reading its key throws a `TypeError`.
   */
  predicate RefreshThrows(keyPhrase: Option<string>, reply: FunctionResult<PoolReply>, ctx: PoolCtx) {
    keyPhrase.Some? && IsCodeOk(keyPhrase.value) &&
    reply.succeed && reply.data.Some? && IsDevicesPool(reply.data.value) &&
    ctx.pools.Some? && ctx.pools.value.currentIndex.Some? && Current(ctx.pools.value).None?
  }

  /** What `refresh_pool` acts on once its checks pass: the current index, the reply, the stored key. */
  datatype RefreshTarget = RefreshTarget(index: int, data: PoolReply, ssKey: string)

  /**
   * The checks of `refresh_pool`: a phrase that passes `IsCodeOk`, a successful
   * reply carrying the three pool fields, a current index and the current pool's key.
   * A current index with no current pool is `RefreshThrows`: there is no target.
   */
  function RefreshTargetOf(keyPhrase: Option<string>, reply: FunctionResult<PoolReply>, ctx: PoolCtx): (r: Option<RefreshTarget>)
    ensures r.Some? <==>
      keyPhrase.Some? && IsCodeOk(keyPhrase.value) &&
      reply.succeed && reply.data.Some? && IsDevicesPool(reply.data.value) &&
      ctx.pools.Some? && Current(ctx.pools.value).Some?
    ensures r.Some? ==> IsPoolList(ctx)
    ensures RefreshThrows(keyPhrase, reply, ctx) ==> r.None?
    ensures r.Some? ==>
      r.value.data == reply.data.value && IsDevicesPool(r.value.data) &&
      Some(r.value.index) == ctx.pools.value.currentIndex &&
      r.value.ssKey == Current(ctx.pools.value).value.ssKeyHashedKp
  {
    if keyPhrase.None? || !IsCodeOk(keyPhrase.value) then None
    else if !reply.succeed || reply.data.None? || !IsDevicesPool(reply.data.value) then None
    else if ctx.pools.None? || ctx.pools.value.currentIndex.None? then None
    else match Current(ctx.pools.value)
      case None => None
      case Some(cur) => Some(RefreshTarget(ctx.pools.value.currentIndex.value, reply.data.value, cur.ssKeyHashedKp))
  }

  /** A refresh in AppState rewrites the current pool with the reply's fields but keeps its SecureStore key. */
  lemma RefreshKeepsKey(keyPhrase: Option<string>, reply: FunctionResult<PoolReply>, ctx: PoolCtx)
    requires RefreshTargetOf(keyPhrase, reply, ctx).Some?
    ensures
      var t := RefreshTargetOf(keyPhrase, reply, ctx).value;
      var r := WithReplaced(ctx, t.index, MergeKeyLast(t.data, t.ssKey)).value;
      Current(r.pools.value).Some? &&
      Current(r.pools.value).value.ssKeyHashedKp == Current(ctx.pools.value).value.ssKeyHashedKp &&
      Current(r.pools.value).value.poolName == reply.data.value.poolName.value
  {
    var t := RefreshTargetOf(keyPhrase, reply, ctx).value;
    ReplaceInRange(ctx, t.index, MergeKeyLast(t.data, t.ssKey));
  }
}
