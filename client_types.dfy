/**
 * The values the mobile client passes around: its `{ succeed, data?, reason? }`
 * results, the records it receives from the server (every JSON field optional,
 * since the client checks their presence with `in`), the records it stores,
 * the three state slices, and the two device stores.
 */
module ClientTypes {
  import opened Wrappers

  /** `{ succeed, data?, reason? }`, the result of every client helper and request. */
  datatype FunctionResult<T> = FunctionResult(succeed: bool, data: Option<T>, reason: Option<string>)

  function Succeeded<T>(): FunctionResult<T> {
    FunctionResult(true, None, None)
  }

  function Failed<T>(reason: Option<string>): FunctionResult<T> {
    FunctionResult(false, None, reason)
  }

  /** Whether one call into device storage completed or threw (with the text of the error). */
  datatype Io = Done | Threw(error: string)

  /**
   * How a call into client code ends: with its value, or with a `TypeError` thrown
   * by the code itself (a member read on `undefined`, a spread or a method call on
   * something that is not a list).
   */
  datatype Completion<T> = Returned(value: T) | TypeError

  /** A pool as the server sends it: `pool_name`, `devices_id`, `devices_id_to_name`, each possibly missing. */
  datatype PoolReply = PoolReply(
    ssKeyHashedKp: Option<string>,
    poolName: Option<string>,
    devicesId: Option<seq<string>>,
    devicesIdToName: Option<map<string, string>>)

  /** The three fields the client checks with `in` before using a pool. */
  predicate IsDevicesPool(p: PoolReply) {
    p.poolName.Some? && p.devicesId.Some? && p.devicesIdToName.Some?
  }

  /** A pool as the client keeps it, with the SecureStore key of its key phrase. */
  datatype StoredPool = StoredPool(
    ssKeyHashedKp: string,
    poolName: string,
    devicesId: seq<string>,
    devicesIdToName: map<string, string>)

  /**
   * The `pools` member of `{ current_index, pools }` as the client finds it: absent,
   * a list, or an object that is not a list (what a whole persisted pool slice
   * yields when it is read back as a pool list).
   */
  datatype PoolsMember = NoMember | PoolArray(items: seq<StoredPool>) | NotArray

  /**
   * `{ current_index, pools }`. Both are optional because a value read back from
   * AsyncStorage need not have them; every state the client builds has both.
   */
  datatype StoredPools = StoredPools(currentIndex: Option<int>, pools: PoolsMember)

  /**
   * The `current` getter: `pools[current_index]`, absent when either is missing, when
   * the index is out of range, or when `pools` is not a list.
   */
  function Current(sp: StoredPools): (r: Option<StoredPool>)
    ensures r.Some? <==> sp.currentIndex.Some? && sp.pools.PoolArray? && 0 <= sp.currentIndex.value < |sp.pools.items|
    ensures r.Some? ==> r.value == sp.pools.items[sp.currentIndex.value]
  {
    if sp.currentIndex.Some? && sp.pools.PoolArray? && 0 <= sp.currentIndex.value < |sp.pools.items|
    then Some(sp.pools.items[sp.currentIndex.value])
    else None
  }

  /** The pool slice: `{ pools?, loading, cascading_update }`. */
  datatype PoolCtx = PoolCtx(pools: Option<StoredPools>, loading: bool, cascadingUpdate: bool)

  /** The auth slice: `{ logged_in, loading, cascading_update, pool_key_phrase?, device_id? }`. */
  datatype AuthShape = AuthShape(
    loggedIn: bool,
    loading: bool,
    cascadingUpdate: bool,
    poolKeyPhrase: Option<string>,
    deviceId: Option<string>)

  /** A transfer as the server sends it: `_id`, `to`, `from`, `files_id`, each possibly missing. */
  datatype TransferReply = TransferReply(
    id: Option<string>,
    to: Option<string>,
    from: Option<string>,
    filesId: Option<seq<string>>)

  /** The four fields the client checks with `in` before using a transfer. */
  predicate IsTransfer(t: TransferReply) {
    t.id.Some? && t.to.Some? && t.from.Some? && t.filesId.Some?
  }

  /** The transfer slice `[isLoading, isSuccess, transfers]`; `isSuccess` is `null` while unknown. */
  datatype TransferState = TransferState(isLoading: bool, isSuccess: Option<bool>, transfers: seq<TransferReply>)

  /**
   * `uploadDate.$date.$numberLong`: text when it comes from the server's
   * extended JSON, a number (or `NaN`) once the client has passed it through `parseInt`.
   */
  datatype NumberLong = LongText(text: string) | LongNumber(n: int) | LongNaN

  /** A file description as the server sends it: `_id.$oid`, `filename`, `chunkSize`, `length`, `uploadDate`. */
  datatype FileInfoReply = FileInfoReply(
    id: Option<string>,
    filename: Option<string>,
    chunkSize: Option<int>,
    length: Option<int>,
    uploadDate: Option<NumberLong>)

  /** The cached `{ fi, exp }` entry of a transfer's files; `exp` is absent when it was not a number. */
  datatype CachedFilesInfo = CachedFilesInfo(fi: seq<FileInfoReply>, exp: Option<int>)

  /**
   * What a JSON value under an AsyncStorage key decodes to: a pool list, a whole
   * pool context object, or a files-info cache entry.
   */
  datatype AsValue = PoolsEntry(stored: StoredPools) | ContextEntry(ctx: PoolCtx) | FilesCacheEntry(cache: CachedFilesInfo)

  /** The key of the device id in SecureStore. */
  const DEVICE_ID_KEY := "device_id"
  /** The key of the pool list in AsyncStorage. */
  const POOL_KEY := "device_pool"
  /** The single key-phrase key of the older auth loader. */
  const KEY_PHRASE_KEY := "key_phrase"

  /** The SecureStore key of a pool's key phrase: `"key_phrase_"` followed by the SHA3-256 hex digest of the phrase. */
  function MakeKeyPhraseKey(hash: string -> string, keyPhrase: string): (k: string)
    ensures |k| >= 11 && k[..11] == "key_phrase_"
  {
    "key_phrase_" + hash(keyPhrase)
  }

  /** Two phrases share a SecureStore slot only if their digests collide. */
  lemma KeyPhraseKeysDistinct(hash: string -> string, a: string, b: string)
    requires hash(a) != hash(b)
    ensures MakeKeyPhraseKey(hash, a) != MakeKeyPhraseKey(hash, b)
  {
    var ka, kb := MakeKeyPhraseKey(hash, a), MakeKeyPhraseKey(hash, b);
    assert ka[11..] == hash(a);
    assert kb[11..] == hash(b);
  }

  /**
   * `SS_Get`: a thrown read gives the error as reason, a missing key gives a bare
   * failure, otherwise the stored value. Values are kept already JSON-decoded.
   */
  function SsGet(secure: map<string, string>, key: string, io: Io): (r: FunctionResult<string>)
    ensures r.succeed <==> io.Done? && key in secure
    ensures r.succeed ==> r.data == Some(secure[key])
    ensures !r.succeed ==> r.data.None?
    ensures r.reason.Some? <==> io.Threw?
  {
    if io.Threw? then Failed(Some(io.error))
    else if key !in secure then Failed(None)
    else FunctionResult(true, Some(secure[key]), None)
  }

  /**
   * `SS_Store` and `AS_Store`, which differ only in the store they write: the new
   * value under `key` when the write completes, the store unchanged when it throws.
   */
  function StoreItem<V>(store: map<string, V>, key: string, value: V, io: Io): (r: (FunctionResult<()>, map<string, V>))
    ensures r.0.succeed <==> io.Done?
    ensures io.Done? ==> r.1 == store[key := value] && r.0.reason.None?
    ensures io.Threw? ==> r.1 == store && r.0.reason == Some(io.error)
  {
    if io.Done? then (Succeeded(), store[key := value]) else (Failed(Some(io.error)), store)
  }

  /** `AS_Get`: like `SS_Get`, except that a missing key fails with reason "value not found". */
  function AsGet(store: map<string, AsValue>, key: string, io: Io): (r: FunctionResult<AsValue>)
    ensures r.succeed <==> io.Done? && key in store
    ensures r.succeed ==> r.data == Some(store[key])
    ensures !r.succeed ==> r.data.None? && r.reason.Some?
  {
    if io.Threw? then Failed(Some(io.error))
    else if key !in store then Failed(Some("value not found"))
    else FunctionResult(true, Some(store[key]), None)
  }

  /** The device's two stores, shared by every part of the client. */
  class Storage {
    /** SecureStore: the device id and the key phrases. */
    var secure: map<string, string>
    /** AsyncStorage: the pool list and the files-info cache. */
    var asyncStore: map<string, AsValue>

    constructor(secure: map<string, string>, asyncStore: map<string, AsValue>)
      ensures this.secure == secure && this.asyncStore == asyncStore
    {
      this.secure := secure;
      this.asyncStore := asyncStore;
    }
  }
}
