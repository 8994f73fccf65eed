/**
 * The transfer detail screen `ViewTransfer`
 * (components/pages/Home/Inbox/ViewTransfer.tsx): the lookup of the viewed
 * transfer, the files-info fetch with its half-hour AsyncStorage cache, the
 * normalisation of upload dates through `parseInt`, and the two deletions.
 */
module ViewTransferScreen {
  import opened Wrappers
  import opened Strings
  import opened ClientTypes

  /** The lifetime of a cached files-info entry: 30 minutes, in milliseconds. */
  const CACHE_LIFETIME := 1000 * 60 * 30

  /** `transfers.find(({ _id }) => _id === transfer_id)`: the first transfer with that id. */
  function FindTransfer(transfers: seq<TransferReply>, id: string): (r: Option<TransferReply>)
    ensures r.None? <==> forall i :: 0 <= i < |transfers| ==> transfers[i].id != Some(id)
    ensures r.Some? ==> r.value.id == Some(id)
    ensures r.Some? ==>
      exists i :: 0 <= i < |transfers| && transfers[i] == r.value && (forall j :: 0 <= j < i ==> transfers[j].id != Some(id))
  {
    if |transfers| == 0 then None
    else if transfers[0].id == Some(id) then Some(transfers[0])
    else
      var r := FindTransfer(transfers[1..], id);
      assert forall i :: 1 <= i < |transfers| ==> transfers[i] == transfers[1..][i - 1];
      r
  }

  // ---- parseInt -------------------------------------------------------------

  /** The longest prefix of `s` made of digits of the radix. */
  function DigitPrefix(s: string, radix: nat): (d: string)
    ensures |d| <= |s| && d == s[..|d|]
    ensures forall i :: 0 <= i < |d| ==> IsDigit(d[i], radix)
    ensures |d| < |s| ==> !IsDigit(s[|d|], radix)
  {
    if |s| == 0 || !IsDigit(s[0], radix) then ""
    else [s[0]] + DigitPrefix(s[1..], radix)
  }

  /**
   * JavaScript's `parseInt(s)` without a radix: leading white space skipped,
   * an optional sign, `0x`/`0X` selecting radix 16, then the longest run of
   * digits; `NaN` when there is none.
   */
  function JsParseInt(s: string): (r: NumberLong)
    ensures r.LongNumber? || r.LongNaN?
  {
    var t := TrimStartBy(s, IsJsWhitespace);
    var negative := |t| > 0 && t[0] == '-';
    var u := if |t| > 0 && (t[0] == '-' || t[0] == '+') then t[1..] else t;
    var hex := |u| >= 2 && u[0] == '0' && (u[1] == 'x' || u[1] == 'X');
    var radix := if hex then 16 else 10;
    var d := DigitPrefix(if hex then u[2..] else u, radix);
    if |d| == 0 then LongNaN
    else LongNumber(if negative then -(DigitsValue(d, radix) as int) else DigitsValue(d, radix))
  }

  lemma {:induction false} DigitPrefixOfDigits(s: string, radix: nat)
    requires forall i :: 0 <= i < |s| ==> IsDigit(s[i], radix)
    ensures DigitPrefix(s, radix) == s
  {
    if |s| > 0 {
      DigitPrefixOfDigits(s[1..], radix);
    }
  }

  /** The digits after the sign: a decimal numeral is never taken for a `0x` prefix. */
  lemma ParseDigits(s: string)
    requires |s| > 0 && forall i :: 0 <= i < |s| ==> '0' <= s[i] <= '9'
    ensures !(|s| >= 2 && s[0] == '0' && (s[1] == 'x' || s[1] == 'X'))
    ensures DigitPrefix(s, 10) == s
  {
    DigitPrefixOfDigits(s, 10);
  }

  /** A non-empty run of decimal digits is read as its value. */
  lemma ParseAllDigits(s: string)
    requires |s| > 0 && forall i :: 0 <= i < |s| ==> '0' <= s[i] <= '9'
    ensures JsParseInt(s) == LongNumber(DigitsValue(s, 10))
  {
    assert !IsJsWhitespace(s[0]);
    assert TrimStartBy(s, IsJsWhitespace) == s;
    ParseDigits(s);
  }

  /** `parseInt` reads back every decimal numeral. */
  lemma ParseIntDecimal(n: nat)
    ensures JsParseInt(DecimalText(n)) == LongNumber(n)
  {
    ParseAllDigits(DecimalText(n));
    DecimalTextValue(n);
  }

  /** ... and every negative one. */
  lemma ParseIntNegative(n: nat)
    ensures JsParseInt("-" + DecimalText(n)) == LongNumber(-(n as int))
  {
    var s := DecimalText(n);
    var m := "-" + s;
    assert !IsJsWhitespace(m[0]);
    assert TrimStartBy(m, IsJsWhitespace) == m;
    assert m[1..] == s;
    ParseDigits(s);
    DecimalTextValue(n);
  }

  /** An unsigned decimal start: `parseInt` reads the leading run of digits. */
  lemma ParseUnsigned(t: string)
    requires |t| > 0 && '0' <= t[0] <= '9'
    requires !(|t| >= 2 && t[0] == '0' && (t[1] == 'x' || t[1] == 'X'))
    ensures JsParseInt(t) == LongNumber(DigitsValue(DigitPrefix(t, 10), 10))
  {
    assert !IsJsWhitespace(t[0]);
    assert TrimStartBy(t, IsJsWhitespace) == t;
  }

  /**
   * `parseInt` stops at the first character that is not a digit, unless that
   * character turns a leading `0` into the `0x` prefix.
   */
  lemma ParseIntStopsAtNonDigit(n: nat, rest: string)
    requires |rest| > 0 && !IsDigit(rest[0], 10) && rest[0] != 'x' && rest[0] != 'X'
    ensures JsParseInt(DecimalText(n) + rest) == LongNumber(n)
  {
    var s := DecimalText(n);
    var t := s + rest;
    assert t[0] == s[0];
    assert t[1] == (if |s| >= 2 then s[1] else rest[0]);
    DigitPrefixAppend(s, rest, 10);
    ParseUnsigned(t);
    DecimalTextValue(n);
  }

  lemma {:induction false} DigitPrefixAppend(s: string, rest: string, radix: nat)
    requires forall i :: 0 <= i < |s| ==> IsDigit(s[i], radix)
    requires |rest| > 0 && !IsDigit(rest[0], radix)
    ensures DigitPrefix(s + rest, radix) == s
  {
    if |s| > 0 {
      assert (s + rest)[1..] == s[1..] + rest;
      DigitPrefixAppend(s[1..], rest, radix);
    } else {
      assert s + rest == rest;
    }
  }

  /** A JSON text with no digits at all parses to `NaN`. */
  function ParsedDate(v: NumberLong): (r: NumberLong)
    ensures r.LongNumber? || r.LongNaN?
    ensures v.LongText? ==> r == JsParseInt(v.text)
    ensures !v.LongText? ==> r == v
  {
    // A number already parsed (read back from the cache) is an integer, and
    // `parseInt(String(n))` gives it back; `NaN` is cached as `null`, which parses to `NaN`.
    match v
    case LongText(t) => JsParseInt(t)
    case LongNumber(n) => LongNumber(n)
    case LongNaN => LongNaN
  }

  // ---- files info -----------------------------------------------------------

  /** The five members checked with `in` before a file description is used. */
  predicate IsFileInfo(fi: FileInfoReply) {
    fi.id.Some? && fi.filename.Some? && fi.chunkSize.Some? && fi.length.Some? && fi.uploadDate.Some?
  }

  /** The state copy of one description: only the upload date is replaced, by its `parseInt`. */
  function Normalise(fi: FileInfoReply): (r: FileInfoReply)
    requires IsFileInfo(fi)
    ensures r.id == fi.id && r.filename == fi.filename && r.chunkSize == fi.chunkSize && r.length == fi.length
    ensures r.uploadDate == Some(ParsedDate(fi.uploadDate.value))
    ensures IsFileInfo(r)
  {
    fi.(uploadDate := Some(ParsedDate(fi.uploadDate.value)))
  }

  /** A description that was already normalised is unchanged by normalising it again. */
  lemma NormaliseIdempotent(fi: FileInfoReply)
    requires IsFileInfo(fi)
    ensures Normalise(Normalise(fi)) == Normalise(fi)
  {
  }

  /** `filesInfos.map(...)`: every description normalised, in order. */
  function NormaliseAll(fis: seq<FileInfoReply>): (r: seq<FileInfoReply>)
    requires forall i :: 0 <= i < |fis| ==> IsFileInfo(fis[i])
    ensures |r| == |fis| && forall i :: 0 <= i < |fis| ==> r[i] == Normalise(fis[i]) && IsFileInfo(r[i])
  {
    if |fis| == 0 then []
    else
      assert forall i :: 1 <= i < |fis| ==> fis[1..][i - 1] == fis[i];
      [Normalise(fis[0])] + NormaliseAll(fis[1..])
  }

  lemma NormaliseAllIdempotent(fis: seq<FileInfoReply>)
    requires forall i :: 0 <= i < |fis| ==> IsFileInfo(fis[i])
    ensures NormaliseAll(NormaliseAll(fis)) == NormaliseAll(fis)
  {
    var once := NormaliseAll(fis);
    forall i | 0 <= i < |fis|
      ensures NormaliseAll(once)[i] == once[i]
    {
      NormaliseIdempotent(fis[i]);
    }
  }

  /**
   * The cache rule: the cached entry is used exactly when this is not a refresh,
   * the read found a files-info entry, its `exp` is a number, and it lies in the future.
   */
  predicate UseCache(refresh: bool, read: FunctionResult<AsValue>, now: int) {
    !refresh && read.succeed && read.data.Some? && read.data.value.FilesCacheEntry? &&
    read.data.value.cache.exp.Some? && now < read.data.value.cache.exp.value
  }

  /** The `success`/`filesInfos` pair after the first block: the cache's, or the server's. */
  function FilesSource(refresh: bool, read: FunctionResult<AsValue>, now: int, api: FunctionResult<seq<FileInfoReply>>): (bool, Option<seq<FileInfoReply>>) {
    if UseCache(refresh, read, now) then (true, Some(read.data.value.cache.fi)) else (api.succeed, api.data)
  }

  /** A refresh always goes to the server, whatever the cache holds. */
  lemma RefreshBypassesCache(read: FunctionResult<AsValue>, now: int, api: FunctionResult<seq<FileInfoReply>>)
    ensures FilesSource(true, read, now, api) == (api.succeed, api.data)
  {
  }

  /**
   * The list `fetchFilesInfo` shows, or `None` when it fails: a failed or empty
   * result, or any description lacking one of its five members.
   */
  function LoadedFiles(refresh: bool, read: FunctionResult<AsValue>, now: int, api: FunctionResult<seq<FileInfoReply>>): (r: Option<seq<FileInfoReply>>)
    ensures
      var (ok, fis) := FilesSource(refresh, read, now, api);
      (r.Some? <==> ok && fis.Some? && |fis.value| > 0 && forall i :: 0 <= i < |fis.value| ==> IsFileInfo(fis.value[i])) &&
      (r.Some? ==> |r.value| == |fis.value| && forall i :: 0 <= i < |r.value| ==> r.value[i] == Normalise(fis.value[i]))
  {
    var (ok, fis) := FilesSource(refresh, read, now, api);
    if !ok || fis.None? || |fis.value| == 0 then None
    else if !(forall i :: 0 <= i < |fis.value| ==> IsFileInfo(fis.value[i])) then None
    else Some(NormaliseAll(fis.value))
  }

  /** The cache entry written after a successful load at time `storedAt`. */
  function CacheEntry(shown: seq<FileInfoReply>, storedAt: int): AsValue {
    FilesCacheEntry(CachedFilesInfo(shown, Some(storedAt + CACHE_LIFETIME)))
  }

  /**
   * The cache round trip: once a load has been stored, a later load within half
   * an hour that is not a refresh shows the same list, whatever the server says.
   */
  lemma CacheRoundTrip(refresh: bool, read: FunctionResult<AsValue>, now: int, api: FunctionResult<seq<FileInfoReply>>,
                       storedAt: int, key: string, store: map<string, AsValue>,
                       later: int, laterApi: FunctionResult<seq<FileInfoReply>>)
    requires LoadedFiles(refresh, read, now, api).Some?
    requires later < storedAt + CACHE_LIFETIME
    ensures
      var shown := LoadedFiles(refresh, read, now, api).value;
      var store' := StoreItem(store, key, CacheEntry(shown, storedAt), Done).1;
      LoadedFiles(false, AsGet(store', key, Done), later, laterApi) == Some(shown)
  {
    var shown := LoadedFiles(refresh, read, now, api).value;
    var fis := FilesSource(refresh, read, now, api).1.value;
    assert shown == NormaliseAll(fis);
    NormaliseAllIdempotent(fis);
  }

  /** Once the entry has expired, a load goes to the server again, whatever the entry holds. */
  lemma ExpiredCacheIsIgnored(shown: seq<FileInfoReply>, storedAt: int, key: string, store: map<string, AsValue>,
                              later: int, laterApi: FunctionResult<seq<FileInfoReply>>)
    requires later >= storedAt + CACHE_LIFETIME
    ensures
      var store' := StoreItem(store, key, CacheEntry(shown, storedAt), Done).1;
      FilesSource(false, AsGet(store', key, Done), later, laterApi) == (laterApi.succeed, laterApi.data)
  {
  }

  /** `AS_Delete`: the key removed when the call completes. */
  function CacheDeleted(store: map<string, AsValue>, key: string, io: Io): (r: map<string, AsValue>)
    ensures io.Done? ==> key !in r && forall k :: k in store && k != key ==> k in r && r[k] == store[k]
    ensures io.Done? ==> forall k :: k in r ==> k in store
    ensures io.Threw? ==> r == store
  {
    if io.Done? then store - {key} else store
  }

  /** What `deleteTransfer` does: nothing without a device id and a key phrase, then the request's outcome. */
  datatype DeleteOutcome = NotJoined | Deleted | DeleteFailed

  function DeleteTransferOutcome(deviceId: Option<string>, keyPhrase: Option<string>, reply: FunctionResult<()>): (r: DeleteOutcome)
    ensures r == NotJoined <==> deviceId.None? || keyPhrase.None?
    ensures r == Deleted <==> deviceId.Some? && keyPhrase.Some? && reply.succeed
  {
    if deviceId.None? || keyPhrase.None? then NotJoined
    else if reply.succeed then Deleted
    else DeleteFailed
  }

  class ViewTransfer {
    /** The `FilesInfo` state. */
    var filesInfo: seq<FileInfoReply>
    /** The `isFirstTime` ref. */
    var isFirstTime: bool
    /** The route's `transfer_id`. */
    const transferId: string
    /** The transfer shown, looked up in the current inbox; `None` makes the view invalid. */
    const transfer: Option<TransferReply>
    const storage: Storage
    /** `CACHE_KEY`: the AsyncStorage key of a transfer's files-info cache. */
    const cacheKey: string -> string

    constructor(transfers: seq<TransferReply>, transferId: string, storage: Storage, cacheKey: string -> string)
      ensures this.transferId == transferId && this.storage == storage && this.cacheKey == cacheKey
      ensures transfer == FindTransfer(transfers, transferId)
      ensures filesInfo == [] && isFirstTime
    {
      this.transferId := transferId;
      this.storage := storage;
      this.cacheKey := cacheKey;
      transfer := FindTransfer(transfers, transferId);
      filesInfo := [];
      isFirstTime := true;
    }

    /**
     * `fetchFilesInfo`: the list is replaced and the cache entry overwritten only
     * when the load succeeds; a failure changes nothing and leaves the screen when
     * no files are shown.
     */
    method FetchFilesInfo(refresh: bool, now: int, readIo: Io, api: FunctionResult<seq<FileInfoReply>>, storedAt: int, storeIo: Io)
      returns (goBack: bool)
      modifies this, storage
      ensures
        var loaded := LoadedFiles(refresh, AsGet(old(storage.asyncStore), cacheKey(transferId), readIo), now, api);
        (loaded.None? ==> filesInfo == old(filesInfo) && storage.asyncStore == old(storage.asyncStore) && goBack == (|old(filesInfo)| == 0)) &&
        (loaded.Some? ==>
          filesInfo == loaded.value && !goBack &&
          storage.asyncStore == StoreItem(old(storage.asyncStore), cacheKey(transferId), CacheEntry(loaded.value, storedAt), storeIo).1)
      ensures isFirstTime == old(isFirstTime) && storage.secure == old(storage.secure)
    {
      var success := false;
      var filesInfos: Option<seq<FileInfoReply>> := None;
      var read := AsGet(storage.asyncStore, cacheKey(transferId), readIo);
      if UseCache(refresh, read, now) {
        success := read.succeed;
        filesInfos := Some(read.data.value.cache.fi);
      } else {
        success := api.succeed;
        filesInfos := api.data;
      }
      if !success || filesInfos.None? || |filesInfos.value| == 0 {
        return |filesInfo| <= 0;
      }
      if !(forall i :: 0 <= i < |filesInfos.value| ==> IsFileInfo(filesInfos.value[i])) {
        return |filesInfo| <= 0;
      }
      var stateFilesInfo := NormaliseAll(filesInfos.value);
      filesInfo := stateFilesInfo;
      var (_, store') := StoreItem(storage.asyncStore, cacheKey(transferId), CacheEntry(stateFilesInfo, storedAt), storeIo);
      storage.asyncStore := store';
      goBack := false;
    }

    /** The effect on the viewed transfer: the first run may use the cache, later runs refresh. */
    method TransferEffect(now: int, readIo: Io, api: FunctionResult<seq<FileInfoReply>>, storedAt: int, storeIo: Io)
      returns (goBack: bool)
      modifies this, storage
      ensures !isFirstTime
      ensures
        var loaded := LoadedFiles(!old(isFirstTime), AsGet(old(storage.asyncStore), cacheKey(transferId), readIo), now, api);
        (loaded.None? ==> filesInfo == old(filesInfo) && storage.asyncStore == old(storage.asyncStore) && goBack == (|old(filesInfo)| == 0)) &&
        (loaded.Some? ==>
          filesInfo == loaded.value && !goBack &&
          storage.asyncStore == StoreItem(old(storage.asyncStore), cacheKey(transferId), CacheEntry(loaded.value, storedAt), storeIo).1)
      ensures storage.secure == old(storage.secure)
    {
      var refresh := !isFirstTime;
      isFirstTime := false;
      goBack := FetchFilesInfo(refresh, now, readIo, api, storedAt, storeIo);
    }

    /** The focus cleanup: the next run counts as a first one again, and the list is emptied. */
    method Blur()
      modifies this
      ensures isFirstTime && filesInfo == []
    {
      isFirstTime := true;
      filesInfo := [];
    }

    /**
     * `deleteFile`: after a successful request the cache entry and the list are
     * cleared only when exactly one file was shown; a transfer refresh is requested.
     */
    method DeleteFile(reply: FunctionResult<()>, deleteIo: Io) returns (refreshRequested: bool)
      modifies this, storage
      ensures refreshRequested == reply.succeed
      ensures reply.succeed && |old(filesInfo)| == 1 ==>
        filesInfo == [] && storage.asyncStore == CacheDeleted(old(storage.asyncStore), cacheKey(transferId), deleteIo)
      ensures !(reply.succeed && |old(filesInfo)| == 1) ==>
        filesInfo == old(filesInfo) && storage.asyncStore == old(storage.asyncStore)
      ensures isFirstTime == old(isFirstTime) && storage.secure == old(storage.secure)
    {
      if !reply.succeed {
        return false;
      }
      if |filesInfo| == 1 {
        storage.asyncStore := CacheDeleted(storage.asyncStore, cacheKey(transferId), deleteIo);
        filesInfo := [];
      }
      refreshRequested := true;
    }
  }
}
