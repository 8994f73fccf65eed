/**
 * The transfer handlers (apps/ilix-server/src/services/file_transfer.rs):
 * listing and creating transfers, storing uploaded files and attaching them
 * to a transfer (deleting them again when that fails), and deleting a
 * transfer together with its files. The outcome of every database call, the
 * parsed multipart upload and JSON serialisation are parameters.
 */
module FileTransferService {
  import opened Wrappers
  import opened Errors
  import opened KeyPhrases
  import opened ServerUtils
  import opened Responses

  /** `get_all_transfer`: the phrase and the device id are checked; a database error is a 500. */
  function GetAllTransfer<T>(keyPhrase: string, deviceId: string, db: Result<T, ServerError>, toJson: T -> Option<string>): (r: Reply)
    ensures !IsKeyPhrase(keyPhrase) || IsStrEmpty(deviceId) ==> r == BadArgs
    ensures IsKeyPhrase(keyPhrase) && !IsStrEmpty(deviceId) && db.Ok? ==> r == Answered(toJson(db.value))
    ensures IsKeyPhrase(keyPhrase) && !IsStrEmpty(deviceId) && db.Err? ==>
      r.Payload? && !r.p.success && r.p.statusCode == INTERNAL_SERVER_ERROR && r.p.reason == Some(Name(db.error))
  {
    match TryFrom(keyPhrase)
    case Err(_) => BadArgs
    case Ok(_) =>
      if IsStrEmpty(deviceId) then BadArgs
      else
        match db
        case Ok(datas) => Answered(toJson(datas))
        case Err(err) => Refused(None, Name(err))
  }

  /** The status of a refused creation: 404 when a device is not in the pool, else 500. */
  function CreateErrorStatus(e: ServerError): (s: int)
    ensures s == NOT_FOUND <==> e == NotInPool
    ensures s == INTERNAL_SERVER_ERROR <==> e != NotInPool
  {
    if e == NotInPool then NOT_FOUND else INTERNAL_SERVER_ERROR
  }

  /** `create_transfer`: both device ids must be non-blank. */
  function CreateTransfer<T>(keyPhrase: string, from: string, to: string, db: Result<T, ServerError>,
                             toJson: T -> Option<string>): (r: Reply)
    ensures !IsKeyPhrase(keyPhrase) || IsStrEmpty(to) || IsStrEmpty(from) ==> r == BadArgs
    ensures IsKeyPhrase(keyPhrase) && !IsStrEmpty(to) && !IsStrEmpty(from) && db.Ok? ==> r == Answered(toJson(db.value))
    ensures IsKeyPhrase(keyPhrase) && !IsStrEmpty(to) && !IsStrEmpty(from) && db.Err? ==>
      r.Payload? && !r.p.success && r.p.statusCode == CreateErrorStatus(db.error) && r.p.reason == Some(Name(db.error))
  {
    match TryFrom(keyPhrase)
    case Err(_) => BadArgs
    case Ok(_) =>
      if IsStrEmpty(to) || IsStrEmpty(from) then BadArgs
      else
        match db
        case Ok(datas) => Answered(toJson(datas))
        case Err(err) => Refused(Some(CreateErrorStatus(err)), Name(err))
  }

  // ---- add_files_to_transfer -------------------------------------------------------

  /** An uploaded part: its file name (or the uuid standing in for a missing one) and its bytes. */
  datatype Upload = Upload(filename: string, content: seq<bv8>)

  /** The outcome of the i-th `encrypt_and_add_file` call: the new file id, or the error. */
  type StoreCall = (nat, Upload) -> Result<string, ServerError>

  const FAILED_TO_PARSE_FILE := "Failed to parse file"
  const ERROR_PARSING_FILES := "Error when parsing files"

  /**
   * Storing the first `k` uploads in order, stopping at the first failure: the
   * ids of all of them, or the error of the first one that failed.
   */
  function StoreUpTo(files: seq<Upload>, store: StoreCall, k: nat): (r: Result<seq<string>, ServerError>)
    requires k <= |files|
    ensures r.Ok? <==> forall i :: 0 <= i < k ==> store(i, files[i]).Ok?
    ensures r.Ok? ==> |r.value| == k && forall i :: 0 <= i < k ==> store(i, files[i]) == Ok(r.value[i])
    ensures r.Err? ==> exists i :: 0 <= i < k && store(i, files[i]) == Err(r.error) &&
                                   forall j :: 0 <= j < i ==> store(j, files[j]).Ok?
    decreases k
  {
    if k == 0 then Ok([])
    else
      match StoreUpTo(files, store, k - 1)
      case Err(e) => Err(e)
      case Ok(ids) =>
        match store(k - 1, files[k - 1])
        case Ok(id) => Ok(ids + [id])
        case Err(e) => Err(e)
  }

  /**
   * The status of a failed attach, and of a failed transfer lookup in
   * `delete_transfer`: 404 for an unknown transfer, else 500.
   */
  function TransferErrorStatus(e: ServerError): (s: int)
    ensures s == NOT_FOUND <==> e == TransferNotFound
    ensures s == INTERNAL_SERVER_ERROR <==> e != TransferNotFound
  {
    if e == TransferNotFound then NOT_FOUND else INTERNAL_SERVER_ERROR
  }

  /**
   * The answer of `add_files_to_transfer` and the ids whose deletion it asks for.
   * `files` is the parsed multipart stream (`None` when reading it failed).
   */
  function AddFilesOutcome(keyPhrase: string, transferId: string, files: Option<seq<Upload>>, store: StoreCall,
                           attach: Result<(), ServerError>, idsJson: seq<string> -> Option<string>): (Reply, seq<string>)
  {
    if !IsKeyPhrase(keyPhrase) || IsStrEmpty(transferId) then (BadArgs, [])
    else if files.None? then (Refused(Some(BAD_REQUEST), FAILED_TO_PARSE_FILE), [])
    else if |files.value| == 0 then (Refused(Some(BAD_REQUEST), ERROR_PARSING_FILES), [])
    else
      match StoreUpTo(files.value, store, |files.value|)
      case Err(e) => (Refused(None, Name(e)), [])
      case Ok(ids) =>
        match attach
        case Ok(_) => (Answered(idsJson(ids)), [])
        case Err(e) => (Refused(Some(TransferErrorStatus(e)), Name(e)), ids)
  }

  /** The store loop: each upload in order, returning at the first failure. */
  method StoreFiles(uploads: seq<Upload>, store: StoreCall) returns (res: Result<seq<string>, ServerError>)
    ensures res == StoreUpTo(uploads, store, |uploads|)
  {
    var filesId := [];
    var i := 0;
    while i < |uploads|
      invariant 0 <= i <= |uploads|
      invariant StoreUpTo(uploads, store, i) == Ok(filesId)
    {
      match store(i, uploads[i]) {
        case Ok(fileId) =>
          filesId := filesId + [fileId];
        case Err(err) =>
          return Err(err);
      }
      i := i + 1;
    }
    res := Ok(filesId);
  }

  /**
   * The rollback loop: one deletion per stored id, in order. Each deletion's
   * result is discarded (`let _ =`), so the ids deleted are the whole outcome;
   * the loop holds no proof of its own beyond that.
   */
  method Rollback(filesId: seq<string>) returns (deleted: seq<string>)
    ensures deleted == filesId
  {
    deleted := [];
    var j := 0;
    while j < |filesId|
      invariant 0 <= j <= |filesId|
      invariant deleted == filesId[..j]
    {
      deleted := deleted + [filesId[j]];
      j := j + 1;
    }
  }

  /**
   * `add_files_to_transfer`: store every upload in order, returning at the first
   * failure; then attach them; a failed attach deletes every file stored here.
   */
  method AddFilesToTransfer(keyPhrase: string, transferId: string, files: Option<seq<Upload>>, store: StoreCall,
                            attach: Result<(), ServerError>, idsJson: seq<string> -> Option<string>)
    returns (r: Reply, deleted: seq<string>)
    ensures (r, deleted) == AddFilesOutcome(keyPhrase, transferId, files, store, attach, idsJson)
  {
    if TryFrom(keyPhrase).Err? || IsStrEmpty(transferId) {
      return BadArgs, [];
    }
    if files.None? {
      return Refused(Some(BAD_REQUEST), FAILED_TO_PARSE_FILE), [];
    }
    if |files.value| == 0 {
      return Refused(Some(BAD_REQUEST), ERROR_PARSING_FILES), [];
    }
    var stored := StoreFiles(files.value, store);
    if stored.Err? {
      return Refused(None, Name(stored.error)), [];
    }
    if attach.Ok? {
      return Answered(idsJson(stored.value)), [];
    }
    deleted := Rollback(stored.value);
    r := Refused(Some(TransferErrorStatus(attach.error)), Name(attach.error));
  }

  /** A failed store answers with its error and deletes nothing: files stored before it stay. */
  lemma StoreFailureKeepsEarlierFiles(keyPhrase: string, transferId: string, files: seq<Upload>, store: StoreCall,
                                      attach: Result<(), ServerError>, idsJson: seq<string> -> Option<string>, i: nat)
    requires IsKeyPhrase(keyPhrase) && !IsStrEmpty(transferId)
    requires i < |files| && store(i, files[i]).Err? && forall j :: 0 <= j < i ==> store(j, files[j]).Ok?
    ensures var (r, deleted) := AddFilesOutcome(keyPhrase, transferId, Some(files), store, attach, idsJson);
      deleted == [] && r.Payload? && !r.p.success && r.p.statusCode == INTERNAL_SERVER_ERROR &&
      r.p.reason == Some(Name(store(i, files[i]).error))
  {
    var e := StoreUpTo(files, store, |files|);
    assert e.Err?;
    var k :| 0 <= k < |files| && store(k, files[k]) == Err(e.error) && forall j :: 0 <= j < k ==> store(j, files[j]).Ok?;
    assert k == i;
  }

  /** A failed attach deletes exactly the files stored in this call, in upload order. */
  lemma AttachFailureRollsBack(keyPhrase: string, transferId: string, files: seq<Upload>, store: StoreCall,
                               e: ServerError, idsJson: seq<string> -> Option<string>)
    requires IsKeyPhrase(keyPhrase) && !IsStrEmpty(transferId) && |files| > 0
    requires forall i :: 0 <= i < |files| ==> store(i, files[i]).Ok?
    ensures var (r, deleted) := AddFilesOutcome(keyPhrase, transferId, Some(files), store, Err(e), idsJson);
      |deleted| == |files| && (forall i :: 0 <= i < |files| ==> deleted[i] == store(i, files[i]).value) &&
      r.Payload? && !r.p.success && r.p.statusCode == TransferErrorStatus(e) && r.p.reason == Some(Name(e))
  {
  }

  /** A successful call answers with the new ids in upload order and deletes nothing. */
  lemma AddFilesSuccess(keyPhrase: string, transferId: string, files: seq<Upload>, store: StoreCall,
                        idsJson: seq<string> -> Option<string>)
    requires IsKeyPhrase(keyPhrase) && !IsStrEmpty(transferId) && |files| > 0
    requires forall i :: 0 <= i < |files| ==> store(i, files[i]).Ok?
    ensures var (r, deleted) := AddFilesOutcome(keyPhrase, transferId, Some(files), store, Ok(()), idsJson);
      deleted == [] &&
      exists ids :: |ids| == |files| && (forall i :: 0 <= i < |files| ==> ids[i] == store(i, files[i]).value) &&
                    r == Answered(idsJson(ids))
  {
    var ids := StoreUpTo(files, store, |files|).value;
    assert forall i :: 0 <= i < |files| ==> ids[i] == store(i, files[i]).value;
  }

  // ---- delete_transfer --------------------------------------------------------------

  /** The error of the i-th `delete_file` call on the given id, if it failed. */
  type DeleteCall = (nat, string) -> Option<ServerError>

  const FILES_LEFT_BEHIND := "Transfer was deleted but some files were not deleted"

  /** The answer once the transfer is gone, given the file deletion error kept. */
  function TransferDeletedReply(err: Option<ServerError>): (r: Reply)
    ensures r.Payload? && (r.p.success <==> err.None?)
    ensures err.None? ==> r.p.data == Some(UNIT_JSON)
    ensures err.Some? ==>
      (r.p.reason == Some(FILES_LEFT_BEHIND) &&
       r.p.statusCode == (if err.value == InvalidObjectId then BAD_REQUEST else MULTI_STATUS))
  {
    match err
    case None => Answered(Some(UNIT_JSON))
    case Some(e) => Refused(Some(if e == InvalidObjectId then BAD_REQUEST else MULTI_STATUS), FILES_LEFT_BEHIND)
  }

  /** The error of the most recent failed deletion among the first `k`, if any failed. */
  function LastFailure(ids: seq<string>, deleteFile: DeleteCall, k: nat): (err: Option<ServerError>)
    requires k <= |ids|
    ensures err.None? <==> forall i :: 0 <= i < k ==> deleteFile(i, ids[i]).None?
    ensures err.Some? ==> exists i :: 0 <= i < k && deleteFile(i, ids[i]) == err
    decreases k
  {
    if k == 0 then None
    else if deleteFile(k - 1, ids[k - 1]).Some? then deleteFile(k - 1, ids[k - 1])
    else LastFailure(ids, deleteFile, k - 1)
  }

  /** What the source's loop keeps: the outcome of the last deletion only. */
  function LastDeletionError(ids: seq<string>, deleteFile: DeleteCall): Option<ServerError> {
    if |ids| == 0 then None else deleteFile(|ids| - 1, ids[|ids| - 1])
  }

  /** The three arguments `delete_transfer` checks. */
  predicate DeleteArgsOk(keyPhrase: string, deviceId: string, transferId: string) {
    IsKeyPhrase(keyPhrase) && !IsStrEmpty(deviceId) && !IsStrEmpty(transferId)
  }

  /**
   * `delete_transfer`, with the loop as the source writes it: every file of the
   * transfer is deleted, but each deletion overwrites the error the one before
   * left, so only the last one counts.
   */
  method DeleteTransferAsWritten(keyPhrase: string, deviceId: string, transferId: string,
                                 db: Result<seq<string>, ServerError>, deleteFile: DeleteCall)
    returns (r: Reply, attempted: seq<string>)
    ensures !DeleteArgsOk(keyPhrase, deviceId, transferId) ==> r == BadArgs && attempted == []
    ensures DeleteArgsOk(keyPhrase, deviceId, transferId) && db.Err? ==>
      r == Refused(Some(TransferErrorStatus(db.error)), Name(db.error)) && attempted == []
    ensures DeleteArgsOk(keyPhrase, deviceId, transferId) && db.Ok? ==>
      attempted == db.value && r == TransferDeletedReply(LastDeletionError(db.value, deleteFile))
  {
    if TryFrom(keyPhrase).Err? || IsStrEmpty(deviceId) || IsStrEmpty(transferId) {
      return BadArgs, [];
    }
    if db.Err? {
      return Refused(Some(TransferErrorStatus(db.error)), Name(db.error)), [];
    }
    var ids := db.value;
    var err: Option<ServerError> := None;
    attempted := [];
    var i := 0;
    while i < |ids|
      invariant 0 <= i <= |ids|
      invariant attempted == ids[..i]
      invariant err == LastDeletionError(ids[..i], deleteFile)
    {
      err := deleteFile(i, ids[i]);
      attempted := attempted + [ids[i]];
      i := i + 1;
    }
    assert ids[..|ids|] == ids;
    r := TransferDeletedReply(err);
  }

  /**
   * `delete_transfer` as its comment intends: every file is still deleted, and
   * a failed deletion is remembered until the end.
   */
  method DeleteTransfer(keyPhrase: string, deviceId: string, transferId: string,
                        db: Result<seq<string>, ServerError>, deleteFile: DeleteCall)
    returns (r: Reply, attempted: seq<string>)
    ensures !DeleteArgsOk(keyPhrase, deviceId, transferId) ==> r == BadArgs && attempted == []
    ensures DeleteArgsOk(keyPhrase, deviceId, transferId) && db.Err? ==>
      r == Refused(Some(TransferErrorStatus(db.error)), Name(db.error)) && attempted == []
    ensures DeleteArgsOk(keyPhrase, deviceId, transferId) && db.Ok? ==>
      attempted == db.value && r == TransferDeletedReply(LastFailure(db.value, deleteFile, |db.value|))
  {
    if TryFrom(keyPhrase).Err? || IsStrEmpty(deviceId) || IsStrEmpty(transferId) {
      return BadArgs, [];
    }
    if db.Err? {
      return Refused(Some(TransferErrorStatus(db.error)), Name(db.error)), [];
    }
    var ids := db.value;
    var err: Option<ServerError> := None;
    attempted := [];
    var i := 0;
    while i < |ids|
      invariant 0 <= i <= |ids|
      invariant attempted == ids[..i]
      invariant err == LastFailure(ids, deleteFile, i)
    {
      var e := deleteFile(i, ids[i]);
      if e.Some? {
        err := e;
      }
      attempted := attempted + [ids[i]];
      i := i + 1;
    }
    assert ids[..|ids|] == ids;
    r := TransferDeletedReply(err);
  }

  /** With the intended loop the transfer deletion succeeds exactly when every file deletion did. */
  lemma DeletionFailuresReported(ids: seq<string>, deleteFile: DeleteCall)
    ensures TransferDeletedReply(LastFailure(ids, deleteFile, |ids|)).p.success <==>
            forall i :: 0 <= i < |ids| ==> deleteFile(i, ids[i]).None?
  {
  }

  /** As written, a failed first deletion followed by a successful one is answered as a full success. */
  lemma EarlierFailureLost()
    ensures
      var ids := ["a", "b"];
      var deleteFile: DeleteCall := (i, _) => if i == 0 then Some(MongoError) else None;
      TransferDeletedReply(LastDeletionError(ids, deleteFile)).p.success &&
      !TransferDeletedReply(LastFailure(ids, deleteFile, |ids|)).p.success &&
      TransferDeletedReply(LastFailure(ids, deleteFile, |ids|)).p.statusCode == MULTI_STATUS
  {
    var ids := ["a", "b"];
    var deleteFile: DeleteCall := (i, _) => if i == 0 then Some(MongoError) else None;
    assert deleteFile(0, ids[0]) == Some(MongoError);
  }
}
