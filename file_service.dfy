/**
 * The single-file handlers (apps/ilix-server/src/services/file.rs): serving a
 * stored file through a temporary copy, and deleting a file after detaching
 * it from its transfer. Database outcomes, the uuid of the temporary copy and
 * whether the copy could be written and opened are parameters.
 */
module FileService {
  import opened Wrappers
  import opened Errors
  import opened KeyPhrases
  import opened ServerUtils
  import opened Responses

  const COULD_NOT_SEND := "Couldn't send file"

  /** `get_file`'s answer: an envelope, or the temporary file to stream, by path. */
  datatype GetFileResult = Envelope(reply: Reply) | File(path: string)

  /** Where the decrypted copy is written: `./tmp/<uuid>-<filename>`. */
  function TempPath(uuid: string, filename: string): (p: string)
    ensures |p| == |"./tmp/"| + |uuid| + 1 + |filename|
    ensures p[|p| - |filename|..] == filename
  {
    "./tmp/" + uuid + "-" + filename
  }

  /**
   * `get_file`, once the extractor has accepted the key phrase: a blank id is
   * refused; a read error maps to 400 or 500; a read file is served from its
   * temporary copy, or answered with "Couldn't send file" when the copy fails.
   */
  function GetFile(fileId: string, keyPhrase: KeyPhrase, db: Result<(string, seq<bv8>), ServerError>,
                   uuid: string, copied: bool): (r: GetFileResult)
    ensures IsStrEmpty(fileId) ==> r == Envelope(BadArgs)
    ensures !IsStrEmpty(fileId) && db.Err? ==>
      r.Envelope? && r.reply.Payload? && !r.reply.p.success &&
      r.reply.p.statusCode == ObjectIdErrorStatus(db.error) && r.reply.p.reason == Some(Name(db.error))
    ensures !IsStrEmpty(fileId) && db.Ok? && copied ==> r == File(TempPath(uuid, db.value.0))
    ensures !IsStrEmpty(fileId) && db.Ok? && !copied ==>
      r.Envelope? && r.reply.Payload? && !r.reply.p.success &&
      r.reply.p.statusCode == INTERNAL_SERVER_ERROR && r.reply.p.reason == Some(COULD_NOT_SEND)
    ensures r.File? <==> !IsStrEmpty(fileId) && db.Ok? && copied
  {
    if IsStrEmpty(fileId) then Envelope(BadArgs)
    else
      match db
      case Err(err) => Envelope(Refused(Some(ObjectIdErrorStatus(err)), Name(err)))
      case Ok((filename, _)) =>
        if copied then File(TempPath(uuid, filename)) else Envelope(Refused(None, COULD_NOT_SEND))
  }

  /** The detach errors `delete_file` goes on after: the file was in no transfer, or its transfer is gone. */
  predicate DetachTolerated(e: ServerError) {
    e == NotInTransfer || e == TransferNotFound
  }

  /**
   * `delete_file`: detach the file from its transfer, then delete it. Returns the
   * answer and whether the deletion was attempted.
   */
  function DeleteFile(fileId: string, detach: Option<ServerError>, deletion: Result<(), ServerError>): (res: (Reply, bool))
    ensures IsStrEmpty(fileId) ==> res == (BadArgs, false)
    ensures res.1 <==> !IsStrEmpty(fileId) && (detach.None? || DetachTolerated(detach.value))
    ensures !IsStrEmpty(fileId) && detach.Some? && !DetachTolerated(detach.value) ==>
      res.0.Payload? && !res.0.p.success && res.0.p.statusCode == CONFLICT && res.0.p.reason == Some(Name(detach.value))
    ensures res.1 && deletion.Ok? ==> res.0.Payload? && res.0.p.success && res.0.p.data == Some(UNIT_JSON)
    ensures res.1 && deletion.Err? ==>
      res.0.Payload? && !res.0.p.success && res.0.p.statusCode == ObjectIdErrorStatus(deletion.error) &&
      res.0.p.reason == Some(Name(deletion.error))
  {
    if IsStrEmpty(fileId) then (BadArgs, false)
    else if detach.Some? && detach.value != NotInTransfer && detach.value != TransferNotFound then
      (Refused(Some(CONFLICT), Name(detach.value)), false)
    else
      match deletion
      case Ok(_) => (Answered(Some(UNIT_JSON)), true)
      case Err(err) => (Refused(Some(ObjectIdErrorStatus(err)), Name(err)), true)
  }

  /** A tolerated detach error is answered exactly as a clean detach. */
  lemma ToleratedDetachIsClean(fileId: string, e: ServerError, deletion: Result<(), ServerError>)
    requires DetachTolerated(e)
    ensures DeleteFile(fileId, Some(e), deletion) == DeleteFile(fileId, None, deletion)
  {
  }
}
