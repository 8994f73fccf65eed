/** The files-information handler (apps/ilix-server/src/services/files.rs). */
module FilesService {
  import opened Wrappers
  import opened Errors
  import opened Responses

  /** `get_files_info`: no ids is refused before any lookup; otherwise the list, or the mapped error. */
  function GetFilesInfo<T>(filesIds: seq<string>, db: Result<T, ServerError>, toJson: T -> Option<string>): (r: Reply)
    ensures |filesIds| == 0 ==> r == BadArgs
    ensures |filesIds| > 0 && db.Ok? ==> r == Answered(toJson(db.value))
    ensures |filesIds| > 0 && db.Err? ==>
      r.Payload? && !r.p.success && r.p.statusCode == ObjectIdErrorStatus(db.error) && r.p.reason == Some(Name(db.error))
  {
    if |filesIds| == 0 then BadArgs
    else
      match db
      case Ok(filesInfo) => Answered(toJson(filesInfo))
      case Err(err) => Refused(Some(ObjectIdErrorStatus(err)), Name(err))
  }
}
