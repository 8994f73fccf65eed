/**
 * The pool handlers (apps/ilix-server/src/services/pool.rs): the argument
 * checks each one makes before it reaches the database, and the status each
 * database error is answered with. The database call's outcome and the
 * serialisation of its value are parameters.
 */
module PoolService {
  import opened Wrappers
  import opened Strings
  import opened Errors
  import opened KeyPhrases
  import opened ServerUtils
  import opened Responses

  /** The longest pool or device name `new_pool` accepts, in UTF-8 bytes. */
  const MAX_NAME_BYTES := 50
  const EMPTY_ARGS := "Empty Args"

  /** `get_pool`: a malformed phrase is refused; a database error is a 500 carrying its name. */
  function GetPool<T>(keyPhrase: string, db: Result<T, ServerError>, toJson: T -> Option<string>): (r: Reply)
    ensures !IsKeyPhrase(keyPhrase) ==> r == BadArgs
    ensures IsKeyPhrase(keyPhrase) && db.Ok? ==> r == Answered(toJson(db.value))
    ensures IsKeyPhrase(keyPhrase) && db.Err? ==>
      r.Payload? && !r.p.success && r.p.statusCode == INTERNAL_SERVER_ERROR && r.p.reason == Some(Name(db.error))
  {
    match TryFrom(keyPhrase)
    case Err(_) => BadArgs
    case Ok(_) =>
      match db
      case Ok(datas) => Answered(toJson(datas))
      case Err(err) => Refused(None, Name(err))
  }

  /** The status of a refused join: 409 for a device already in the pool, 404 for an unknown pool, else 500. */
  function JoinErrorStatus(e: ServerError): (s: int)
    ensures s == CONFLICT <==> e == AlreadyInPool
    ensures s == NOT_FOUND <==> e == PoolNotFound
    ensures s == INTERNAL_SERVER_ERROR <==> e != AlreadyInPool && e != PoolNotFound
  {
    match e
    case AlreadyInPool => CONFLICT
    case PoolNotFound => NOT_FOUND
    case _ => INTERNAL_SERVER_ERROR
  }

  /** `join_pool`: the phrase is checked, then the device id; the device name is not. */
  function JoinPool<T>(keyPhrase: string, deviceId: string, deviceName: string, db: Result<T, ServerError>,
                       toJson: T -> Option<string>): (r: Reply)
    ensures !IsKeyPhrase(keyPhrase) || IsStrEmpty(deviceId) ==> r == BadArgs
    ensures IsKeyPhrase(keyPhrase) && !IsStrEmpty(deviceId) && db.Ok? ==> r == Answered(toJson(db.value))
    ensures IsKeyPhrase(keyPhrase) && !IsStrEmpty(deviceId) && db.Err? ==>
      r.Payload? && !r.p.success && r.p.statusCode == JoinErrorStatus(db.error) && r.p.reason == Some(Name(db.error))
  {
    match TryFrom(keyPhrase)
    case Err(_) => BadArgs
    case Ok(_) =>
      if IsStrEmpty(deviceId) then BadArgs
      else
        match db
        case Ok(datas) => Answered(toJson(datas))
        case Err(err) => Refused(Some(JoinErrorStatus(err)), Name(err))
  }

  /** The status of a refused leave: 409 for a device not in the pool, 404 for an unknown pool, else 500. */
  function LeaveErrorStatus(e: ServerError): (s: int)
    ensures s == CONFLICT <==> e == NotInPool
    ensures s == NOT_FOUND <==> e == PoolNotFound
    ensures s == INTERNAL_SERVER_ERROR <==> e != NotInPool && e != PoolNotFound
  {
    match e
    case NotInPool => CONFLICT
    case PoolNotFound => NOT_FOUND
    case _ => INTERNAL_SERVER_ERROR
  }

  /** `leave_pool`: the same two checks as a join; success carries no value. */
  function LeavePool(keyPhrase: string, deviceId: string, db: Result<(), ServerError>): (r: Reply)
    ensures !IsKeyPhrase(keyPhrase) || IsStrEmpty(deviceId) ==> r == BadArgs
    ensures IsKeyPhrase(keyPhrase) && !IsStrEmpty(deviceId) && db.Ok? ==>
      r.Payload? && r.p.success && r.p.statusCode == OK && r.p.data == Some(UNIT_JSON)
    ensures IsKeyPhrase(keyPhrase) && !IsStrEmpty(deviceId) && db.Err? ==>
      r.Payload? && !r.p.success && r.p.statusCode == LeaveErrorStatus(db.error) && r.p.reason == Some(Name(db.error))
  {
    match TryFrom(keyPhrase)
    case Err(_) => BadArgs
    case Ok(_) =>
      if IsStrEmpty(deviceId) then BadArgs
      else
        match db
        case Ok(_) => Answered(Some(UNIT_JSON))
        case Err(err) => Refused(Some(LeaveErrorStatus(err)), Name(err))
  }

  /** `new_pool`'s check: three non-blank names, the pool and device names within 50 bytes. */
  predicate NewPoolArgsOk(name: string, deviceId: string, deviceName: string) {
    !IsStrEmpty(name) && !IsStrEmpty(deviceId) && !IsStrEmpty(deviceName) &&
    Utf8Len(name) <= MAX_NAME_BYTES && Utf8Len(deviceName) <= MAX_NAME_BYTES
  }

  /** `new_pool`: refused arguments are a 400 "Empty Args", whatever was wrong with them. */
  function NewPool<T>(name: string, deviceId: string, deviceName: string, db: Result<T, ServerError>,
                      toJson: T -> Option<string>): (r: Reply)
    ensures !NewPoolArgsOk(name, deviceId, deviceName) ==>
      r.Payload? && !r.p.success && r.p.statusCode == BAD_REQUEST && r.p.reason == Some(EMPTY_ARGS)
    ensures NewPoolArgsOk(name, deviceId, deviceName) && db.Ok? ==> r == Answered(toJson(db.value))
    ensures NewPoolArgsOk(name, deviceId, deviceName) && db.Err? ==>
      r.Payload? && !r.p.success && r.p.statusCode == INTERNAL_SERVER_ERROR && r.p.reason == Some(Name(db.error))
  {
    if IsStrEmpty(name) || IsStrEmpty(deviceId) || IsStrEmpty(deviceName) ||
       Utf8Len(name) > MAX_NAME_BYTES || Utf8Len(deviceName) > MAX_NAME_BYTES
    then Refused(Some(BAD_REQUEST), EMPTY_ARGS)
    else
      match db
      case Ok(datas) => Answered(toJson(datas))
      case Err(err) => Refused(None, Name(err))
  }

  /** `k` copies of `c`. */
  function Repeated(c: char, k: nat): (s: string)
    ensures |s| == k
  {
    if k == 0 then "" else [c] + Repeated(c, k - 1)
  }

  lemma {:induction false} RepeatedUtf8Len(k: nat)
    ensures Utf8Len(Repeated('\U{E9}', k)) == 2 * k
  {
    if k > 0 {
      RepeatedUtf8Len(k - 1);
    }
  }

  /** The limit counts bytes: a pool named with 26 copies of "é" is 26 characters long but refused. */
  lemma NameLimitCountsBytes()
    ensures |Repeated('\U{E9}', 26)| == 26 && Utf8Len(Repeated('\U{E9}', 26)) == 52
    ensures !NewPoolArgsOk(Repeated('\U{E9}', 26), "device", "phone")
  {
    RepeatedUtf8Len(26);
  }

  /** The status of a refused deletion: 400 for a malformed id, 404 for an unknown pool or transfer, else 500. */
  function DeleteErrorStatus(e: ServerError): (s: int)
    ensures s == BAD_REQUEST <==> e == InvalidObjectId
    ensures s == NOT_FOUND <==> e == PoolNotFound || e == TransferNotFound
    ensures s == INTERNAL_SERVER_ERROR <==> e != InvalidObjectId && e != PoolNotFound && e != TransferNotFound
  {
    match e
    case InvalidObjectId => BAD_REQUEST
    case PoolNotFound => NOT_FOUND
    case TransferNotFound => NOT_FOUND
    case _ => INTERNAL_SERVER_ERROR
  }

  /** `delete_pool`: only the phrase is checked; success carries no value. */
  function DeletePool(keyPhrase: string, db: Result<(), ServerError>): (r: Reply)
    ensures !IsKeyPhrase(keyPhrase) ==> r == BadArgs
    ensures IsKeyPhrase(keyPhrase) && db.Ok? ==> r.Payload? && r.p.success && r.p.data == Some(UNIT_JSON)
    ensures IsKeyPhrase(keyPhrase) && db.Err? ==>
      r.Payload? && !r.p.success && r.p.statusCode == DeleteErrorStatus(db.error) && r.p.reason == Some(Name(db.error))
  {
    match TryFrom(keyPhrase)
    case Err(_) => BadArgs
    case Ok(_) =>
      match db
      case Ok(_) => Answered(Some(UNIT_JSON))
      case Err(err) => Refused(Some(DeleteErrorStatus(err)), Name(err))
  }
}
