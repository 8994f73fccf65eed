/**
 * The server's response envelope (apps/ilix-server/src/services/mod.rs) and
 * the `Authorization` header extractor (apps/ilix-server/src/extractors/keyphrase.rs).
 * Serialising the data with `serde_json` is a parameter: the JSON text, or
 * `None` when serialisation fails.
 */
module Responses {
  import opened Wrappers
  import opened Errors
  import opened KeyPhrases

  // HTTP status codes the handlers use.
  const OK := 200
  const MULTI_STATUS := 207
  const BAD_REQUEST := 400
  const UNAUTHORIZED := 401
  const NOT_FOUND := 404
  const CONFLICT := 409
  const INTERNAL_SERVER_ERROR := 500

  /** The JSON text of `()`, which handlers without a result send as their data. */
  const UNIT_JSON := "null"

  /** `ResponsePayload`: the envelope every JSON answer carries; absent members are not serialised. */
  datatype ResponsePayload = ResponsePayload(success: bool, statusCode: int, reason: Option<string>, data: Option<string>)

  /**
   * `ResponsePayload::new`: a success carries the serialised data under 200 and
   * no reason; a failed serialisation turns it into a failure; a failure
   * carries no data, the given status or 500, and the given reason.
   */
  function NewPayload(success: bool, json: Option<string>, errorStatus: Option<int>, errorReason: Option<string>): (p: ResponsePayload)
    ensures p.success <==> success && json.Some?
    ensures p.success ==> p.statusCode == OK && p.reason.None? && p.data == json
    ensures !p.success ==> p.data.None? && p.reason == errorReason && p.statusCode == errorStatus.GetOr(INTERNAL_SERVER_ERROR)
  {
    var data := if success then json else None;
    var success' := success && json.Some?;
    ResponsePayload(
      success',
      if success' then OK else errorStatus.GetOr(INTERNAL_SERVER_ERROR),
      if success' || errorReason.None? then None else errorReason,
      data)
  }

  /** A failure, as handlers build one: no data, and the serialiser is never consulted. */
  lemma FailureIgnoresData(a: Option<string>, b: Option<string>, errorStatus: Option<int>, errorReason: Option<string>)
    ensures NewPayload(false, a, errorStatus, errorReason) == NewPayload(false, b, errorStatus, errorReason)
  {
  }

  /**
   * The status the file handlers give a failed database call on a file id: 400
   * for a malformed id, else 500.
   */
  function ObjectIdErrorStatus(e: ServerError): (s: int)
    ensures s == BAD_REQUEST <==> e == InvalidObjectId
    ensures s == INTERNAL_SERVER_ERROR <==> e != InvalidObjectId
  {
    if e == InvalidObjectId then BAD_REQUEST else INTERNAL_SERVER_ERROR
  }

  /** What a handler answers: the shared bad-arguments response, or an envelope of its own. */
  datatype Reply = BadArgs | Payload(p: ResponsePayload)

  /** A handler's successful answer for a value serialised as `json`. */
  function Answered(json: Option<string>): Reply {
    Payload(NewPayload(true, json, None, None))
  }

  /** A handler's failure with a status (or the default 500) and a reason. */
  function Refused(status: Option<int>, reason: string): (r: Reply)
    ensures r.Payload? && !r.p.success && r.p.data.None? && r.p.reason == Some(reason)
    ensures r.p.statusCode == status.GetOr(INTERNAL_SERVER_ERROR)
  {
    Payload(NewPayload(false, None, status, Some(reason)))
  }

  // ---- the Authorization extractor ------------------------------------------------

  /** A header value: text when its bytes are valid UTF-8. */
  datatype HeaderValue = Utf8(text: string) | NotUtf8

  const MISSING_AUTHORIZATION := "missing 'Authorization' header"
  const INVALID_AUTHORIZATION := "invalid 'Authorization' header"

  /**
   * `from_request` for `KeyPhrase`: the header must be present, UTF-8 and a
   * well-formed phrase; each refusal is a 401 with its own reason.
   */
  function FromRequest(authorization: Option<HeaderValue>): (r: Result<KeyPhrase, ResponsePayload>)
    ensures r.Ok? <==> authorization.Some? && authorization.value.Utf8? && IsKeyPhrase(authorization.value.text)
    ensures r.Ok? ==> r.value.text == authorization.value.text
    ensures r.Err? ==> !r.error.success && r.error.statusCode == UNAUTHORIZED && r.error.data.None?
    ensures authorization.None? ==> r.Err? && r.error.reason == Some(MISSING_AUTHORIZATION)
    ensures authorization == Some(NotUtf8) ==> r.Err? && r.error.reason == Some(INVALID_AUTHORIZATION)
    ensures authorization.Some? && authorization.value.Utf8? && !IsKeyPhrase(authorization.value.text) ==>
      r.Err? && r.error.reason == Some("InvalidKeyPhrase")
  {
    match authorization
    case None => Err(NewPayload(false, None, Some(UNAUTHORIZED), Some(MISSING_AUTHORIZATION)))
    case Some(NotUtf8) => Err(NewPayload(false, None, Some(UNAUTHORIZED), Some(INVALID_AUTHORIZATION)))
    case Some(Utf8(text)) =>
      match TryFrom(text)
      case Ok(kp) => Ok(kp)
      case Err(why) => Err(NewPayload(false, None, Some(UNAUTHORIZED), Some(Name(why))))
  }
}
