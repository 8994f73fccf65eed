/**
 * The server's error kinds (apps/ilix-server/src/utils/errors.rs): each prints
 * as its own name, and `parse` reads back every name except two.
 */
module Errors {
  import opened Wrappers

  datatype ServerError =
    | MongoError
    | DictionnaryNotFound
    | InvalidObjectId
    | PoolNotFound
    | TransferNotFound
    | AlreadyInPool
    | NotInPool
    | NotInTransfer
    | EnvVarNotFound
    | ParseError
    | InvalidKeyPhrase
    | EncryptionError
    | DecryptionError
    | FileNotFound
    | HashError
    | SseFailedToSend

  /** `to_string`: the `Debug` form of a field-less variant, which is its name. */
  function Name(e: ServerError): string {
    match e
    case MongoError => "MongoError"
    case DictionnaryNotFound => "DictionnaryNotFound"
    case InvalidObjectId => "InvalidObjectId"
    case PoolNotFound => "PoolNotFound"
    case TransferNotFound => "TransferNotFound"
    case AlreadyInPool => "AlreadyInPool"
    case NotInPool => "NotInPool"
    case NotInTransfer => "NotInTransfer"
    case EnvVarNotFound => "EnvVarNotFound"
    case ParseError => "ParseError"
    case InvalidKeyPhrase => "InvalidKeyPhrase"
    case EncryptionError => "EncryptionError"
    case DecryptionError => "DecryptionError"
    case FileNotFound => "FileNotFound"
    case HashError => "HashError"
    case SseFailedToSend => "SseFailedToSend"
  }

  /** `parse`: fourteen names are recognised; anything else is an error with an empty message. */
  function Parse(input: string): (r: Result<ServerError, string>)
    ensures r.Ok? ==> Name(r.value) == input
    ensures r.Err? ==> r.error == ""
  {
    match input
    case "MongoError" => Ok(MongoError)
    case "DictionnaryNotFound" => Ok(DictionnaryNotFound)
    case "InvalidObjectId" => Ok(InvalidObjectId)
    case "PoolNotFound" => Ok(PoolNotFound)
    case "TransferNotFound" => Ok(TransferNotFound)
    case "AlreadyInPool" => Ok(AlreadyInPool)
    case "NotInPool" => Ok(NotInPool)
    case "NotInTransfer" => Ok(NotInTransfer)
    case "EnvVarNotFound" => Ok(EnvVarNotFound)
    case "ParseError" => Ok(ParseError)
    case "InvalidKeyPhrase" => Ok(InvalidKeyPhrase)
    case "EncryptionError" => Ok(EncryptionError)
    case "DecryptionError" => Ok(DecryptionError)
    case "FileNotFound" => Ok(FileNotFound)
    case _ => Err("")
  }

  /** Printing then parsing gives the error back, except for the two kinds `parse` does not list. */
  lemma ParseName(e: ServerError)
    ensures e != HashError && e != SseFailedToSend ==> Parse(Name(e)) == Ok(e)
    ensures e == HashError || e == SseFailedToSend ==> Parse(Name(e)) == Err("")
  {
  }

  /** Two kinds never print alike, so a reason names exactly one kind. */
  lemma NameInjective(a: ServerError, b: ServerError)
    ensures Name(a) == Name(b) ==> a == b
  {
    ParseName(a);
    ParseName(b);
  }
}
