/** Vocabulary shared by every service: identifiers, the acting user, the
    error kinds the services surface, and the Option/Result wrappers used to
    model thrown exceptions. */
module Common {

  datatype Option<+T> = None | Some(value: T) {
    /** The value when present, else `default`: how a patch field that was
        left out keeps the stored value. */
    function GetOr(default: T): T {
      match this
      case Some(v) => v
      case None => default
    }
  }

  /** The kind of HTTP exception a service or the guard throws. Only the kind
      is modelled, never the message text. */
  datatype ErrorKind = BadRequest | NotFound | Unauthorized | Forbidden

  /** An operation either returns a value or throws one of the exceptions above. */
  datatype Result<+T> = Ok(value: T) | Err(error: ErrorKind)

  /** Timestamps (`new Date()`, `dayjs()`) as milliseconds since the epoch. */
  type Time = int

  /** Document identifiers as they arrive in a request: any string. */
  type Id = string

  /** The authenticated caller (`IUser`): its id and email are what the
      services copy into the audit stamps. */
  datatype Actor = Actor(id: Id, email: string)

  predicate IsHexDigit(c: char) {
    '0' <= c <= '9' || 'a' <= c <= 'f' || 'A' <= c <= 'F'
  }

  /** `mongoose.Types.ObjectId.isValid` on a string: exactly 24 hexadecimal digits. */
  predicate IsObjectId(s: string) {
    |s| == 24 && forall i :: 0 <= i < |s| ==> IsHexDigit(s[i])
  }

  /** The `_id` generated by MongoDB for a new document is always a valid ObjectId
      and is not used by any other document of the collection. */
  predicate IsFreshId<V>(id: Id, used: map<Id, V>) {
    IsObjectId(id) && id !in used
  }

  /** JavaScript truthiness of an optional configuration string (`Boolean(x)`):
      absent and empty are false, every other string (even "false") is true. */
  predicate Truthy(s: Option<string>) {
    s.Some? && s.value != ""
  }
}
