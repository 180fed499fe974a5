/** Wire enumerations (src/tracking/types.rs:34-79) and the classes of error
    (src/tracking/errors.rs:56-70). */
module Types {
  import opened Bytes
  import opened Wrappers

  datatype ErrorCode = Auth | TrackNotFound | Fenced | TryAgain | Invalid | Unauthorized

  datatype AckStatus = Unspecified | Okay | Rejected | Failed

  function ErrorCodeByte(c: ErrorCode): Byte {
    match c
    case Auth => 1
    case TrackNotFound => 2
    case Fenced => 3
    case TryAgain => 4
    case Invalid => 5
    case Unauthorized => 6
  }

  function ErrorCodeFrom(v: Byte): Option<ErrorCode> {
    if v == 1 then Some(Auth)
    else if v == 2 then Some(TrackNotFound)
    else if v == 3 then Some(Fenced)
    else if v == 4 then Some(TryAgain)
    else if v == 5 then Some(Invalid)
    else if v == 6 then Some(Unauthorized)
    else None
  }

  function AckStatusByte(s: AckStatus): Byte {
    match s
    case Unspecified => 0
    case Okay => 1
    case Rejected => 2
    case Failed => 3
  }

  function AckStatusFrom(v: Byte): AckStatus {
    if v == 1 then Okay else if v == 2 then Rejected else if v == 3 then Failed else Unspecified
  }

  /** The local track is gone. */
  predicate FatalResumeError(c: ErrorCode) {
    c.TrackNotFound? || c.Auth?
  }
}
