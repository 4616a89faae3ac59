/** Types shared by every component: results, the error type of
    crates/common/src/error.rs, delivery statuses and recipients. */
module Common {
  datatype Option<+T> = None | Some(value: T)

  datatype Result<+T, +E> = Ok(value: T) | Err(error: E)

  type EventId = nat
  type Email = string

  /** Nanoseconds since the epoch. */
  type Time = int

  const NANOS_PER_SEC: int := 1_000_000_000
  const NANOS_PER_MILLI: int := 1_000_000

  const MAX_U64: nat := 0xFFFF_FFFF_FFFF_FFFF

  datatype MailerKind = Transient | Permanent

  datatype AppError =
    | DatabaseError(message: string)
    | MailerError(message: string, kind: MailerKind)
    | TemplateError(message: string)
    | RateLimitedError(message: string)
    | BlockedError(message: string)
    | QueueError(message: string)
    | DeserializeError(message: string)
    | NotFoundError(message: string)
    | DuplicateError(message: string)
    | UnknownStatusError(message: string)
  {
    predicate IsPermanentMailer() {
      MailerError? && kind.Permanent?
    }

    /** Errors the retry loops treat as worth another attempt. */
    predicate IsRetryable() {
      match this
      case DuplicateError(_) => false
      case NotFoundError(_) => false
      case TemplateError(_) => false
      case BlockedError(_) => false
      case UnknownStatusError(_) => false
      case _ => !IsPermanentMailer()
    }
  }

  function PermanentMailer(message: string): AppError {
    MailerError(message, Permanent)
  }

  /** The `status` column.  `Unrecognised` is a text the binary cannot parse. */
  datatype Status = Pending | Sent | Failed | Blocked | Skipped | Unrecognised(text: string)
  {
    /** The two states in which the consumer refuses to touch a recipient again. */
    predicate IsTerminal() {
      Sent? || Blocked?
    }

    /** The states `reset_for_retry` accepts. */
    predicate IsRetryableRow() {
      Failed? || Blocked?
    }
  }

  datatype Recipient = Recipient(email: Email, name: Option<string>)

  predicate Distinct<T(==)>(s: seq<T>) {
    forall i, j :: 0 <= i < j < |s| ==> s[i] != s[j]
  }
}
