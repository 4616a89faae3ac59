/** What the statements on the status table write, column by column
    (crates/store/src/notification_log.rs). */
module Statements {
  import opened Common
  import opened NotificationLog

  datatype Statement =
    | Insert(args: InsertArgs)
    | MarkedSent(key: Key)
    | MarkedFailed(key: Key, message: string, exhausted: bool)
    | MarkedBlocked(key: Key, reason: string)
    | Reset(keys: set<Key>)
    | Revert(keys: set<Key>, reason: string)
    | Reap(timeoutSecs: nat)

  function After(t: Table, s: Statement, now: Time): Table {
    match s
    case Insert(args) => AfterInsert(t, args, now)
    case MarkedSent(k) => AfterMarkSent(t, k, now)
    case MarkedFailed(k, message, exhausted) => AfterMarkFailed(t, k, message, exhausted, now)
    case MarkedBlocked(k, reason) => AfterMarkBlocked(t, k, reason, now)
    case Reset(keys) => AfterReset(t, keys, now)
    case Revert(keys, reason) => AfterRevert(t, keys, reason, now)
    case Reap(timeoutSecs) => AfterReap(t, timeoutSecs, now)
  }

  /** The statement's WHERE clause picks the row; a conflicting insert picks none. */
  predicate Picks(s: Statement, k: Key, r: Row, now: Time) {
    match s
    case Insert(_) => false
    case Reset(keys) => k in keys
    case Revert(keys, _) => k in keys && r.status == Pending
    case Reap(timeoutSecs) => r.status == Pending && now - r.updatedAt > timeoutSecs * NANOS_PER_SEC
    case _ => k == s.key
  }

  /** The text a statement leaves in the rows it picks. */
  function ErrorLeft(s: Statement, before: Option<string>): Option<string> {
    match s
    case MarkedFailed(_, message, _) => Some(message)
    case MarkedBlocked(_, reason) => Some(reason)
    case Revert(_, reason) => Some(reason)
    case Reap(_) => Some(ORPHANED)
    case Reset(_) => None
    case _ => before
  }

  /** An existing row changes only if it is picked, and then in these columns: it is stamped with
      the time and gets the statement's status and error; attempts count deliveries and failures,
      retries count failures until a reset; replay columns stay. */
  lemma StatementWrites(t: Table, s: Statement, now: Time, k: Key)
    requires k in t
    ensures var u := After(t, s, now);
            && k in u && (!Picks(s, k, t[k], now) ==> u[k] == t[k])
            && (Picks(s, k, t[k], now) ==>
                  && SameReplayColumns(t[k], u[k]) && u[k].updatedAt == now
                  && u[k].status == (if s.MarkedSent? then Sent else if s.MarkedBlocked? then Blocked
                                     else if s.Reset? || (s.MarkedFailed? && !s.exhausted) then Pending else Failed)
                  && u[k].lastError == ErrorLeft(s, t[k].lastError)
                  && u[k].totalAttempts == t[k].totalAttempts + (if s.MarkedSent? || s.MarkedFailed? then 1 else 0)
                  && u[k].retryCount == if s.Reset? then 0
                                        else t[k].retryCount + if s.MarkedFailed? then 1 else 0)
  {
  }

  /** A row appears only by an insert: PENDING, without a count, stamped with the time and with
      the columns given. */
  lemma InsertWrites(t: Table, s: Statement, now: Time, k: Key)
    requires k !in t && k in After(t, s, now)
    ensures s.Insert? && k == s.args.key
    ensures var r := After(t, s, now)[k];
            && r.status == Pending && r.retryCount == r.totalAttempts == 0 && r.lastError.None?
            && r.createdAt == r.updatedAt == now
            && r.eventType == s.args.eventType && r.payload == s.args.payload
            && r.eventTimestamp == s.args.eventTimestamp && r.detail == Some(s.args.detail)
  {
  }
}
