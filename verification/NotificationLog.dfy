/** The per-recipient status table (crates/store/src/notification_log.rs).

    Every SQL statement is a function on the table; the class `NotificationStore`
    runs them in place.  A statement's `up` flag is the database's answer: when it
    is false the statement fails and nothing is written. */
module NotificationLog {
  import opened Common
  import opened Event

  /** The idempotency key (event_id, 'email', recipient_id). */
  datatype Key = Key(event: EventId, recipient: Email)

  /** The email_notification_log half of a row. */
  datatype EmailDetail = EmailDetail(
    recipientName: Option<string>, fromOverride: Option<Json>, attachments: Option<Json>,
    senderAccount: Option<string>, cc: Option<Json>, bcc: Option<Json>,
    sendMode: Option<string>, groupRetryMode: Option<string>, toRecipients: Option<Json>)

  datatype Row = Row(
    eventType: string, payload: Json, eventTimestamp: Time,
    createdAt: Time, updatedAt: Time,
    status: Status, retryCount: nat, totalAttempts: nat, lastError: Option<string>,
    detail: Option<EmailDetail>)

  type Table = map<Key, Row>

  datatype InsertArgs = InsertArgs(
    key: Key, eventType: string, payload: Json, eventTimestamp: Time, detail: EmailDetail)

  datatype InsertResult = Inserted | Duplicate(retryCount: nat, status: Status)

  // ── Statements as functions ───────────────────────────────────────────────

  function FreshRow(a: InsertArgs, now: Time): Row {
    Row(a.eventType, a.payload, a.eventTimestamp, now, now, Pending, 0, 0, None, Some(a.detail))
  }

  /** A conflicting row is returned as it is: `updated_at` keeps its own value. */
  function AfterInsert(t: Table, a: InsertArgs, now: Time): Table {
    if a.key in t then t else t[a.key := FreshRow(a, now)]
  }

  function InsertOutcome(t: Table, a: InsertArgs): InsertResult {
    if a.key in t then Duplicate(t[a.key].retryCount, t[a.key].status) else Inserted
  }

  function AfterInsertAll(t: Table, args: seq<InsertArgs>, now: Time): Table {
    if args == [] then t
    else AfterInsert(AfterInsertAll(t, args[..|args| - 1], now), args[|args| - 1], now)
  }

  function SentRow(r: Row, now: Time): Row {
    r.(status := Sent, totalAttempts := r.totalAttempts + 1, updatedAt := now)
  }

  function FailedRow(r: Row, message: string, exhausted: bool, now: Time): Row {
    r.(retryCount := r.retryCount + 1, totalAttempts := r.totalAttempts + 1,
       lastError := Some(message), status := if exhausted then Failed else Pending, updatedAt := now)
  }

  function BlockedRow(r: Row, reason: string, now: Time): Row {
    r.(status := Blocked, lastError := Some(reason), updatedAt := now)
  }

  function ResetRow(r: Row, now: Time): Row {
    r.(status := Pending, retryCount := 0, lastError := None, updatedAt := now)
  }

  function RevertedRow(r: Row, reason: string, now: Time): Row {
    r.(status := Failed, lastError := Some(reason), updatedAt := now)
  }

  function AfterMarkSent(t: Table, k: Key, now: Time): Table {
    if k in t then t[k := SentRow(t[k], now)] else t
  }

  function AfterMarkFailed(t: Table, k: Key, message: string, exhausted: bool, now: Time): Table {
    if k in t then t[k := FailedRow(t[k], message, exhausted, now)] else t
  }

  function AfterMarkBlocked(t: Table, k: Key, reason: string, now: Time): Table {
    if k in t then t[k := BlockedRow(t[k], reason, now)] else t
  }

  function SkippedRow(eventType: string, reason: string, timestamp: Time, payload: Json, now: Time): Row {
    Row(eventType, payload, timestamp, now, now, Skipped, 0, 0, Some(reason), None)
  }

  function AfterReset(t: Table, keys: set<Key>, now: Time): Table {
    map k | k in t :: if k in keys then ResetRow(t[k], now) else t[k]
  }

  function FailedKeys(t: Table, e: EventId): set<Key> {
    set k | k in t && k.event == e && t[k].status.Failed?
  }

  function AfterRevert(t: Table, keys: set<Key>, reason: string, now: Time): Table {
    map k | k in t :: if k in keys && t[k].status.Pending? then RevertedRow(t[k], reason, now) else t[k]
  }

  const ORPHANED := "Orphaned by stale-PENDING reaper"

  predicate Stale(r: Row, timeoutSecs: nat, now: Time) {
    r.status.Pending? && r.updatedAt < now - timeoutSecs * NANOS_PER_SEC
  }

  function AfterReap(t: Table, timeoutSecs: nat, now: Time): Table {
    map k | k in t :: if Stale(t[k], timeoutSecs, now) then RevertedRow(t[k], ORPHANED, now) else t[k]
  }

  /** A reap fails exactly the PENDING rows that have outlived the timeout.  With a timeout of
      zero those are all that were written before it, the ones in flight included. */
  lemma ReapFailsOutlived(t: Table, timeoutSecs: nat, now: Time, k: Key)
    requires k in t && t[k].status.Pending?
    ensures AfterReap(t, timeoutSecs, now)[k].status.Failed? <==> now - t[k].updatedAt > timeoutSecs * NANOS_PER_SEC
    ensures timeoutSecs == 0 && t[k].updatedAt < now ==> AfterReap(t, timeoutSecs, now)[k].status.Failed?
  {
  }

  // ── What the statements keep ──────────────────────────────────────────────

  /** The columns a manual retry replays. */
  predicate SameReplayColumns(r: Row, s: Row) {
    && r.eventType == s.eventType && r.payload == s.payload && r.eventTimestamp == s.eventTimestamp
    && r.createdAt == s.createdAt && r.detail == s.detail
  }

  /** `u` is a later state of `t`: no row disappears and replay columns never change. */
  ghost predicate Evolves(t: Table, u: Table) {
    forall k :: k in t ==> k in u && SameReplayColumns(t[k], u[k])
  }

  /** No row, or a row that nobody needs to drive any further. */
  predicate Settled(rows: Table, k: Key) {
    k in rows ==> rows[k].status.Sent? || rows[k].status.Failed? || rows[k].status.Blocked?
  }

  lemma EvolvesTransitive(t: Table, u: Table, v: Table)
    requires Evolves(t, u) && Evolves(u, v)
    ensures Evolves(t, v)
  {
    forall k | k in t ensures k in v && SameReplayColumns(t[k], v[k]) {
      assert k in u;
    }
  }

  /** Where a key's row in the batch's result comes from: the old table, or the first
      occurrence of the key in the batch. */
  lemma {:induction false} BatchRow(t: Table, args: seq<InsertArgs>, now: Time, k: Key)
    ensures k in t ==> k in AfterInsertAll(t, args, now) && AfterInsertAll(t, args, now)[k] == t[k]
    ensures k !in t ==>
              (k in AfterInsertAll(t, args, now) <==> exists j :: 0 <= j < |args| && args[j].key == k)
    ensures k !in t && k in AfterInsertAll(t, args, now) ==>
              exists j :: 0 <= j < |args| && args[j].key == k && (forall i :: 0 <= i < j ==> args[i].key != k)
                          && AfterInsertAll(t, args, now)[k] == FreshRow(args[j], now)
  {
    if args != [] {
      var init, last := args[..|args| - 1], args[|args| - 1];
      BatchRow(t, init, now, k);
      var before := AfterInsertAll(t, init, now);
      if k !in t && k in before {
        var j :| 0 <= j < |init| && init[j].key == k && (forall i :: 0 <= i < j ==> init[i].key != k)
                 && before[k] == FreshRow(init[j], now);
        assert args[j] == init[j];
        assert forall i :: 0 <= i < j ==> args[i] == init[i];
      } else if k !in t && last.key == k {
        assert forall i :: 0 <= i < |init| ==> args[i] == init[i];
        assert args[|init|].key == k;
      } else if k !in t {
        assert forall i :: 0 <= i < |init| ==> args[i] == init[i];
      }
    }
  }

  /** A batch result describes the recipient at its own index: `Duplicate` exactly when
      the key was there already, and then with that row's status, or stands earlier in
      the batch, and then PENDING with no retries. */
  lemma BatchAlignment(t: Table, args: seq<InsertArgs>, now: Time, i: nat)
    requires i < |args|
    ensures var k := args[i].key;
            InsertOutcome(AfterInsertAll(t, args[..i], now), args[i])
            == if k in t then Duplicate(t[k].retryCount, t[k].status)
               else if exists j :: 0 <= j < i && args[j].key == k then Duplicate(0, Pending)
               else Inserted
  {
    var k := args[i].key;
    BatchRow(t, args[..i], now, k);
    if j :| 0 <= j < i && args[j].key == k {
      assert args[..i][j].key == k;
    }
  }

  lemma BatchPrefix(t: Table, args: seq<InsertArgs>, now: Time, i: nat)
    requires i < |args|
    ensures AfterInsertAll(t, args[..i + 1], now) == AfterInsert(AfterInsertAll(t, args[..i], now), args[i], now)
  {
    assert args[..i + 1][..i] == args[..i];
  }

  /** `results` are the answers to the first statements of the batch. */
  ghost predicate Recorded(t: Table, args: seq<InsertArgs>, now: Time, results: seq<InsertResult>) {
    |results| <= |args|
    && forall i :: 0 <= i < |results| ==> results[i] == InsertOutcome(AfterInsertAll(t, args[..i], now), args[i])
  }

  lemma RecordStep(t: Table, args: seq<InsertArgs>, now: Time, results: seq<InsertResult>, next: InsertResult)
    requires Recorded(t, args, now, results) && |results| < |args|
    requires next == InsertOutcome(AfterInsertAll(t, args[..|results|], now), args[|results|])
    ensures Recorded(t, args, now, results + [next])
  {
  }

  // ── The store ─────────────────────────────────────────────────────────────

  function DatabaseDown<T>(): Result<T, AppError> {
    Err(DatabaseError("database unavailable"))
  }

  function NoRow<T>(): Result<T, AppError> {
    Err(NotFoundError("no row"))
  }

  class NotificationStore {
    var rows: Table

    constructor ()
      ensures rows == map[]
    {
      rows := map[];
    }

    method InsertPending(a: InsertArgs, now: Time, up: bool) returns (r: Result<InsertResult, AppError>)
      modifies this
      ensures !up ==> r == DatabaseDown() && rows == old(rows)
      ensures up ==> r == Ok(InsertOutcome(old(rows), a)) && rows == AfterInsert(old(rows), a, now)
    {
      if !up {
        return DatabaseDown();
      }
      if a.key in rows {
        return Ok(Duplicate(rows[a.key].retryCount, rows[a.key].status));
      }
      rows := rows[a.key := FreshRow(a, now)];
      return Ok(Inserted);
    }

    /** One transaction.  `failAt` is the statement the database refuses, if any; the
        commit is statement `|args|`. */
    method InsertPendingBatch(args: seq<InsertArgs>, now: Time, failAt: Option<nat>)
      returns (r: Result<seq<InsertResult>, AppError>)
      modifies this
      ensures failAt.Some? && failAt.value <= |args| ==> r == DatabaseDown() && rows == old(rows)
      ensures failAt.None? || failAt.value > |args| ==>
                && rows == AfterInsertAll(old(rows), args, now)
                && r.Ok? && |r.value| == |args| && Recorded(old(rows), args, now, r.value)
    {
      var tx := rows;
      var results: seq<InsertResult> := [];
      for i := 0 to |args|
        invariant rows == old(rows)
        invariant failAt.Some? ==> failAt.value >= i
        invariant tx == AfterInsertAll(old(rows), args[..i], now)
        invariant |results| == i && Recorded(old(rows), args, now, results)
      {
        if failAt == Some(i) {
          return DatabaseDown();
        }
        var a := args[i];
        BatchPrefix(old(rows), args, now, i);
        RecordStep(old(rows), args, now, results, InsertOutcome(tx, a));
        if a.key in tx {
          results := results + [Duplicate(tx[a.key].retryCount, tx[a.key].status)];
          continue;
        }
        tx := tx[a.key := FreshRow(a, now)];
        results := results + [Inserted];
      }
      if failAt == Some(|args|) {
        return DatabaseDown();
      }
      assert args[..|args|] == args;
      rows := tx;
      return Ok(results);
    }

    method MarkSent(k: Key, now: Time, up: bool) returns (r: Result<(), AppError>)
      modifies this
      ensures rows == if up then AfterMarkSent(old(rows), k, now) else old(rows)
      ensures r.Ok? <==> up && k in old(rows)
    {
      if !up {
        return DatabaseDown();
      }
      if k !in rows {
        return NoRow();
      }
      rows := rows[k := SentRow(rows[k], now)];
      return Ok(());
    }

    method MarkFailed(k: Key, message: string, exhausted: bool, now: Time, up: bool)
      returns (r: Result<(), AppError>)
      modifies this
      ensures rows == if up then AfterMarkFailed(old(rows), k, message, exhausted, now) else old(rows)
      ensures r.Ok? <==> up && k in old(rows)
    {
      if !up {
        return DatabaseDown();
      }
      if k !in rows {
        return NoRow();
      }
      rows := rows[k := FailedRow(rows[k], message, exhausted, now)];
      return Ok(());
    }

    method MarkBlocked(k: Key, reason: string, now: Time, up: bool) returns (r: Result<(), AppError>)
      modifies this
      ensures rows == if up then AfterMarkBlocked(old(rows), k, reason, now) else old(rows)
      ensures r.Ok? <==> up && k in old(rows)
    {
      if !up {
        return DatabaseDown();
      }
      if k !in rows {
        return NoRow();
      }
      rows := rows[k := BlockedRow(rows[k], reason, now)];
      return Ok(());
    }

    /** INSERT … ON CONFLICT DO NOTHING. */
    method MarkSkipped(k: Key, eventType: string, reason: string, timestamp: Time, payload: Json, now: Time, up: bool)
      returns (r: Result<(), AppError>)
      modifies this
      ensures r.Ok? <==> up
      ensures rows == if up && k !in old(rows)
        then old(rows)[k := SkippedRow(eventType, reason, timestamp, payload, now)] else old(rows)
    {
      if !up {
        return DatabaseDown();
      }
      if k !in rows {
        rows := rows[k := SkippedRow(eventType, reason, timestamp, payload, now)];
      }
      return Ok(());
    }

    method GetByEventAndRecipient(k: Key, up: bool) returns (r: Result<Row, AppError>)
      ensures r.Ok? <==> up && k in rows && !rows[k].status.Unrecognised?
      ensures r.Ok? ==> r.value == rows[k]
    {
      if !up {
        return DatabaseDown();
      }
      if k !in rows {
        return NoRow();
      }
      if rows[k].status.Unrecognised? {
        return Err(UnknownStatusError(rows[k].status.text));
      }
      return Ok(rows[k]);
    }

    method ResetForRetry(k: Key, now: Time, up: bool) returns (r: Result<(), AppError>)
      modifies this
      ensures r.Ok? <==> up && k in old(rows) && old(rows)[k].status.IsRetryableRow()
      ensures rows == if r.Ok? then AfterReset(old(rows), {k}, now) else old(rows)
    {
      if !up {
        return DatabaseDown();
      }
      if k !in rows || !rows[k].status.IsRetryableRow() {
        return NoRow();
      }
      var before := rows;
      rows := rows[k := ResetRow(rows[k], now)];
      assert rows == AfterReset(before, {k}, now);
      return Ok(());
    }

    method ResetAllFailedForEvent(e: EventId, now: Time, up: bool) returns (r: Result<set<Key>, AppError>)
      modifies this
      ensures !up ==> r.Err? && rows == old(rows)
      ensures up ==> r == Ok(FailedKeys(old(rows), e))
      ensures up ==> rows == AfterReset(old(rows), FailedKeys(old(rows), e), now)
    {
      if !up {
        return DatabaseDown();
      }
      var keys := FailedKeys(rows, e);
      rows := AfterReset(rows, keys, now);
      return Ok(keys);
    }

    method RevertToFailed(keys: set<Key>, reason: string, now: Time, up: bool) returns (r: Result<nat, AppError>)
      modifies this
      ensures !up ==> r.Err? && rows == old(rows)
      ensures up ==> rows == AfterRevert(old(rows), keys, reason, now)
      ensures up ==> r == Ok(|set k | k in keys && k in old(rows) && old(rows)[k].status.Pending?|)
    {
      if !up {
        return DatabaseDown();
      }
      var affected := set k | k in keys && k in rows && rows[k].status.Pending?;
      rows := AfterRevert(rows, keys, reason, now);
      return Ok(|affected|);
    }

    /** Returns each affected event once, whatever order the rows come back in. */
    method ReapStalePending(timeoutSecs: nat, now: Time, up: bool) returns (r: Result<seq<EventId>, AppError>)
      modifies this
      ensures !up ==> r.Err? && rows == old(rows)
      ensures up ==> rows == AfterReap(old(rows), timeoutSecs, now)
      ensures up ==> r.Ok? && Distinct(r.value)
      ensures up ==> forall e :: e in r.value <==>
                exists k :: k in old(rows) && k.event == e && Stale(old(rows)[k], timeoutSecs, now)
    {
      if !up {
        return DatabaseDown();
      }
      var reaped := set k | k in rows && Stale(rows[k], timeoutSecs, now);
      rows := AfterReap(rows, timeoutSecs, now);
      var todo, ids := reaped, [];
      while todo != {}
        invariant todo <= reaped
        invariant Distinct(ids)
        invariant forall k :: k in reaped && k !in todo ==> k.event in ids
        invariant forall e :: e in ids ==> exists k :: k in reaped && k.event == e
        decreases todo
      {
        var k :| k in todo;
        todo := todo - {k};
        if k.event !in ids {
          ids := ids + [k.event];
        }
      }
      return Ok(ids);
    }
  }
}
