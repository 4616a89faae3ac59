/** The outbox table and one worker's poll cycle (crates/outbox/src/worker.rs). */
module Outbox {
  import opened Common
  import opened Event

  type RowId = nat

  datatype RowStatus = Waiting | InProgress | Published | Exhausted

  /** Waiting is 'PENDING' and Exhausted is 'FAILED' in the table. */
  datatype Row = Row(
    eventId: EventId, payload: Json, createdAt: Time,
    status: RowStatus, failCount: nat, lockedAt: Option<Time>, publishedAt: Option<Time>)

  type Table = map<RowId, Row>

  // ── Statements as functions ───────────────────────────────────────────────

  function AfterClaim(t: Table, ids: set<RowId>, now: Time): Table {
    map i | i in t ::
      if i in ids && t[i].status.Waiting? then t[i].(status := InProgress, lockedAt := Some(now)) else t[i]
  }

  /** Guarded by IN_PROGRESS; no row matching is not an error. */
  function AfterPublished(t: Table, id: RowId, now: Time): Table {
    if id in t && t[id].status.InProgress? then
      t[id := t[id].(status := Published, publishedAt := Some(now), lockedAt := None)]
    else t
  }

  /** Not guarded by any status. */
  function AfterFailure(t: Table, id: RowId, maxFailures: int): Table {
    if id in t then
      t[id := t[id].(failCount := t[id].failCount + 1, lockedAt := None,
                     status := if t[id].failCount + 1 >= maxFailures then Exhausted else Waiting)]
    else t
  }

  /** A claim without a time counts as infinitely old. */
  predicate Stale(r: Row, timeoutSecs: nat, now: Time) {
    r.status.InProgress? && (r.lockedAt.Some? ==> r.lockedAt.value < now - timeoutSecs * NANOS_PER_SEC)
  }

  function AfterReap(t: Table, timeoutSecs: nat, now: Time): Table {
    map i | i in t :: if Stale(t[i], timeoutSecs, now) then t[i].(status := Waiting, lockedAt := None) else t[i]
  }

  // ── Batch order ───────────────────────────────────────────────────────────

  /** Rows without a usable priority go last. */
  function Priority(r: Row): nat {
    if r.payload.JObject? && "priority" in r.payload.fields && r.payload.fields["priority"].JNumber?
       && 0 <= r.payload.fields["priority"].number <= MAX_U64
    then r.payload.fields["priority"].number else MAX_U64
  }

  datatype Item = Item(id: RowId, row: Row)

  /** `x` goes behind every item of the same or a smaller priority value. */
  function Insert(s: seq<Item>, x: Item): (r: seq<Item>)
    ensures |r| == |s| + 1
  {
    if s == [] || Priority(s[|s| - 1].row) <= Priority(x.row) then s + [x]
    else Insert(s[..|s| - 1], x) + [s[|s| - 1]]
  }

  function SortByPriority(s: seq<Item>): (r: seq<Item>)
    ensures |r| == |s|
  {
    if s == [] then [] else Insert(SortByPriority(s[..|s| - 1]), s[|s| - 1])
  }

  predicate Sorted(s: seq<Item>) {
    forall i, j :: 0 <= i < j < |s| ==> Priority(s[i].row) <= Priority(s[j].row)
  }

  /** The items of one priority, in order. */
  function OfPriority(s: seq<Item>, p: nat): seq<Item> {
    if s == [] then []
    else OfPriority(s[..|s| - 1], p) + if Priority(s[|s| - 1].row) == p then [s[|s| - 1]] else []
  }

  lemma OfPriorityAppend(s: seq<Item>, x: Item, p: nat)
    ensures OfPriority(s + [x], p) == OfPriority(s, p) + if Priority(x.row) == p then [x] else []
  {
    assert (s + [x])[..|s + [x]| - 1] == s;
  }

  lemma {:induction false} InsertMembers(s: seq<Item>, x: Item)
    ensures multiset(Insert(s, x)) == multiset(s) + multiset{x}
    ensures forall y :: y in Insert(s, x) <==> y in s || y == x
  {
    if s != [] {
      var init, last := s[..|s| - 1], s[|s| - 1];
      assert s == init + [last];
      InsertMembers(init, x);
    }
  }

  lemma {:induction false} InsertSorted(s: seq<Item>, x: Item)
    requires Sorted(s)
    ensures Sorted(Insert(s, x))
  {
    if s != [] && Priority(s[|s| - 1].row) > Priority(x.row) {
      var init, last := s[..|s| - 1], s[|s| - 1];
      InsertSorted(init, x);
      InsertMembers(init, x);
      var t := Insert(init, x);
      forall i | 0 <= i < |t| ensures Priority(t[i].row) <= Priority(last.row) {
        assert t[i] in t;
      }
    }
  }

  lemma {:induction false} InsertStable(s: seq<Item>, x: Item, p: nat)
    requires Sorted(s)
    ensures OfPriority(Insert(s, x), p) == OfPriority(s, p) + if Priority(x.row) == p then [x] else []
  {
    if s == [] || Priority(s[|s| - 1].row) <= Priority(x.row) {
      OfPriorityAppend(s, x, p);
    } else {
      var init, last := s[..|s| - 1], s[|s| - 1];
      InsertStable(init, x, p);
      OfPriorityAppend(Insert(init, x), last, p);
      assert OfPriority(init, p) + [] == OfPriority(init, p);
    }
  }

  /** The batch is published by rising priority, and rows of equal priority keep the order
      the query gave them. */
  lemma {:induction false} SortIsStable(s: seq<Item>, p: nat)
    ensures Sorted(SortByPriority(s))
    ensures multiset(SortByPriority(s)) == multiset(s)
    ensures OfPriority(SortByPriority(s), p) == OfPriority(s, p)
  {
    if s != [] {
      var init, last := s[..|s| - 1], s[|s| - 1];
      assert s == init + [last];
      SortIsStable(init, p);
      InsertSorted(SortByPriority(init), last);
      InsertMembers(SortByPriority(init), last);
      InsertStable(SortByPriority(init), last, p);
    }
  }

  // ── What that order means for the payloads ────────────────────────────────

  /** The payload names priority `p`, a 64-bit number. */
  predicate HasNumber(r: Row, p: nat) {
    r.payload.JObject? && "priority" in r.payload.fields && r.payload.fields["priority"] == JNumber(p) && p <= MAX_U64
  }

  /** It names none, or nothing of use. */
  ghost predicate Unnumbered(r: Row) {
    forall p: nat :: !HasNumber(r, p)
  }

  lemma PriorityMeans(r: Row)
    ensures Unnumbered(r) ==> Priority(r) == MAX_U64
    ensures !Unnumbered(r) ==> HasNumber(r, Priority(r))
    ensures forall p: nat :: HasNumber(r, p) ==> Priority(r) == p
  {
    if r.payload.JObject? && "priority" in r.payload.fields && r.payload.fields["priority"].JNumber? {
      var n := r.payload.fields["priority"].number;
      assert 0 <= n <= MAX_U64 ==> HasNumber(r, n);
    }
  }

  /** Of any two rows of a batch, the one published later has no smaller number than the earlier
      one; and if only the later has a number, it is the largest there is. */
  lemma NumbersRise(s: seq<Item>, i: nat, k: nat)
    requires i < k < |s|
    ensures var x, y := SortByPriority(s)[i].row, SortByPriority(s)[k].row;
            && (forall p: nat, q: nat :: HasNumber(x, p) && HasNumber(y, q) ==> p <= q)
            && (forall q: nat :: Unnumbered(x) && HasNumber(y, q) ==> q == MAX_U64)
  {
    SortIsStable(s, 0);
    PriorityMeans(SortByPriority(s)[i].row);
    PriorityMeans(SortByPriority(s)[k].row);
  }

  /** The exception is real: a row without a number that the query gives first goes behind a
      numbered one exactly if that number is not the largest. */
  lemma NumberedFirstIff(x: Item, y: Item, q: nat)
    requires Unnumbered(x.row) && HasNumber(y.row, q)
    ensures SortByPriority([x, y]) == (if q < MAX_U64 then [y, x] else [x, y])
  {
    PriorityMeans(x.row);
    PriorityMeans(y.row);
    assert [x, y][..1] == [x] && [x][..0] == [];
    assert Insert([], x) == [x] && SortByPriority([x]) == [x];
    assert Insert([], y) == [y];
  }

  ghost predicate Has(r: Row, number: Option<nat>) {
    match number case Some(p) => HasNumber(r, p) case None => Unnumbered(r)
  }

  /** The items with this number, or those without one, in order. */
  ghost function Those(s: seq<Item>, number: Option<nat>): seq<Item> {
    if s == [] then []
    else Those(s[..|s| - 1], number) + if Has(s[|s| - 1].row, number) then [s[|s| - 1]] else []
  }

  lemma {:induction false} ThoseOfPriority(s: seq<Item>, number: Option<nat>, p: nat)
    requires forall r :: Has(r, number) ==> Priority(r) == p
    ensures Those(OfPriority(s, p), number) == Those(s, number)
  {
    if s != [] {
      var init, last := s[..|s| - 1], s[|s| - 1];
      ThoseOfPriority(init, number, p);
      if Priority(last.row) == p {
        assert (OfPriority(init, p) + [last])[..|OfPriority(init, p)|] == OfPriority(init, p);
      } else {
        assert OfPriority(init, p) + [] == OfPriority(init, p);
      }
    }
  }

  /** Rows with equal numbers, and rows without one, keep the order the query gave them. */
  lemma EqualsKeepOrder(s: seq<Item>, number: Option<nat>)
    ensures Those(SortByPriority(s), number) == Those(s, number)
  {
    var p := match number case Some(n) => n case None => MAX_U64;
    forall r | Has(r, number) ensures Priority(r) == p {
      PriorityMeans(r);
    }
    SortIsStable(s, p);
    ThoseOfPriority(s, number, p);
    ThoseOfPriority(SortByPriority(s), number, p);
  }

  // ── Envelopes ─────────────────────────────────────────────────────────────

  /** The canonical recipients array of an outbox payload. */
  function PromoteRecipients(payload: Json): Json {
    if payload.JObject? && "recipients" in payload.fields then payload.fields["recipients"]
    else if payload.JObject? && "recipient" in payload.fields then JArray([payload.fields["recipient"]])
    else JArray([])
  }

  /** The one part of a row that can keep its envelope from being built. */
  predicate HasEnvelope(r: Row) {
    DecodeRecipients(PromoteRecipients(r.payload)).Ok?
  }

  /** An envelope can be built exactly if all entries of "recipients" are recipients, or without
      that field the one under "recipient" is; with neither field it has no recipient. */
  lemma HasEnvelopeIff(r: Row)
    ensures HasEnvelope(r) <==>
              if !r.payload.JObject? then true
              else if "recipients" in r.payload.fields then
                && r.payload.fields["recipients"].JArray?
                && forall x :: x in r.payload.fields["recipients"].items ==> DecodeRecipient(x).Ok?
              else "recipient" in r.payload.fields ==> DecodeRecipient(r.payload.fields["recipient"]).Ok?
  {
  }

  // ── The worker ────────────────────────────────────────────────────────────

  datatype Confirm = Acked | Nacked | TimedOut | ChannelError

  /** A statement's fate: `applied` in the table, `reported` to the caller. */
  datatype Reply = Reply(applied: bool, reported: bool)

  /** What broker and database answer for one row, and whether the channel is still
      connected after a failure. */
  datatype RowAnswers = RowAnswers(confirm: Confirm, mark: Reply, record: Reply, connected: bool, now: Time)

  /** Table and broker after a batch, the rows it did not get to, and whether it found the
      channel disconnected. */
  datatype Drained = Drained(rows: Table, acked: seq<RowId>, abandoned: seq<Item>, broken: bool)

  function PublishOutcome(r: Row, a: RowAnswers): bool {
    HasEnvelope(r) && a.confirm.Acked? && a.mark.reported
  }

  /** The table after one row of the batch. */
  function AfterRow(t: Table, x: Item, a: RowAnswers, maxFailures: int): Table {
    var acked := HasEnvelope(x.row) && a.confirm.Acked?;
    var marked := if acked && a.mark.applied then AfterPublished(t, x.id, a.now) else t;
    if PublishOutcome(x.row, a) then marked
    else if a.record.applied then AfterFailure(marked, x.id, maxFailures) else marked
  }

  /** What `PollOnce` makes of a batch: it stops early only when a failure finds the
      channel disconnected, and then leaves the rest as claimed. */
  function Drain(t: Table, batch: seq<Item>, answers: seq<RowAnswers>, maxFailures: int): Drained
    requires |answers| == |batch|
  {
    if batch == [] then Drained(t, [], [], false)
    else
      var x, a := batch[0], answers[0];
      var acked := if HasEnvelope(x.row) && a.confirm.Acked? then [x.id] else [];
      var next := AfterRow(t, x, a, maxFailures);
      if !PublishOutcome(x.row, a) && !a.connected then Drained(next, acked, batch[1..], true)
      else
        var rest := Drain(next, batch[1..], answers[1..], maxFailures);
        Prepend(acked, rest)
  }

  function Prepend(acked: seq<RowId>, d: Drained): Drained {
    d.(acked := acked + d.acked)
  }

  lemma PrependTwice(xs: seq<RowId>, ys: seq<RowId>, d: Drained)
    ensures Prepend(xs, Prepend(ys, d)) == Prepend(xs + ys, d)
  {
    assert xs + (ys + d.acked) == (xs + ys) + d.acked;
  }

  function Ids(s: seq<Item>): set<RowId> {
    set x | x in s :: x.id
  }

  /** `batch` is what the claiming query may return: waiting rows no other transaction has
      locked, oldest first, at most `limit`, and fewer only if there are no more. */
  ghost predicate IsBatch(t: Table, limit: nat, skipped: set<RowId>, batch: seq<Item>) {
    && |batch| <= limit
    && (forall i :: 0 <= i < |batch| ==> Claimable(t, skipped, batch[i].id) && batch[i].row == t[batch[i].id])
    && (forall i, j :: 0 <= i < j < |batch| ==>
         batch[i].id != batch[j].id && batch[i].row.createdAt <= batch[j].row.createdAt)
    && (forall id :: Claimable(t, skipped, id) && id !in Ids(batch) ==>
          |batch| == limit && forall i :: 0 <= i < |batch| ==> batch[i].row.createdAt <= t[id].createdAt)
  }

  predicate Claimable(t: Table, skipped: set<RowId>, id: RowId) {
    id in t && t[id].status.Waiting? && id !in skipped
  }

  lemma {:induction false} Oldest(t: Table, ids: set<RowId>) returns (id: RowId)
    requires ids != {} && ids <= t.Keys
    ensures id in ids && forall o :: o in ids ==> t[id].createdAt <= t[o].createdAt
    decreases ids
  {
    id :| id in ids;
    assert forall x :: x in ids ==> x == id || x in ids - {id};
    if ids - {id} != {} {
      var o := Oldest(t, ids - {id});
      if t[o].createdAt < t[id].createdAt {
        id := o;
      }
    }
  }

  class OutboxDb {
    var rows: Table

    /** The claiming query: waiting rows by age, skipping locked ones. */
    method SelectWaiting(limit: nat, skipped: set<RowId>) returns (batch: seq<Item>)
      ensures IsBatch(rows, limit, skipped, batch)
    {
      var todo := set i | i in rows && rows[i].status.Waiting? && i !in skipped;
      batch := [];
      while |batch| < limit && todo != {}
        invariant |batch| <= limit
        invariant forall i :: i in todo ==> Claimable(rows, skipped, i)
        invariant forall i :: 0 <= i < |batch| ==>
                  Claimable(rows, skipped, batch[i].id) && batch[i].row == rows[batch[i].id]
        invariant forall i :: 0 <= i < |batch| ==> batch[i].id !in todo
        invariant forall i, j :: 0 <= i < j < |batch| ==>
                  batch[i].id != batch[j].id && batch[i].row.createdAt <= batch[j].row.createdAt
        invariant forall i, o :: 0 <= i < |batch| && o in todo ==> batch[i].row.createdAt <= rows[o].createdAt
        invariant forall i :: Claimable(rows, skipped, i) ==> i in todo || i in Ids(batch)
        decreases todo
      {
        ghost var least := Oldest(rows, todo);
        var id :| id in todo && forall o :: o in todo ==> rows[id].createdAt <= rows[o].createdAt;
        assert Ids(batch + [Item(id, rows[id])]) == Ids(batch) + {id};
        batch := batch + [Item(id, rows[id])];
        todo := todo - {id};
      }
    }

    /** One transaction: choose, lock and claim.  `chosen` is the query's answer even if the
        caller never learns it. */
    method FetchPendingBatch(limit: nat, skipped: set<RowId>, now: Time, up: Reply)
      returns (r: Result<seq<Item>, AppError>, ghost chosen: seq<Item>)
      modifies this
      ensures IsBatch(old(rows), limit, skipped, chosen)
      ensures if up.reported then r == Ok(chosen) else r.Err?
      ensures rows == if up.applied then AfterClaim(old(rows), Ids(chosen), now) else old(rows)
    {
      var batch := SelectWaiting(limit, skipped);
      if up.applied {
        rows := AfterClaim(rows, Ids(batch), now);
      }
      return if up.reported then Ok(batch) else Err(DatabaseError("outbox")), batch;
    }

    method MarkPublished(id: RowId, now: Time, up: Reply) returns (ok: bool)
      modifies this
      ensures rows == if up.applied then AfterPublished(old(rows), id, now) else old(rows)
      ensures ok == up.reported
    {
      if up.applied && id in rows && rows[id].status.InProgress? {
        rows := rows[id := rows[id].(status := Published, publishedAt := Some(now), lockedAt := None)];
      }
      return up.reported;
    }

    method RecordPublishFailure(id: RowId, maxFailures: int, up: Reply)
      modifies this
      ensures rows == if up.applied then AfterFailure(old(rows), id, maxFailures) else old(rows)
    {
      if up.applied && id in rows {
        var count := rows[id].failCount + 1;
        rows := rows[id := rows[id].(failCount := count, lockedAt := None,
                                     status := if count >= maxFailures then Exhausted else Waiting)];
      }
    }

    /** Returns how many rows were reset. */
    method ReapStaleInProgress(timeoutSecs: nat, now: Time, up: bool) returns (r: Result<nat, AppError>)
      modifies this
      ensures rows == if up then AfterReap(old(rows), timeoutSecs, now) else old(rows)
      ensures r == if up then Ok(|set i | i in old(rows) && Stale(old(rows)[i], timeoutSecs, now)|)
                   else Err(DatabaseError("outbox"))
    {
      if !up {
        return Err(DatabaseError("outbox"));
      }
      var stale := set i | i in rows && Stale(rows[i], timeoutSecs, now);
      rows := AfterReap(rows, timeoutSecs, now);
      return Ok(|stale|);
    }

    /** Publish, wait for the confirm, then mark. */
    method PublishAndMark(x: Item, a: RowAnswers) returns (ok: bool, acked: seq<RowId>)
      modifies this
      ensures acked == if HasEnvelope(x.row) && a.confirm.Acked? then [x.id] else []
      ensures ok == PublishOutcome(x.row, a)
      ensures rows == if acked != [] && a.mark.applied then AfterPublished(old(rows), x.id, a.now) else old(rows)
    {
      if DecodeRecipients(PromoteRecipients(x.row.payload)).Err? {
        return false, [];
      }
      match a.confirm {
        case Acked =>
          ok := MarkPublished(x.id, a.now, a.mark);
          return ok, [x.id];
        case _ =>
          return false, [];
      }
    }

    /** One poll cycle.  `more` is false when there was nothing to do. */
    method PollOnce(limit: nat, maxFailures: int, skipped: set<RowId>, claim: Reply, now: Time,
                    answers: seq<RowAnswers>)
      returns (more: Result<bool, AppError>, ghost batch: seq<Item>, acked: seq<RowId>)
      requires |answers| == limit
      modifies this
      ensures IsBatch(old(rows), limit, skipped, batch)
      ensures claim.reported ==>
                var claimed := if claim.applied then AfterClaim(old(rows), Ids(batch), now) else old(rows);
                var d := Drain(claimed, SortByPriority(batch), answers[..|batch|], maxFailures);
                && rows == d.rows && acked == d.acked
                && (if d.broken then more.Err? else more == Ok(batch != []))
      ensures !claim.reported ==> more == Ok(false) && acked == []
                                  && rows == if claim.applied then AfterClaim(old(rows), Ids(batch), now) else old(rows)
    {
      acked := [];
      var fetched;
      fetched, batch := FetchPendingBatch(limit, skipped, now, claim);
      if fetched.Err? {
        return Ok(false), batch, acked;
      }
      if fetched.value == [] {
        return Ok(false), batch, acked;
      }
      var broken;
      broken, acked := PublishBatch(SortByPriority(fetched.value), answers[..|fetched.value|], maxFailures);
      return if broken then Err(QueueError("channel disconnected")) else Ok(true), batch, acked;
    }

    method PublishBatch(batch: seq<Item>, answers: seq<RowAnswers>,
                        maxFailures: int)
      returns (broken: bool, acked: seq<RowId>)
      requires |answers| == |batch|
      modifies this
      ensures var d := Drain(old(rows), batch, answers, maxFailures);
              rows == d.rows && acked == d.acked && broken == d.broken
    {
      acked := [];
      ghost var whole := Drain(rows, batch, answers, maxFailures);
      ghost var rest := whole;
      assert batch[0..] == batch && answers[0..] == answers;
      for i := 0 to |batch|
        invariant rest == Drain(rows, batch[i..], answers[i..], maxFailures)
        invariant whole == Prepend(acked, rest)
      {
        assert batch[i..][1..] == batch[i + 1..] && answers[i..][1..] == answers[i + 1..];
        var ok, sent := PublishAndMark(batch[i], answers[i]);
        if !ok {
          RecordPublishFailure(batch[i].id, maxFailures, answers[i].record);
        }
        if !ok && !answers[i].connected {
          assert rest == Drained(rows, sent, batch[i + 1..], true);
          return true, acked + sent;
        }
        ghost var next := Drain(rows, batch[i + 1..], answers[i + 1..], maxFailures);
        assert rest == Prepend(sent, next);
        PrependTwice(acked, sent, next);
        acked, rest := acked + sent, next;
      }
      return false, acked;
    }
  }
}
