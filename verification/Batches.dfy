/** What a published batch comes to, row by row (`poll_once`, crates/outbox/src/worker.rs). */
module Batches {
  import opened Common
  import opened Outbox

  /** The row has an envelope, the broker acknowledges it and the mark is reported. */
  predicate Succeeds(x: Item, a: RowAnswers) {
    HasEnvelope(x.row) && a.confirm == Acked && a.mark.reported
  }

  /** The broker acknowledges the row and the mark is applied, reported or not. */
  predicate Marked(x: Item, a: RowAnswers) {
    HasEnvelope(x.row) && a.confirm == Acked && a.mark.applied
  }

  /** Row `i` fails, and the channel is found dead after it. */
  predicate BreaksAt(batch: seq<Item>, answers: seq<RowAnswers>, i: nat) {
    i < |batch| && i < |answers| && !Succeeds(batch[i], answers[i]) && !answers[i].connected
  }

  /** The ids of the rows the broker acknowledges, in order. */
  function Acknowledged(batch: seq<Item>, answers: seq<RowAnswers>): seq<RowId>
    requires |batch| <= |answers|
  {
    if batch == [] then []
    else
      (if HasEnvelope(batch[0].row) && answers[0].confirm == Acked then [batch[0].id] else [])
      + Acknowledged(batch[1..], answers[1..])
  }

  predicate SameRow(t: Table, u: Table, id: RowId) {
    (id in t <==> id in u) && (id in t ==> t[id] == u[id])
  }

  predicate DistinctIds(batch: seq<Item>) {
    forall i, k :: 0 <= i < k < |batch| ==> batch[i].id != batch[k].id
  }

  /** How many rows of the batch were handled. */
  function Reached(batch: seq<Item>, d: Drained): int {
    |batch| - |d.abandoned|
  }

  /** What becomes of a claimed row: PUBLISHED exactly if it was acknowledged and marked and no
      failure was recorded after that; a recorded failure counts, releases the claim and gives the
      row up at the limit; otherwise the row stays as it was.  Nothing else changes. */
  lemma RowEnds(t: Table, x: Item, a: RowAnswers, maxFailures: int)
    requires x.id in t && t[x.id].status.InProgress?
    ensures var u, r := AfterRow(t, x, a, maxFailures), t[x.id];
            && (forall id :: id != x.id ==> SameRow(t, u, id))
            && x.id in u
            && var s, recorded := u[x.id], !Succeeds(x, a) && a.record.applied;
               && s.eventId == r.eventId && s.payload == r.payload && s.createdAt == r.createdAt
               && (s.status.Published? <==> Marked(x, a) && !recorded)
               && (s.status.Published? ==>
                     s.publishedAt == Some(a.now) && s.lockedAt.None? && s.failCount == r.failCount)
               && (recorded ==>
                     && s.failCount == r.failCount + 1 && s.lockedAt.None?
                     && s.status == if r.failCount + 1 >= maxFailures then Exhausted else Waiting)
               && (!recorded && !Marked(x, a) ==> s == r)
  {
  }

  /** Claiming locks the chosen waiting rows at that time; reaping frees the claims older than the
      timeout and those without a time.  Neither changes anything else. */
  lemma ClaimsAndReaps(t: Table, ids: set<RowId>, timeoutSecs: nat, now: Time, id: RowId)
    requires id in t
    ensures var r, claimed, reaped := t[id], AfterClaim(t, ids, now), AfterReap(t, timeoutSecs, now);
            var overdue := match r.lockedAt case None => true case Some(at) => now - at > timeoutSecs * NANOS_PER_SEC;
            && claimed.Keys == reaped.Keys == t.Keys
            && claimed[id] == (if id in ids && r.status == Waiting
                               then r.(status := InProgress, lockedAt := Some(now)) else r)
            && reaped[id] == if r.status == InProgress && overdue then r.(status := Waiting, lockedAt := None) else r
  {
  }

  /** The batch is handled in order up to its end, or up to the first row that fails on a dead
      channel; the rest is left as claimed. */
  lemma {:induction false} DrainStops(t: Table, batch: seq<Item>, answers: seq<RowAnswers>, maxFailures: int)
    requires |answers| == |batch|
    ensures var d := Drain(t, batch, answers, maxFailures);
            var n := Reached(batch, d);
            && 0 <= n <= |batch| && d.abandoned == batch[n..]
            && (if d.broken then n > 0 && BreaksAt(batch, answers, n - 1) else n == |batch|)
            && (forall i: nat :: i < n && BreaksAt(batch, answers, i) ==> d.broken && i == n - 1)
            && d.acked == Acknowledged(batch[..n], answers[..n])
    decreases |batch|
  {
    if batch != [] {
      var x, a := batch[0], answers[0];
      var d := Drain(t, batch, answers, maxFailures);
      var n := Reached(batch, d);
      assert BreaksAt(batch, answers, 0) <==> !Succeeds(x, a) && !a.connected;
      if BreaksAt(batch, answers, 0) {
        assert batch[..1][1..] == [] && answers[..1][1..] == [];
      } else {
        var rest := Drain(AfterRow(t, x, a, maxFailures), batch[1..], answers[1..], maxFailures);
        DrainStops(AfterRow(t, x, a, maxFailures), batch[1..], answers[1..], maxFailures);
        assert batch[..n][1..] == batch[1..][..n - 1] && answers[..n][1..] == answers[1..][..n - 1];
        forall i: nat | 0 < i < n ensures BreaksAt(batch, answers, i) <==> BreaksAt(batch[1..], answers[1..], i - 1) {}
        assert n > 1 ==> (BreaksAt(batch, answers, n - 1) <==> BreaksAt(batch[1..], answers[1..], n - 2));
      }
    }
  }

  lemma RowIsLocal(t: Table, u: Table, x: Item, a: RowAnswers, maxFailures: int)
    ensures forall id :: id != x.id ==> SameRow(t, AfterRow(t, x, a, maxFailures), id)
    ensures SameRow(t, u, x.id) ==> SameRow(AfterRow(t, x, a, maxFailures), AfterRow(u, x, a, maxFailures), x.id)
  {
  }

  /** Each handled row ends as it would alone, and every other row stays as it was. */
  ghost predicate EachAlone(t: Table, batch: seq<Item>, answers: seq<RowAnswers>, maxFailures: int, n: nat, u: Table)
    requires n <= |batch| == |answers|
  {
    && (forall i :: 0 <= i < n ==> SameRow(AfterRow(t, batch[i], answers[i], maxFailures), u, batch[i].id))
    && (forall id :: NoneHas(batch, n, id) ==> SameRow(t, u, id))
  }

  ghost predicate NoneHas(batch: seq<Item>, n: nat, id: RowId)
    requires n <= |batch|
  {
    forall i :: 0 <= i < n ==> batch[i].id != id
  }

  lemma EachAloneStep(t: Table, batch: seq<Item>, answers: seq<RowAnswers>, maxFailures: int, n: nat, u: Table)
    requires 0 < n <= |batch| == |answers| && DistinctIds(batch)
    requires EachAlone(AfterRow(t, batch[0], answers[0], maxFailures), batch[1..], answers[1..], maxFailures, n - 1, u)
    ensures EachAlone(t, batch, answers, maxFailures, n, u)
  {
    var next, rest := AfterRow(t, batch[0], answers[0], maxFailures), batch[1..];
    RowIsLocal(t, t, batch[0], answers[0], maxFailures);
    forall i | 0 <= i < n ensures SameRow(AfterRow(t, batch[i], answers[i], maxFailures), u, batch[i].id) {
      if i == 0 {
        assert NoneHas(rest, n - 1, batch[0].id);
      } else {
        assert SameRow(AfterRow(next, rest[i - 1], answers[1..][i - 1], maxFailures), u, rest[i - 1].id);
        assert SameRow(t, next, batch[i].id);
        RowIsLocal(t, next, batch[i], answers[i], maxFailures);
      }
    }
    forall id | NoneHas(batch, n, id) ensures SameRow(t, u, id) {
      assert batch[0].id != id && NoneHas(rest, n - 1, id);
    }
  }

  lemma {:induction false} DrainRows(t: Table, batch: seq<Item>, answers: seq<RowAnswers>, maxFailures: int)
    requires |answers| == |batch| && DistinctIds(batch)
    ensures var d := Drain(t, batch, answers, maxFailures);
            && 0 <= Reached(batch, d) <= |batch|
            && EachAlone(t, batch, answers, maxFailures, Reached(batch, d), d.rows)
    decreases |batch|
  {
    DrainStops(t, batch, answers, maxFailures);
    if batch != [] {
      var x, a := batch[0], answers[0];
      var d := Drain(t, batch, answers, maxFailures);
      var next := AfterRow(t, x, a, maxFailures);
      if PublishOutcome(x.row, a) || a.connected {
        DrainRows(next, batch[1..], answers[1..], maxFailures);
        EachAloneStep(t, batch, answers, maxFailures, Reached(batch, d), d.rows);
      } else {
        RowIsLocal(t, t, x, a, maxFailures);
      }
    }
  }
}
