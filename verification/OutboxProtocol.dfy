/** Any number of outbox workers, crashes, confirm timeouts and the stale-lock reaper around
    one outbox table (crates/outbox/src/worker.rs). */
module OutboxProtocol {
  import opened Common
  import opened Outbox
  import opened Runs

  /** What a worker does next with the first row of its queue. */
  datatype Phase = Publishing | Marking | Recording

  /** `queue` holds the rows of its batch it has not finished. */
  datatype Worker = Worker(queue: seq<RowId>, phase: Phase)

  /** `acked` are the rows whose message the broker confirmed; `reaped` those the reaper
      ever took from a worker. */
  datatype State = State(rows: Table, workers: map<nat, Worker>, acked: set<RowId>, reaped: set<RowId>,
                         now: Time, lastReap: Time)

  datatype Action =
    | Commit(id: RowId, row: Row)                 // the business service inserts a row
    | Claim(w: nat, ids: seq<RowId>)
    | Confirm(w: nat)                             // the broker acknowledged the message
    | Fail(w: nat)                                // no envelope, publish error, nack or timeout
    | Mark(w: nat, reply: Reply)
    | Record(w: nat, applied: bool, connected: bool)
    | Crash(w: nat)
    | Reap
    | Pass(nanos: nat)

  /** `maxFailures`, the reaper's timeout and, for a reaper that runs on time, the longest it
      lets pass between two turns, in nanoseconds. */
  datatype Setting = Setting(maxFailures: int, timeoutSecs: nat, reapEvery: nat)
  {
    function Timeout(): int {
      timeoutSecs * NANOS_PER_SEC
    }
  }

  predicate Busy(s: State, w: nat, p: Phase) {
    w in s.workers && s.workers[w].queue != [] && s.workers[w].phase == p
  }

  predicate Committable(r: Row) {
    r.status.Waiting? && r.failCount == 0 && r.lockedAt.None?
  }

  predicate Enabled(g: Setting, s: State, a: Action) {
    match a
    case Commit(id, r) => id !in s.rows && Committable(r)
    case Claim(w, ids) =>
      && (w in s.workers ==> s.workers[w].queue == []) && Distinct(ids)
      && forall i :: i in ids ==> i in s.rows && s.rows[i].status.Waiting?
    case Confirm(w) => Busy(s, w, Publishing)
    case Fail(w) => Busy(s, w, Publishing)
    case Mark(w, _) => Busy(s, w, Marking)
    case Record(w, _, _) => Busy(s, w, Recording)
    case Crash(w) => w in s.workers
    case Reap => true
    case Pass(_) => true
  }

  function SetOf(ids: seq<RowId>): set<RowId> {
    set i | i in ids
  }

  function Apply(g: Setting, s: State, a: Action): State
    requires Enabled(g, s, a)
  {
    match a
    case Commit(id, r) => s.(rows := s.rows[id := r])
    case Claim(w, ids) =>
      s.(rows := AfterClaim(s.rows, SetOf(ids), s.now), workers := s.workers[w := Worker(ids, Publishing)])
    case Confirm(w) =>
      s.(acked := s.acked + {s.workers[w].queue[0]}, workers := s.workers[w := s.workers[w].(phase := Marking)])
    case Fail(w) => s.(workers := s.workers[w := s.workers[w].(phase := Recording)])
    case Mark(w, reply) =>
      s.(rows := if reply.applied then AfterPublished(s.rows, s.workers[w].queue[0], s.now) else s.rows,
         workers := s.workers[w := if reply.reported then Worker(s.workers[w].queue[1..], Publishing)
                                   else s.workers[w].(phase := Recording)])
    case Record(w, applied, connected) =>
      s.(rows := if applied then AfterFailure(s.rows, s.workers[w].queue[0], g.maxFailures) else s.rows,
         workers := s.workers[w := Worker(if connected then s.workers[w].queue[1..] else [], Publishing)])
    case Crash(w) => s.(workers := s.workers - {w})
    case Reap =>
      s.(rows := AfterReap(s.rows, g.timeoutSecs, s.now), lastReap := s.now,
         reaped := s.reaped + set i | i in s.rows && Stale(s.rows[i], g.timeoutSecs, s.now))
    case Pass(n) => s.(now := s.now + n)
  }

  /** Database replies tell the worker what happened. */
  predicate Truthful(a: Action) {
    a.Mark? ==> a.reply.applied == a.reply.reported
  }

  /** The step starts no worker beside a living one. */
  predicate Alone(s: State, a: Action) {
    a.Claim? ==> forall v :: v in s.workers ==> v == a.w
  }

  /** The clock does not pass the reaper's next turn. */
  predicate OnTime(g: Setting, s: State, a: Action) {
    a.Pass? ==> s.now + a.nanos <= s.lastReap + g.reapEvery
  }

  /** What a run may be restricted to: truthful replies, one worker at a time, a reaper that
      runs on time. */
  datatype Limits = Limits(truthful: bool, lone: bool, punctual: bool)

  const ANY := Limits(false, false, false)
  const TRUTHFUL := Limits(true, false, false)
  const LONE := Limits(false, true, false)
  const SOLO := Limits(true, true, false)
  const PUNCTUAL := Limits(false, false, true)
  const TRUTHFUL_PUNCTUAL := Limits(true, false, true)

  predicate Allowed(g: Setting, s: State, a: Action, l: Limits) {
    (l.truthful ==> Truthful(a)) && (l.lone ==> Alone(s, a)) && (l.punctual ==> OnTime(g, s, a))
  }

  /** The workers, the business service, the reaper and the clock as a machine. */
  function Under(g: Setting, l: Limits): Machine<State, Action> {
    (s: State, a: Action) => if Enabled(g, s, a) && Allowed(g, s, a, l) then Some(Apply(g, s, a)) else None
  }

  function Protocol(g: Setting): Machine<State, Action> {
    Under(g, ANY)
  }

  function TruthfulProtocol(g: Setting): Machine<State, Action> {
    Under(g, TRUTHFUL)
  }

  lemma Act(g: Setting, l: Limits, start: State, s: State, a: Action) returns (t: State)
    requires Reaches(Under(g, l), start, s) && Enabled(g, s, a) && Allowed(g, s, a, l)
    ensures t == Apply(g, s, a) && Reaches(Under(g, l), start, t)
  {
    t := StepFrom(Under(g, l), start, s, a);
  }

  ghost predicate Run(g: Setting, s: State, actions: seq<Action>, t: State) {
    IsRun(Protocol(g), s, actions, t)
  }

  function Start(now: Time): State {
    State(map[], map[], {}, {}, now, now)
  }

  // ── Nothing is lost ───────────────────────────────────────────────────────

  /** Where a row stands, with its failure count and its lock. */
  predicate RowOk(g: Setting, r: Row) {
    && (r.status.Waiting? || r.status.InProgress? ==> r.failCount < g.maxFailures)
    && (r.status.Exhausted? ==> r.failCount >= g.maxFailures)
    && (r.lockedAt.Some? <==> r.status.InProgress?)
  }

  ghost predicate Inv(g: Setting, s: State) {
    && (forall i :: i in s.rows ==> RowOk(g, s.rows[i]))
    && (forall i :: i in s.rows && s.rows[i].status.Published? ==> i in s.acked)
    && (forall w :: w in s.workers && s.workers[w].queue != [] && s.workers[w].phase.Marking? ==>
         s.workers[w].queue[0] in s.acked)
  }

  lemma InvStep(g: Setting, s: State, a: Action)
    requires g.maxFailures >= 1 && Inv(g, s) && Enabled(g, s, a)
    ensures Inv(g, Apply(g, s, a))
    ensures s.rows.Keys <= Apply(g, s, a).rows.Keys
    ensures forall i :: i in s.rows && s.rows[i].status.Exhausted? ==> Apply(g, s, a).rows[i].status.Exhausted?
  {
  }

  lemma {:induction false} InvRun(g: Setting, s: State, actions: seq<Action>, t: State)
    requires g.maxFailures >= 1 && Inv(g, s) && Run(g, s, actions, t)
    ensures Inv(g, t) && s.rows.Keys <= t.rows.Keys
    ensures forall i :: i in s.rows && s.rows[i].status.Exhausted? ==> t.rows[i].status.Exhausted?
    decreases |actions|
  {
    if actions != [] {
      InvStep(g, s, actions[0]);
      InvRun(g, Apply(g, s, actions[0]), actions[1..], t);
    }
  }

  /** Over every interleaving of workers, crashes, confirm timeouts and reaper steps, a
      committed row stays in the table and is still to be published, given up after
      `maxFailures` failures, or published with a message the broker acknowledged; and a row
      given up stays so. */
  lemma NoRowIsLost(g: Setting, now: Time, before: seq<Action>, s: State, after: seq<Action>, t: State, id: RowId)
    requires g.maxFailures >= 1
    requires Run(g, Start(now), before, s) && Run(g, s, after, t) && id in s.rows
    ensures id in t.rows
    ensures match t.rows[id].status
            case Waiting => t.rows[id].failCount < g.maxFailures && t.rows[id].lockedAt.None?
            case InProgress => t.rows[id].failCount < g.maxFailures && t.rows[id].lockedAt.Some?
            case Exhausted => t.rows[id].failCount >= g.maxFailures && t.rows[id].lockedAt.None?
            case Published => id in t.acked && t.rows[id].lockedAt.None?
    ensures s.rows[id].status.Exhausted? ==> t.rows[id].status.Exhausted?
  {
    InvRun(g, Start(now), before, s);
    InvRun(g, s, after, t);
    assert id in s.rows.Keys;
  }

  // ── Leaving PUBLISHED ─────────────────────────────────────────────────────

  predicate IsPublished(s: State, id: RowId) {
    id in s.rows && s.rows[id].status.Published?
  }

  /** A row leaves PUBLISHED exactly by a worker's unguarded failure record. */
  lemma OnlyRecordsUnpublish(g: Setting, s: State, a: Action, id: RowId)
    requires Enabled(g, s, a) && IsPublished(s, id)
    ensures !IsPublished(Apply(g, s, a), id) <==> a.Record? && a.applied && s.workers[a.w].queue[0] == id
  {
  }

  predicate Queued(s: State, w: nat, id: RowId) {
    w in s.workers && id in s.workers[w].queue
  }

  ghost predicate InSomeQueue(s: State, id: RowId) {
    exists w :: Queued(s, w, id)
  }

  lemma UnqueuedStep(g: Setting, s: State, a: Action, id: RowId)
    requires Enabled(g, s, a) && IsPublished(s, id) && !InSomeQueue(s, id)
    ensures IsPublished(Apply(g, s, a), id) && !InSomeQueue(Apply(g, s, a), id)
  {
    OnlyRecordsUnpublish(g, s, a, id);
    if a.Mark? || a.Record? {
      assert Queued(s, a.w, s.workers[a.w].queue[0]);
    }
    forall w ensures !Queued(Apply(g, s, a), w, id) {
      assert !Queued(s, w, id);
    }
  }

  lemma {:induction false} UnqueuedRun(g: Setting, s: State, actions: seq<Action>, t: State, id: RowId)
    requires Run(g, s, actions, t) && IsPublished(s, id) && !InSomeQueue(s, id)
    ensures IsPublished(t, id)
    decreases |actions|
  {
    if actions != [] {
      UnqueuedStep(g, s, actions[0], id);
      UnqueuedRun(g, Apply(g, s, actions[0]), actions[1..], t, id);
    }
  }

  /** A busy worker can always come to record a failure, under any limits. */
  lemma ToRecording(g: Setting, l: Limits, s: State, w: nat) returns (t: State)
    requires w in s.workers && s.workers[w].queue != []
    ensures Reaches(Under(g, l), s, t)
    ensures t == s.(workers := s.workers[w := s.workers[w].(phase := Recording)])
  {
    NoStep(Under(g, l), s);
    match s.workers[w].phase
    case Publishing => t := Act(g, l, s, s, Fail(w));
    case Marking => t := Act(g, l, s, s, Mark(w, Reply(false, false)));
    case Recording =>
      t := s;
      assert s.workers == s.workers[w := s.workers[w].(phase := Recording)];
  }

  lemma {:induction false} QueuedRowIsUnpublished(g: Setting, l: Limits, s: State, w: nat, id: RowId) returns (t: State)
    requires Queued(s, w, id) && IsPublished(s, id)
    ensures Reaches(Under(g, l), s, t) && !IsPublished(t, id)
    decreases |s.workers[w].queue|
  {
    var q := s.workers[w].queue;
    var u := ToRecording(g, l, s, w);
    t := Act(g, l, s, u, Record(w, q[0] == id, true));
    if q[0] != id {
      var i :| 0 <= i < |q| && q[i] == id;
      assert q[1..][i - 1] == id;
      var v := t;
      t := QueuedRowIsUnpublished(g, l, v, w, id);
      Chain(Under(g, l), s, v, t);
    }
  }

  /** When a published row can leave PUBLISHED, under whatever limits: exactly while some worker
      still has it in its queue. */
  lemma UnpublishedIffQueued(g: Setting, l: Limits, s: State, id: RowId)
    requires IsPublished(s, id)
    ensures (exists t :: Reaches(Under(g, l), s, t) && !IsPublished(t, id)) <==> InSomeQueue(s, id)
  {
    if InSomeQueue(s, id) {
      var w :| Queued(s, w, id);
      var t := QueuedRowIsUnpublished(g, l, s, w, id);
    } else {
      assert PartOf(Under(g, l), Protocol(g));
      forall t | Reaches(Under(g, l), s, t) ensures IsPublished(t, id) {
        PartReaches(Under(g, l), Protocol(g), s, t);
        var actions :| IsRun(Protocol(g), s, actions, t);
        UnqueuedRun(g, s, actions, t, id);
      }
    }
  }

  /** A row the reaper never touched belongs to the worker that queues it. */
  ghost predicate Ownership(s: State) {
    && (forall w, id :: Queued(s, w, id) && id !in s.reaped ==> id in s.rows && s.rows[id].status.InProgress?)
    && (forall v, w, id :: Queued(s, v, id) && Queued(s, w, id) && id !in s.reaped ==> v == w)
    && (forall w :: w in s.workers ==> Distinct(s.workers[w].queue))
  }

  /** What one worker's step leaves: its queue loses at most its head, no other queue moves,
      and a row changes only if it was the head. */
  lemma OwnershipStep(g: Setting, s: State, a: Action)
    requires Ownership(s) && Enabled(g, s, a) && Truthful(a)
    ensures Ownership(Apply(g, s, a))
  {
    var t := Apply(g, s, a);
    match a
    case Claim(w, ids) =>
      forall v, id | Queued(t, v, id) && id !in t.reaped
        ensures id in t.rows && t.rows[id].status.InProgress? && (v != w ==> Queued(s, v, id) && id !in ids)
      {
        assert v != w ==> Queued(s, v, id);
      }
    case Mark(w, _) => PopKeepsOwnership(s, t, w);
    case Record(w, _, _) => PopKeepsOwnership(s, t, w);
    case _ =>
      assert forall v, id :: Queued(t, v, id) ==> Queued(s, v, id);
  }

  lemma PopKeepsOwnership(s: State, t: State, w: nat)
    requires Ownership(s) && w in s.workers && s.workers[w].queue != []
    requires w in t.workers && t.workers == s.workers[w := t.workers[w]] && t.reaped == s.reaped
    requires forall i :: i in s.rows && i != s.workers[w].queue[0] ==> i in t.rows && t.rows[i] == s.rows[i]
    requires t.workers[w].queue == s.workers[w].queue[1..] || t.workers[w].queue == []
             || (t.workers[w].queue == s.workers[w].queue && t.rows == s.rows)
    ensures Ownership(t)
  {
    var head := s.workers[w].queue[0];
    forall v, id | Queued(t, v, id) ensures Queued(s, v, id) && (id != head || v != w || t.rows == s.rows) {
      if v == w && t.workers[w].queue == s.workers[w].queue[1..] {
        var i :| 0 <= i < |t.workers[w].queue| && t.workers[w].queue[i] == id;
        assert s.workers[w].queue[i + 1] == id;
      }
    }
    assert Queued(s, w, head);
  }

  lemma {:induction false} OwnershipRun(g: Setting, s: State, actions: seq<Action>, t: State)
    requires Ownership(s) && IsRun(TruthfulProtocol(g), s, actions, t)
    ensures Ownership(t)
    decreases |actions|
  {
    if actions != [] {
      OwnershipStep(g, s, actions[0]);
      OwnershipRun(g, Apply(g, s, actions[0]), actions[1..], t);
    }
  }

  /** However many workers run, with truthful replies a published row is in a queue, and so
      can leave PUBLISHED, only if the reaper once took it from a worker. */
  lemma UnpublishingNeedsReap(g: Setting, now: Time, s: State, id: RowId)
    requires Reaches(TruthfulProtocol(g), Start(now), s) && IsPublished(s, id)
    ensures InSomeQueue(s, id) ==> id in s.reaped
    ensures (exists t :: Reaches(Protocol(g), s, t) && !IsPublished(t, id)) ==> id in s.reaped
  {
    var actions :| IsRun(TruthfulProtocol(g), Start(now), actions, s);
    OwnershipRun(g, Start(now), actions, s);
    UnpublishedIffQueued(g, ANY, s, id);
    if InSomeQueue(s, id) {
      var w :| Queued(s, w, id);
    }
  }

  // ── Reaching the loss ─────────────────────────────────────────────────────

  /** One worker at a time is not enough without truthful replies: from the start, an applied
      mark reported as failed and the failure record after it take a row out of PUBLISHED. */
  lemma LostReplyUnpublishes(g: Setting, now: Time, id: RowId, r: Row)
    requires Committable(r)
    ensures exists s, t :: Reaches(Under(g, LONE), Start(now), s) && IsPublished(s, id)
                           && Reaches(Under(g, LONE), s, t) && !IsPublished(t, id)
  {
    var start := Start(now);
    NoStep(Under(g, LONE), start);
    var s := Act(g, LONE, start, start, Commit(id, r));
    s := Act(g, LONE, start, s, Claim(0, [id]));
    s := Act(g, LONE, start, s, Confirm(0));
    s := Act(g, LONE, start, s, Mark(0, Reply(true, false)));
    NoStep(Under(g, LONE), s);
    var t := Act(g, LONE, s, s, Record(0, true, true));
  }

  lemma ClaimFrees(g: Setting, s: State, id: RowId)
    requires id in s.rows && s.rows[id].status.InProgress? && s.rows[id].lockedAt.Some?
    ensures var r := AfterReap(s.rows, g.timeoutSecs, s.now)[id];
            if s.rows[id].lockedAt.value + g.Timeout() < s.now then r.status.Waiting? else r == s.rows[id]
  {
  }

  /** A reaper that takes its turns as late as it may still frees the row in the end. */
  lemma {:induction false} FreedOnTime(g: Setting, start: State, s: State, id: RowId) returns (t: State)
    requires g.reapEvery > 0 && Reaches(Under(g, TRUTHFUL_PUNCTUAL), start, s) && s.now == s.lastReap
    requires id in s.rows && s.rows[id].status.InProgress? && s.rows[id].lockedAt.Some?
    ensures Reaches(Under(g, TRUTHFUL_PUNCTUAL), start, t) && t.workers == s.workers
    ensures id in t.rows && t.rows[id].status.Waiting?
    decreases s.rows[id].lockedAt.value + g.Timeout() - s.now
  {
    t := Act(g, TRUTHFUL_PUNCTUAL, start, s, Pass(g.reapEvery));
    ClaimFrees(g, t, id);
    t := Act(g, TRUTHFUL_PUNCTUAL, start, t, Reap);
    if !t.rows[id].status.Waiting? {
      t := FreedOnTime(g, start, t, id);
    }
  }

  /** The second worker's part: it publishes the freed row while the first still queues it. */
  lemma PublishedByAnother(g: Setting, l: Limits, start: State, s: State, id: RowId) returns (t: State)
    requires !l.lone && Reaches(Under(g, l), start, s)
    requires Queued(s, 0, id) && 1 !in s.workers && id in s.rows && s.rows[id].status.Waiting?
    ensures Reaches(Under(g, l), start, t) && IsPublished(t, id) && Queued(t, 0, id)
  {
    t := Act(g, l, start, s, Claim(1, [id]));
    t := Act(g, l, start, t, Confirm(1));
    t := Act(g, l, start, t, Mark(1, Reply(true, true)));
  }

  /** With truthful replies, and whatever the lock timeout: one worker's publish fails late,
      the reaper frees its row, and another worker publishes it while the first still has it
      queued. */
  lemma LateRecordUnpublishes(g: Setting, now: Time, id: RowId, r: Row)
    requires Committable(r)
    ensures exists s, t :: Reaches(TruthfulProtocol(g), Start(now), s) && IsPublished(s, id)
                           && Reaches(TruthfulProtocol(g), s, t) && !IsPublished(t, id)
  {
    var start := Start(now);
    NoStep(TruthfulProtocol(g), start);
    var s := Act(g, TRUTHFUL, start, start, Commit(id, r));
    s := Act(g, TRUTHFUL, start, s, Claim(0, [id]));
    s := Act(g, TRUTHFUL, start, s, Pass(g.Timeout() + 1));
    ClaimFrees(g, s, id);
    s := Act(g, TRUTHFUL, start, s, Reap);
    s := PublishedByAnother(g, TRUTHFUL, start, s, id);
    UnpublishedIffQueued(g, TRUTHFUL, s, id);
  }

  /** A reaper that always runs on time does not prevent it. */
  lemma LateRecordUnpublishesOnTime(g: Setting, now: Time, id: RowId, r: Row)
    requires Committable(r) && g.reapEvery > 0
    ensures exists s, t :: Reaches(Under(g, TRUTHFUL_PUNCTUAL), Start(now), s) && IsPublished(s, id)
                           && Reaches(Under(g, TRUTHFUL_PUNCTUAL), s, t) && !IsPublished(t, id)
  {
    var start := Start(now);
    NoStep(Under(g, TRUTHFUL_PUNCTUAL), start);
    var s := Act(g, TRUTHFUL_PUNCTUAL, start, start, Commit(id, r));
    s := Act(g, TRUTHFUL_PUNCTUAL, start, s, Claim(0, [id]));
    s := FreedOnTime(g, start, s, id);
    s := PublishedByAnother(g, TRUTHFUL_PUNCTUAL, start, s, id);
    UnpublishedIffQueued(g, TRUTHFUL_PUNCTUAL, s, id);
  }

  // ── One worker at a time ──────────────────────────────────────────────────

  /** At most one worker, and what it queues is unfinished. */
  ghost predicate Solo(s: State) {
    && (forall v, w :: v in s.workers && w in s.workers ==> v == w)
    && (forall w :: w in s.workers ==> Distinct(s.workers[w].queue))
    && (forall w, id :: Queued(s, w, id) ==> id in s.rows && !s.rows[id].status.Published?)
  }

  lemma SoloStep(g: Setting, s: State, a: Action)
    requires Solo(s) && Enabled(g, s, a) && Alone(s, a) && Truthful(a)
    ensures Solo(Apply(g, s, a))
  {
    var t := Apply(g, s, a);
    if a.Mark? || a.Record? {
      var head := s.workers[a.w].queue[0];
      assert Queued(s, a.w, head);
      forall w, id | Queued(t, w, id) ensures id in t.rows && !t.rows[id].status.Published? {
        if t.workers[w].queue == s.workers[w].queue[1..] {
          var i :| 0 <= i < |t.workers[w].queue| && t.workers[w].queue[i] == id;
          assert s.workers[w].queue[i + 1] == id && s.workers[w].queue[0] == head;
        }
        assert Queued(s, w, id);
      }
    } else {
      forall w, id | Queued(t, w, id) ensures id in t.rows && !t.rows[id].status.Published? {
        assert Queued(s, w, id) || (a.Claim? && id in a.ids);
      }
    }
  }

  lemma {:induction false} SoloRun(g: Setting, s: State, actions: seq<Action>, t: State)
    requires Solo(s) && IsRun(Under(g, SOLO), s, actions, t)
    ensures Solo(t)
    decreases |actions|
  {
    if actions != [] {
      SoloStep(g, s, actions[0]);
      SoloRun(g, Apply(g, s, actions[0]), actions[1..], t);
    }
  }

  /** With one worker at a time, the reaper, crashes and truthful replies, PUBLISHED is
      absorbing: no reachable state has a published row in a queue. */
  lemma PublishedIsAbsorbing(g: Setting, now: Time, s: State, t: State, id: RowId)
    requires Reaches(Under(g, SOLO), Start(now), s) && IsPublished(s, id) && Reaches(Protocol(g), s, t)
    ensures !InSomeQueue(s, id) && IsPublished(t, id)
  {
    var actions :| IsRun(Under(g, SOLO), Start(now), actions, s);
    SoloRun(g, Start(now), actions, s);
    UnpublishedIffQueued(g, ANY, s, id);
  }

  // ── Bounded recovery ──────────────────────────────────────────────────────

  /** Clock and reaper: no claim was overdue when the reaper last ran. */
  ghost predicate Timely(g: Setting, s: State) {
    && s.lastReap <= s.now <= s.lastReap + g.reapEvery
    && forall i :: i in s.rows && s.rows[i].status.InProgress? ==>
         s.rows[i].lockedAt.Some? && s.lastReap <= s.rows[i].lockedAt.value + g.Timeout()
  }

  lemma TimelyStep(g: Setting, s: State, a: Action)
    requires Timely(g, s) && Enabled(g, s, a) && OnTime(g, s, a)
    ensures Timely(g, Apply(g, s, a))
  {
  }

  lemma {:induction false} TimelyRun(g: Setting, s: State, actions: seq<Action>, t: State)
    requires Timely(g, s) && IsRun(Under(g, PUNCTUAL), s, actions, t)
    ensures Timely(g, t)
    decreases |actions|
  {
    if actions != [] {
      TimelyStep(g, s, actions[0]);
      TimelyRun(g, Apply(g, s, actions[0]), actions[1..], t);
    }
  }

  /** With a reaper that runs on time, in every reachable state an IN_PROGRESS row was claimed
      at most the lock timeout and one period ago: a row whose worker died is free again by
      then.  Turns within half a timeout of one another make that one and a half timeouts. */
  lemma RecoveredInTime(g: Setting, now: Time, actions: seq<Action>, t: State, id: RowId)
    requires IsRun(Under(g, PUNCTUAL), Start(now), actions, t)
    requires id in t.rows && t.rows[id].status.InProgress?
    ensures t.rows[id].lockedAt.Some?
    ensures t.now - t.rows[id].lockedAt.value <= g.Timeout() + g.reapEvery
    ensures 2 * g.reapEvery <= g.Timeout() ==> 2 * (t.now - t.rows[id].lockedAt.value) <= 3 * g.Timeout()
  {
    TimelyRun(g, Start(now), actions, t);
  }

  /** Only the reaper moves a row no worker queues, and it moves it back to PENDING. */
  lemma AbandonedRowsWait(g: Setting, s: State, a: Action, id: RowId)
    requires Enabled(g, s, a) && id in s.rows && s.rows[id].status.InProgress?
    requires forall w :: !Queued(s, w, id)
    ensures var t := Apply(g, s, a);
            && id in t.rows && (forall w :: !Queued(t, w, id))
            && (t.rows[id] == s.rows[id] || (a.Reap? && t.rows[id] == s.rows[id].(status := Waiting, lockedAt := None)))
  {
    if a.Mark? || a.Record? {
      assert Queued(s, a.w, s.workers[a.w].queue[0]);
    }
    forall w ensures !Queued(Apply(g, s, a), w, id) {
      assert !Queued(s, w, id);
    }
  }

  // ── A poll cycle is a run ─────────────────────────────────────────────────

  function IdsOf(batch: seq<Item>): seq<RowId> {
    seq(|batch|, i requires 0 <= i < |batch| => batch[i].id)
  }

  /** Publishing one row of the batch is a run of its worker. */
  lemma RowIsRun(g: Setting, s: State, w: nat, x: Item, a: RowAnswers) returns (t: State)
    requires Busy(s, w, Publishing) && s.workers[w].queue[0] == x.id && s.now == a.now
    ensures Reaches(Protocol(g), s, t)
    ensures var on := PublishOutcome(x.row, a) || a.connected;
            t == s.(rows := AfterRow(s.rows, x, a, g.maxFailures),
                    workers := s.workers[w := Worker(if on then s.workers[w].queue[1..] else [], Publishing)],
                    acked := s.acked + if HasEnvelope(x.row) && a.confirm.Acked? then {x.id} else {})
  {
    NoStep(Protocol(g), s);
    if HasEnvelope(x.row) && a.confirm.Acked? {
      t := Act(g, ANY, s, s, Confirm(w));
      t := Act(g, ANY, s, t, Mark(w, a.mark));
    } else {
      t := Act(g, ANY, s, s, Fail(w));
    }
    if !PublishOutcome(x.row, a) {
      t := Act(g, ANY, s, t, Record(w, a.record.applied, a.connected));
    }
  }

  /** The answers come in time order, the first not before `now`. */
  predicate Rising(now: Time, answers: seq<RowAnswers>)
    decreases |answers|
  {
    answers != [] ==> now <= answers[0].now && Rising(answers[0].now, answers[1..])
  }

  lemma Waits(g: Setting, s: State, now: Time) returns (t: State)
    requires s.now <= now
    ensures Reaches(Protocol(g), s, t) && t == s.(now := now)
  {
    NoStep(Protocol(g), s);
    t := Act(g, ANY, s, s, Pass(now - s.now));
  }

  /** A whole batch is a run of its worker, ending in the table `PublishBatch` leaves, so
      what holds of every run holds of `PollOnce` whatever else happens beside it. */
  lemma {:induction false} BatchIsRun(g: Setting, s: State, w: nat, batch: seq<Item>,
                                      answers: seq<RowAnswers>)
    returns (t: State)
    requires |answers| == |batch| && w in s.workers && s.workers[w] == Worker(IdsOf(batch), Publishing)
    requires Rising(s.now, answers)
    ensures var d := Drain(s.rows, batch, answers, g.maxFailures);
            Reaches(Protocol(g), s, t) && t.rows == d.rows && t.acked == s.acked + SetOf(d.acked)
    decreases |batch|
  {
    if batch == [] {
      t := s;
      NoStep(Protocol(g), s);
      assert s.acked + SetOf([]) == s.acked;
    } else {
      var x, a := batch[0], answers[0];
      var v := Waits(g, s, a.now);
      var u := RowIsRun(g, v, w, x, a);
      Chain(Protocol(g), s, v, u);
      var acked := if HasEnvelope(x.row) && a.confirm.Acked? then [x.id] else [];
      if PublishOutcome(x.row, a) || a.connected {
        assert s.workers[w].queue[1..] == IdsOf(batch[1..]);
        t := BatchIsRun(g, u, w, batch[1..], answers[1..]);
        Chain(Protocol(g), s, u, t);
        SetOfAppend(acked, Drain(u.rows, batch[1..], answers[1..], g.maxFailures).acked);
      } else {
        t := u;
      }
    }
  }

  lemma SetOfAppend(xs: seq<RowId>, ys: seq<RowId>)
    ensures SetOf(xs + ys) == SetOf(xs) + SetOf(ys)
  {
  }
}
