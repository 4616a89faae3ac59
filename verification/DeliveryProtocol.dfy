/** The writers of individually sent recipients' rows at once: any number of individual-mode
    delivery loops (redeliveries included), the retry API, the stale-PENDING reaper and
    crashes, one statement per step (crates/consumer/src/delivery.rs, crates/consumer/src/processor.rs,
    crates/store/src/notification_log.rs, crates/api/src/handlers.rs, src/main.rs). */
module DeliveryProtocol {
  import opened Common
  import opened Event
  import opened NotificationLog
  import opened RetryLoop
  import opened Runs

  /** Where a failed call got to: before or at its insert, or past an insert that created
      the recipient's row. */
  datatype Origin = Early | OwnRow

  /** Where a delivery loop stands between two statements. */
  datatype Phase =
    | Calling                       // about to prepare, then insert
    | Holding                       // its insert created the row; nothing sent yet
    | Accepted                      // the sender took the message; mark_sent is next
    | TurnedAway(reason: string)    // a filter refused; mark_blocked is next
    | Recording(message: string, exhausted: bool, origin: Origin)   // mark_failed is next
    | Sleeping(origin: Origin)
    | Finished

  datatype Driver = Driver(key: Key, policy: RetryPolicy, counters: Counters, phase: Phase)

  /** `sends` counts calls of the mail sender; `claims` holds what each retry call reset. */
  datatype State = State(
    rows: Table, drivers: map<nat, Driver>, sends: multiset<Key>, claims: map<nat, set<Key>>,
    now: Time, lastReap: Time)

  /** `applied` says whether the database carried the statement out; drivers do not look at
      that answer.  Durations are in nanoseconds. */
  datatype Action =
    | Spawn(d: nat, key: Key, policy: RetryPolicy)
    | FailEarly(d: nat, error: AppError)                      // preparation or insert failed
    | InsertLost(d: nat, args: InsertArgs, error: AppError)   // inserted, but reported as failed
    | Insert(d: nat, args: InsertArgs)
    | TurnAway(d: nat, reason: string)
    | NoToken(d: nat, error: AppError)                        // shutdown while waiting to send
    | Send(d: nat, answer: Result<(), AppError>)
    | WriteSent(d: nat, applied: bool)
    | WriteBlocked(d: nat, applied: bool)
    | WriteFailed(d: nat, applied: bool)
    | Wake(d: nat)
    | Interrupt(d: nat, message: string)                      // shutdown while sleeping
    | Crash(d: nat)
    | ResetOne(c: nat, key: Key)
    | ResetEvent(c: nat, event: EventId)
    | Revert(c: nat, reason: string)
    | Reap
    | Pass(nanos: nat)

  /** The reaper's timeout in seconds and, for a reaper that runs on time, its period in
      nanoseconds. */
  datatype Setting = Setting(cfg: Config, timeoutSecs: nat, reapEvery: nat)

  predicate Enabled(g: Setting, s: State, a: Action) {
    match a
    case Spawn(d, _, _) => d !in s.drivers
    case FailEarly(d, _) => d in s.drivers && s.drivers[d].phase.Calling?
    case InsertLost(d, args, _) => d in s.drivers && s.drivers[d].phase.Calling? && args.key == s.drivers[d].key
    case Insert(d, args) => d in s.drivers && s.drivers[d].phase.Calling? && args.key == s.drivers[d].key
    case TurnAway(d, _) => d in s.drivers && s.drivers[d].phase.Holding?
    case NoToken(d, _) => d in s.drivers && s.drivers[d].phase.Holding?
    case Send(d, _) => d in s.drivers && s.drivers[d].phase.Holding?
    case WriteSent(d, _) => d in s.drivers && s.drivers[d].phase.Accepted?
    case WriteBlocked(d, _) => d in s.drivers && s.drivers[d].phase.TurnedAway?
    case WriteFailed(d, _) => d in s.drivers && s.drivers[d].phase.Recording?
    case Wake(d) => d in s.drivers && s.drivers[d].phase.Sleeping?
    case Interrupt(d, _) => d in s.drivers && s.drivers[d].phase.Sleeping?
    case Crash(d) => d in s.drivers
    case ResetOne(c, k) => c !in s.claims && k in s.rows && s.rows[k].status.IsRetryableRow()
    case ResetEvent(c, _) => c !in s.claims
    case Revert(c, _) => c in s.claims
    case Reap => true
    case Pass(_) => true
  }

  /** The loop's reaction to a failed call. */
  function Fail(cfg: Config, dr: Driver, e: AppError, origin: Origin): Driver {
    match Decide(cfg, dr.policy, false, dr.counters, Failure(e))
    case Backoff(c, m, _) => dr.(counters := c, phase := Recording(m, false, origin))
    case d => dr.(phase := Recording(if d.GiveUp? then d.message else e.message, true, origin))
  }

  /** The loop's reaction to a row that was there before its insert. */
  function OnExisting(cfg: Config, dr: Driver, r: Row): Driver {
    match r.status
    case Sent => dr.(phase := Finished)
    case Blocked => dr.(phase := Finished)
    case Unrecognised(text) => Fail(cfg, dr, UnknownStatusError(text), Early)
    case _ => dr.(counters := dr.counters.(attempt := r.retryCount))
  }

  /** The acting driver's next state. */
  function Next(g: Setting, s: State, a: Action, dr: Driver): Driver {
    match a
    case FailEarly(_, e) => Fail(g.cfg, dr, e, Early)
    case InsertLost(_, _, e) => Fail(g.cfg, dr, e, Early)
    case Insert(_, args) =>
      if args.key in s.rows then OnExisting(g.cfg, dr, s.rows[args.key]) else dr.(phase := Holding)
    case TurnAway(_, reason) => dr.(phase := TurnedAway(reason))
    case NoToken(_, e) => Fail(g.cfg, dr, e, OwnRow)
    case Send(_, answer) => if answer.Ok? then dr.(phase := Accepted) else Fail(g.cfg, dr, answer.error, OwnRow)
    case WriteSent(_, _) => dr.(phase := Finished)
    case WriteBlocked(_, _) => dr.(phase := Finished)
    case WriteFailed(_, _) =>
      if dr.phase.Recording? && !dr.phase.exhausted then dr.(phase := Sleeping(dr.phase.origin))
      else dr.(phase := Finished)
    case Wake(_) => dr.(phase := Calling)
    case Interrupt(_, m) =>
      dr.(phase := Recording(m, true, if dr.phase.Sleeping? then dr.phase.origin else Early))
    case _ => dr
  }

  /** The table after a driver's statement. */
  function Written(s: State, a: Action, dr: Driver): Table {
    match a
    case InsertLost(_, args, _) => AfterInsert(s.rows, args, s.now)
    case Insert(_, args) => AfterInsert(s.rows, args, s.now)
    case WriteSent(_, applied) => if applied then AfterMarkSent(s.rows, dr.key, s.now) else s.rows
    case WriteBlocked(_, applied) =>
      if applied && dr.phase.TurnedAway? then AfterMarkBlocked(s.rows, dr.key, dr.phase.reason, s.now) else s.rows
    case WriteFailed(_, applied) =>
      if applied && dr.phase.Recording? then
        AfterMarkFailed(s.rows, dr.key, dr.phase.message, dr.phase.exhausted, s.now)
      else s.rows
    case _ => s.rows
  }

  function Apply(g: Setting, s: State, a: Action): State
    requires Enabled(g, s, a)
  {
    match a
    case Spawn(d, k, policy) => s.(drivers := s.drivers[d := Driver(k, policy, Counters(0, 0), Calling)])
    case Crash(d) => s.(drivers := s.drivers - {d})
    case ResetOne(c, k) => s.(rows := AfterReset(s.rows, {k}, s.now), claims := s.claims[c := {k}])
    case ResetEvent(c, e) =>
      s.(rows := AfterReset(s.rows, FailedKeys(s.rows, e), s.now), claims := s.claims[c := FailedKeys(s.rows, e)])
    case Revert(c, reason) => s.(rows := AfterRevert(s.rows, s.claims[c], reason, s.now))
    case Reap => s.(rows := AfterReap(s.rows, g.timeoutSecs, s.now), lastReap := s.now)
    case Pass(n) => s.(now := s.now + n)
    case _ =>
      var dr := s.drivers[a.d];
      s.(rows := Written(s, a, dr), drivers := s.drivers[a.d := Next(g, s, a, dr)],
         sends := if a.Send? then s.sends + multiset{dr.key} else s.sends)
  }

  /** The protocol as a machine. */
  function Protocol(g: Setting): Machine<State, Action> {
    (s: State, a: Action) => if Enabled(g, s, a) then Some(Apply(g, s, a)) else None
  }

  ghost predicate Run(g: Setting, s: State, actions: seq<Action>, t: State) {
    IsRun(Protocol(g), s, actions, t)
  }

  /** The clock does not pass the reaper's next turn. */
  predicate OnTime(g: Setting, s: State, a: Action) {
    a.Pass? ==> s.now + a.nanos <= s.lastReap + g.reapEvery
  }

  /** The protocol with a reaper that runs on time. */
  function Punctual(g: Setting): Machine<State, Action> {
    (s: State, a: Action) => if Enabled(g, s, a) && OnTime(g, s, a) then Some(Apply(g, s, a)) else None
  }

  /** One more step of a run. */
  lemma Act(g: Setting, start: State, s: State, a: Action) returns (t: State)
    requires Reaches(Protocol(g), start, s) && Enabled(g, s, a)
    ensures t == Apply(g, s, a) && Reaches(Protocol(g), start, t)
  {
    t := StepFrom(Protocol(g), start, s, a);
  }

  lemma ActFirst(g: Setting, s: State, a: Action) returns (t: State)
    requires Enabled(g, s, a)
    ensures t == Apply(g, s, a) && Reaches(Protocol(g), s, t)
  {
    t := Step(Protocol(g), s, a);
  }

  // ── At most one send ──────────────────────────────────────────────────────

  /** The driver's own insert created the row, and it has not started a new call since. */
  predicate Owns(p: Phase) {
    p.Holding? || p.Accepted? || p.TurnedAway? || ((p.Recording? || p.Sleeping?) && p.origin.OwnRow?)
  }

  predicate OwnerOf(s: State, d: nat, k: Key) {
    d in s.drivers && s.drivers[d].key == k && Owns(s.drivers[d].phase)
  }

  predicate HolderOf(s: State, d: nat, k: Key) {
    d in s.drivers && s.drivers[d].key == k && s.drivers[d].phase.Holding?
  }

  ghost predicate Inv(s: State) {
    && (forall d, k :: OwnerOf(s, d, k) ==> k in s.rows && !s.rows[k].status.Sent?)
    && (forall d, e, k :: OwnerOf(s, d, k) && OwnerOf(s, e, k) ==> d == e)
    && (forall k :: s.sends[k] <= 1)
    && (forall k :: s.sends[k] > 0 ==> k in s.rows)
    && (forall d, k :: HolderOf(s, d, k) ==> s.sends[k] == 0)
    && (forall k :: k in s.rows ==> !s.rows[k].status.Unrecognised?)
  }

  /** The steps that move one driver; the others are the retry API's, the reaper's, the
      clock's, and the arrival or loss of a driver. */
  predicate IsDriverStep(a: Action) {
    !(a.Spawn? || a.Crash? || a.ResetOne? || a.ResetEvent? || a.Revert? || a.Reap? || a.Pass?)
  }

  /** What a driver's step does to that driver and its row: a driver becomes an owner only
      by creating the row, and an owner's row becomes SENT only as the driver lets go. */
  ghost predicate OwnStep(s: State, t: State, d: nat)
    requires d in s.drivers && d in t.drivers
  {
    var k, p, q := s.drivers[d].key, s.drivers[d].phase, t.drivers[d].phase;
    && t.drivers[d].key == k
    && (k in s.rows ==> k in t.rows)
    && (Owns(q) ==> k in t.rows && !t.rows[k].status.Sent?)
    && (Owns(q) ==> Owns(p) || k !in s.rows)
    && (q.Holding? ==> !Owns(p))
    && (k in t.rows ==> !t.rows[k].status.Unrecognised?)
    && (k in t.rows && t.rows[k].status.Sent? ==> Owns(p) || (k in s.rows && s.rows[k].status.Sent?))
    && (t.sends == s.sends || (p.Holding? && !q.Holding? && t.sends == s.sends + multiset{k}))
  }

  /** A driver's step touches no other driver and no other row. */
  ghost predicate Elsewhere(s: State, t: State, d: nat)
    requires d in s.drivers && d in t.drivers
  {
    && t.drivers == s.drivers[d := t.drivers[d]]
    && (forall k :: k != s.drivers[d].key ==>
          (k in t.rows <==> k in s.rows) && (k in s.rows ==> t.rows[k] == s.rows[k]))
  }

  lemma DriverStep(g: Setting, s: State, a: Action)
    requires Enabled(g, s, a) && IsDriverStep(a)
    requires var dr := s.drivers[a.d];
             && (Owns(dr.phase) ==> dr.key in s.rows && !s.rows[dr.key].status.Sent?)
             && (dr.key in s.rows ==> !s.rows[dr.key].status.Unrecognised?)
    ensures OwnStep(s, Apply(g, s, a), a.d) && Elsewhere(s, Apply(g, s, a), a.d)
  {
    match a
    case FailEarly(_, _) =>
    case InsertLost(_, _, _) =>
    case Insert(_, _) =>
    case Send(_, _) =>
    case NoToken(_, _) =>
    case WriteSent(_, _) =>
    case WriteBlocked(_, _) =>
    case WriteFailed(_, _) =>
    case _ =>
  }

  lemma LocalStepKeepsInv(s: State, t: State, d: nat)
    requires Inv(s) && d in s.drivers && d in t.drivers && OwnStep(s, t, d) && Elsewhere(s, t, d)
    ensures Inv(t)
  {
    var key := s.drivers[d].key;
    forall e, k | OwnerOf(t, e, k) ensures k in t.rows && !t.rows[k].status.Sent? && (e == d || OwnerOf(s, e, k)) {
      if e != d {
        assert OwnerOf(s, e, k);
        if k == key && Owns(s.drivers[d].phase) {
          assert OwnerOf(s, d, k);
        }
      }
    }
    forall e, f, k | OwnerOf(t, e, k) && OwnerOf(t, f, k) ensures e == f {
      if e == d && f != d {
        OneOwner(s, t, d, f);
      } else if f == d && e != d {
        OneOwner(s, t, d, e);
      }
    }
    forall k ensures t.sends[k] <= 1 && (t.sends[k] > 0 ==> k in t.rows) {
      if t.sends != s.sends {
        assert HolderOf(s, d, key) && OwnerOf(s, d, key);
      }
    }
    forall e, k | HolderOf(t, e, k) ensures t.sends[k] == 0 {
      assert OwnerOf(t, e, k);
      if e != d {
        assert HolderOf(s, e, k) && OwnerOf(s, e, k);
        if t.sends != s.sends {
          assert OwnerOf(s, d, key);
        }
      }
    }
  }

  lemma OneOwner(s: State, t: State, d: nat, e: nat)
    requires Inv(s) && d in s.drivers && d in t.drivers && OwnStep(s, t, d) && Elsewhere(s, t, d)
    requires e != d && OwnerOf(s, e, s.drivers[d].key)
    ensures !OwnerOf(t, d, s.drivers[d].key)
  {
    var k := s.drivers[d].key;
    assert !OwnerOf(s, d, k);
  }

  lemma InvStep(g: Setting, s: State, a: Action)
    requires Inv(s) && Enabled(g, s, a)
    ensures Inv(Apply(g, s, a))
  {
    if IsDriverStep(a) {
      var dr := s.drivers[a.d];
      assert Owns(dr.phase) ==> OwnerOf(s, a.d, dr.key);
      DriverStep(g, s, a);
      LocalStepKeepsInv(s, Apply(g, s, a), a.d);
    } else {
      OtherStep(g, s, a);
      OthersKeepInv(s, Apply(g, s, a));
    }
  }

  /** The remaining steps create no owner, no row and no SENT status, and send nothing. */
  ghost predicate Calm(s: State, t: State) {
    && t.sends == s.sends
    && (forall d :: d in t.drivers && Owns(t.drivers[d].phase) ==> d in s.drivers && t.drivers[d] == s.drivers[d])
    && t.rows.Keys == s.rows.Keys
    && (forall k :: k in s.rows ==>
          t.rows[k].status == s.rows[k].status || t.rows[k].status.Pending? || t.rows[k].status.Failed?)
  }

  lemma OtherStep(g: Setting, s: State, a: Action)
    requires Enabled(g, s, a) && !IsDriverStep(a)
    ensures Calm(s, Apply(g, s, a))
  {
  }

  lemma OthersKeepInv(s: State, t: State)
    requires Inv(s) && Calm(s, t)
    ensures Inv(t)
  {
    assert forall d, k :: OwnerOf(t, d, k) ==> OwnerOf(s, d, k);
    assert forall d, k :: HolderOf(t, d, k) ==> HolderOf(s, d, k);
    assert forall k :: s.sends[k] > 0 ==> k in t.rows.Keys;
    assert forall k :: k in t.rows ==> k in s.rows.Keys;
  }

  lemma {:induction false} InvRun(g: Setting, s: State, actions: seq<Action>, t: State)
    requires Inv(s) && Run(g, s, actions, t)
    ensures Inv(t)
    decreases |actions|
  {
    if actions != [] {
      InvStep(g, s, actions[0]);
      InvRun(g, Apply(g, s, actions[0]), actions[1..], t);
    }
  }

  function Start(now: Time): State {
    State(map[], map[], multiset{}, map[], now, now)
  }

  /** Over every interleaving of loops, redeliveries, crashes, retry calls and reaper steps
      a recipient is handed to the mail sender at most once per event. */
  lemma AtMostOneSend(g: Setting, now: Time, actions: seq<Action>, t: State, k: Key)
    requires Run(g, Start(now), actions, t)
    ensures t.sends[k] <= 1
  {
    InvRun(g, Start(now), actions, t);
  }

  /** Nobody is about to send to `k`, and nobody can get there any more. */
  ghost predicate Spent(s: State, k: Key) {
    k in s.rows && forall d :: !HolderOf(s, d, k)
  }

  lemma SpentDriverStep(s: State, t: State, d: nat, k: Key)
    requires d in s.drivers && d in t.drivers && OwnStep(s, t, d) && Elsewhere(s, t, d) && Spent(s, k)
    ensures Spent(t, k) && t.sends[k] == s.sends[k]
  {
    assert !HolderOf(s, d, k);
    forall e ensures !HolderOf(t, e, k) {
      assert !HolderOf(s, e, k);
    }
  }

  lemma SpentOtherStep(s: State, t: State, k: Key)
    requires Calm(s, t) && Spent(s, k)
    ensures Spent(t, k) && t.sends[k] == s.sends[k]
  {
    assert k in t.rows.Keys;
    forall e ensures !HolderOf(t, e, k) {
      assert !HolderOf(s, e, k);
    }
  }

  lemma SpentStep(g: Setting, s: State, a: Action, k: Key)
    requires Inv(s) && Enabled(g, s, a) && Spent(s, k)
    ensures Spent(Apply(g, s, a), k) && Apply(g, s, a).sends[k] == s.sends[k]
  {
    if IsDriverStep(a) {
      assert Owns(s.drivers[a.d].phase) ==> OwnerOf(s, a.d, s.drivers[a.d].key);
      DriverStep(g, s, a);
      SpentDriverStep(s, Apply(g, s, a), a.d, k);
    } else {
      OtherStep(g, s, a);
      SpentOtherStep(s, Apply(g, s, a), k);
    }
  }

  lemma {:induction false} SpentRun(g: Setting, s: State, actions: seq<Action>, t: State, k: Key)
    requires Inv(s) && Run(g, s, actions, t) && Spent(s, k)
    ensures Spent(t, k) && t.sends[k] == s.sends[k]
    decreases |actions|
  {
    if actions != [] {
      InvStep(g, s, actions[0]);
      SpentStep(g, s, actions[0], k);
      SpentRun(g, Apply(g, s, actions[0]), actions[1..], t, k);
    }
  }

  ghost predicate CanStillSend(g: Setting, s: State, k: Key) {
    exists t :: Reaches(Protocol(g), s, t) && t.sends[k] > s.sends[k]
  }

  lemma {:induction false} UnusedId(used: set<nat>) returns (d: nat)
    ensures forall e :: e in used ==> e < d
  {
    if used == {} {
      d := 0;
    } else {
      var e :| e in used;
      var f := UnusedId(used - {e});
      d := if e < f then f else e + 1;
      assert forall x :: x in used ==> x == e || x in used - {e};
    }
  }

  /** When a message can still go out to `k`: only while it has no row, or while the driver
      that made the row holds it.  In particular neither a redelivery nor a retry call ever
      leads to a send once the row exists and its first driver moved on or died. */
  lemma SendsOnlyBeforeTheRow(g: Setting, s: State, k: Key)
    requires Inv(s)
    ensures CanStillSend(g, s, k) <==> !Spent(s, k)
  {
    if Spent(s, k) && CanStillSend(g, s, k) {
      var t :| Reaches(Protocol(g), s, t) && t.sends[k] > s.sends[k];
      var actions :| IsRun(Protocol(g), s, actions, t);
      SpentRun(g, s, actions, t, k);
    }
    if k !in s.rows {
      var d := UnusedId(s.drivers.Keys);
      assert d !in s.drivers.Keys;
      var args := InsertArgs(k, "", JNull, 0, EmailDetail(None, None, None, None, None, None, None, None, None));
      var t := ActFirst(g, s, Spawn(d, k, Retry));
      t := Act(g, s, t, Insert(d, args));
      t := Act(g, s, t, Send(d, Ok(())));
    } else if !Spent(s, k) {
      var d :| HolderOf(s, d, k);
      var t := ActFirst(g, s, Send(d, Ok(())));
    }
  }

  // ── How SENT is lost ──────────────────────────────────────────────────────

  predicate IsSent(s: State, k: Key) {
    k in s.rows && s.rows[k].status.Sent?
  }

  /** A row leaves SENT exactly by the unguarded `mark_failed` of one of its drivers, and
      then that driver's call had failed at or before its insert. */
  lemma OnlyEarlyFailuresUnsend(g: Setting, s: State, a: Action, k: Key)
    requires Inv(s) && Enabled(g, s, a) && IsSent(s, k)
    ensures !IsSent(Apply(g, s, a), k) <==> a.WriteFailed? && a.applied && s.drivers[a.d].key == k
    ensures !IsSent(Apply(g, s, a), k) ==> s.drivers[a.d].phase.origin.Early?
  {
    if IsDriverStep(a) {
      assert Owns(s.drivers[a.d].phase) ==> OwnerOf(s, a.d, s.drivers[a.d].key);
    }
  }

  /** The action is not a failure before the insert of one of `k`'s drivers. */
  predicate NotEarlyFor(s: State, a: Action, k: Key) {
    (a.FailEarly? || a.InsertLost?) && a.d in s.drivers ==> s.drivers[a.d].key != k
  }

  /** The protocol in which preparation and insert succeed for `k`. */
  function SmoothFor(g: Setting, k: Key): Machine<State, Action> {
    (s: State, a: Action) => if Enabled(g, s, a) && NotEarlyFor(s, a, k) then Some(Apply(g, s, a)) else None
  }

  /** The protocol in which they succeed for everyone. */
  function Smooth(g: Setting): Machine<State, Action> {
    (s: State, a: Action) => if Enabled(g, s, a) && !a.FailEarly? && !a.InsertLost? then Some(Apply(g, s, a)) else None
  }

  /** One of `k`'s drivers is about to record a failure, or sleeps after one. */
  ghost predicate FailurePending(s: State, k: Key) {
    exists d :: d in s.drivers && s.drivers[d].key == k
                && (s.drivers[d].phase.Recording? || s.drivers[d].phase.Sleeping?)
  }

  /** SENT and safe: no driver of `k` has a failure to record, nor will it get one. */
  ghost predicate SafelySent(s: State, k: Key) {
    Inv(s) && IsSent(s, k) && !FailurePending(s, k)
  }

  lemma SafelySentStep(g: Setting, s: State, a: Action, k: Key)
    requires SafelySent(s, k) && Enabled(g, s, a) && NotEarlyFor(s, a, k)
    ensures SafelySent(Apply(g, s, a), k)
  {
    InvStep(g, s, a);
    OnlyEarlyFailuresUnsend(g, s, a, k);
    var t := Apply(g, s, a);
    forall d | d in t.drivers && t.drivers[d].key == k
      ensures !t.drivers[d].phase.Recording? && !t.drivers[d].phase.Sleeping?
    {
      if d in s.drivers {
        assert Owns(s.drivers[d].phase) ==> OwnerOf(s, d, s.drivers[d].key);
        assert s.drivers[d].key == k ==> !s.drivers[d].phase.Recording? && !s.drivers[d].phase.Sleeping?;
      }
    }
  }

  lemma {:induction false} SafelySentRun(g: Setting, s: State, actions: seq<Action>, t: State, k: Key)
    requires SafelySent(s, k) && IsRun(SmoothFor(g, k), s, actions, t)
    ensures SafelySent(t, k)
    decreases |actions|
  {
    if actions != [] {
      SafelySentStep(g, s, actions[0], k);
      SafelySentRun(g, Apply(g, s, actions[0]), actions[1..], t, k);
    }
  }

  lemma PendingFailureUnsends(g: Setting, s: State, k: Key) returns (t: State)
    requires Inv(s) && IsSent(s, k) && FailurePending(s, k)
    ensures Reaches(Smooth(g), s, t) && !IsSent(t, k)
  {
    var d :| d in s.drivers && s.drivers[d].key == k && (s.drivers[d].phase.Recording? || s.drivers[d].phase.Sleeping?);
    if s.drivers[d].phase.Sleeping? {
      t := Step(Smooth(g), s, Interrupt(d, "shutdown"));
      t := StepFrom(Smooth(g), s, t, WriteFailed(d, true));
    } else {
      t := Step(Smooth(g), s, WriteFailed(d, true));
    }
  }

  /** When SENT can be lost without a further failure before an insert, be it of this
      recipient's drivers or of anyone's: exactly while one of its drivers has such a failure
      behind it and has not finished. */
  lemma SentIsLostIff(g: Setting, s: State, k: Key)
    requires Inv(s) && IsSent(s, k)
    ensures (exists t :: Reaches(SmoothFor(g, k), s, t) && !IsSent(t, k)) <==> FailurePending(s, k)
    ensures (exists t :: Reaches(Smooth(g), s, t) && !IsSent(t, k)) <==> FailurePending(s, k)
  {
    assert PartOf(Smooth(g), SmoothFor(g, k));
    if FailurePending(s, k) {
      var t := PendingFailureUnsends(g, s, k);
      PartReaches(Smooth(g), SmoothFor(g, k), s, t);
    } else {
      forall t | Reaches(SmoothFor(g, k), s, t) ensures IsSent(t, k) {
        var actions :| IsRun(SmoothFor(g, k), s, actions, t);
        SafelySentRun(g, s, actions, t, k);
      }
      forall t | Reaches(Smooth(g), s, t) ensures IsSent(t, k) {
        PartReaches(Smooth(g), SmoothFor(g, k), s, t);
      }
    }
  }

  /** So SENT is absorbing over every interleaving in which preparation and insert succeed
      for this recipient from here on, whatever happens to the others. */
  lemma SentIsAbsorbing(g: Setting, s: State, t: State, k: Key)
    requires Inv(s) && IsSent(s, k) && !FailurePending(s, k) && Reaches(SmoothFor(g, k), s, t)
    ensures IsSent(t, k)
  {
    SentIsLostIff(g, s, k);
  }

  /** No driver of `k` has a failure behind it that came at or before its insert. */
  ghost predicate OwnFailuresOnly(s: State, k: Key) {
    forall d :: d in s.drivers && s.drivers[d].key == k ==>
      var p := s.drivers[d].phase;
      p.Recording? || p.Sleeping? ==> p.origin.OwnRow?
  }

  lemma OwnFailuresStep(g: Setting, s: State, a: Action, k: Key)
    requires Inv(s) && OwnFailuresOnly(s, k) && Enabled(g, s, a) && NotEarlyFor(s, a, k)
    ensures OwnFailuresOnly(Apply(g, s, a), k)
  {
  }

  lemma {:induction false} OwnFailuresRun(g: Setting, s: State, actions: seq<Action>, t: State, k: Key)
    requires Inv(s) && OwnFailuresOnly(s, k) && IsRun(SmoothFor(g, k), s, actions, t)
    ensures Inv(t) && OwnFailuresOnly(t, k)
    decreases |actions|
  {
    if actions != [] {
      InvStep(g, s, actions[0]);
      OwnFailuresStep(g, s, actions[0], k);
      OwnFailuresRun(g, Apply(g, s, actions[0]), actions[1..], t, k);
    }
  }

  /** From the start: if preparation and insert always succeed for a recipient, its row stays
      SENT once it is, over every interleaving. */
  lemma SentIsAbsorbingFromStart(g: Setting, now: Time, s: State, t: State, k: Key)
    requires Reaches(SmoothFor(g, k), Start(now), s) && IsSent(s, k) && Reaches(SmoothFor(g, k), s, t)
    ensures IsSent(t, k)
  {
    var actions :| IsRun(SmoothFor(g, k), Start(now), actions, s);
    OwnFailuresRun(g, Start(now), actions, s, k);
    forall d | d in s.drivers && s.drivers[d].key == k
      ensures !s.drivers[d].phase.Recording? && !s.drivers[d].phase.Sleeping?
    {
      assert Owns(s.drivers[d].phase) ==> OwnerOf(s, d, k);
    }
    SentIsAbsorbing(g, s, t, k);
  }

  /** The hypothesis is needed: wherever a row is SENT, one redelivery that fails before its
      insert turns it FAILED. */
  lemma RedeliveryUnsends(g: Setting, s: State, k: Key)
    requires IsSent(s, k)
    ensures exists t :: Reaches(Protocol(g), s, t) && k in t.rows && t.rows[k].status.Failed? && t.sends == s.sends
  {
    var d := UnusedId(s.drivers.Keys);
    assert d !in s.drivers.Keys;
    var u := ActFirst(g, s, Spawn(d, k, Retry));
    var t := EarlyFailureUnsends(g, u, d);
    Chain(Protocol(g), s, u, t);
  }

  lemma EarlyFailureUnsends(g: Setting, s: State, d: nat) returns (t: State)
    requires d in s.drivers && s.drivers[d].phase.Calling? && s.drivers[d].key in s.rows
    ensures Reaches(Protocol(g), s, t) && t.sends == s.sends
    ensures s.drivers[d].key in t.rows && t.rows[s.drivers[d].key].status.Failed?
  {
    t := ActFirst(g, s, FailEarly(d, TemplateError("missing")));
    t := Act(g, s, t, WriteFailed(d, true));
  }

  /** Such a state is reached: from an empty table a row becomes SENT and then FAILED, with
      one message sent. */
  lemma SentIsLostFromStart(g: Setting, now: Time, k: Key)
    ensures exists s, t :: Reaches(Protocol(g), Start(now), s) && IsSent(s, k)
                           && Reaches(Protocol(g), s, t) && !IsSent(t, k) && t.sends[k] == 1
  {
    var start := Start(now);
    var args := InsertArgs(k, "", JNull, 0, EmailDetail(None, None, None, None, None, None, None, None, None));
    var s := ActFirst(g, start, Spawn(0, k, Retry));
    s := Act(g, start, s, Insert(0, args));
    s := Act(g, start, s, Send(0, Ok(())));
    s := Act(g, start, s, WriteSent(0, true));
    RedeliveryUnsends(g, s, k);
  }

  // ── Settled on return ─────────────────────────────────────────────────────

  /** The drivers `ds` work for different rows, and nobody else for those. */
  ghost predicate SoleDrivers(s: State, ds: set<nat>) {
    && (forall d :: d in ds ==> d in s.drivers)
    && (forall d, e :: d in ds && e in s.drivers && d != e ==> s.drivers[d].key != s.drivers[e].key)
  }

  /** The action leaves `d` to its work: its statements are carried out and answered, no
      other driver for its row arrives, and no retry call reopens that row. */
  predicate Undisturbed(g: Setting, s: State, a: Action, d: nat)
    requires d in s.drivers && Enabled(g, s, a)
  {
    && (a.Spawn? ==> a.key != s.drivers[d].key)
    && (IsDriverStep(a) && a.d == d ==> !a.InsertLost?)
    && (a.WriteSent? && a.d == d ==> a.applied)
    && (a.WriteBlocked? && a.d == d ==> a.applied)
    && (a.WriteFailed? && a.d == d ==> a.applied)
    && (a.Crash? ==> a.d != d)
    && (IsReset(a) ==> !Reopened(s, Apply(g, s, a), s.drivers[d].key))
  }

  /** The protocol as the drivers of one event see it when the store answers. */
  function UndisturbedProtocol(g: Setting, ds: set<nat>): Machine<State, Action> {
    (s: State, a: Action) =>
      if Enabled(g, s, a) && (forall d :: d in ds ==> d in s.drivers && Undisturbed(g, s, a, d)) then
        Some(Apply(g, s, a))
      else None
  }

  /** Every driver of `ds` that has returned left its row settled, or none. */
  ghost predicate ReturnedSettled(s: State, ds: set<nat>) {
    && Inv(s) && SoleDrivers(s, ds)
    && forall d :: d in ds && s.drivers[d].phase.Finished? ==> Settled(s.rows, s.drivers[d].key)
  }

  lemma OwnReturnSettles(g: Setting, s: State, a: Action)
    requires Inv(s) && Enabled(g, s, a) && IsDriverStep(a) && Undisturbed(g, s, a, a.d)
    requires !s.drivers[a.d].phase.Finished?
    ensures var t := Apply(g, s, a);
            t.drivers[a.d].phase.Finished? ==> Settled(t.rows, s.drivers[a.d].key)
  {
    assert Owns(s.drivers[a.d].phase) ==> OwnerOf(s, a.d, s.drivers[a.d].key);
  }

  /** The retry API, the reaper and the clock leave a settled row settled. */
  lemma OthersLeaveSettled(g: Setting, s: State, a: Action, d: nat)
    requires Enabled(g, s, a) && !IsDriverStep(a) && d in s.drivers && Undisturbed(g, s, a, d)
    requires Settled(s.rows, s.drivers[d].key)
    ensures Settled(Apply(g, s, a).rows, s.drivers[d].key)
  {
  }

  /** Drivers keep their keys; only arrivals, crashes and a driver's own steps touch it. */
  ghost predicate DriversMove(s: State, t: State, a: Action) {
    && (forall e :: e in t.drivers && e in s.drivers ==> t.drivers[e].key == s.drivers[e].key)
    && (forall e :: e in t.drivers && e in s.drivers && !(IsDriverStep(a) && a.d == e) ==> t.drivers[e] == s.drivers[e])
    && (forall e :: e in t.drivers && e !in s.drivers ==> a.Spawn? && t.drivers[e].key == a.key)
    && (forall e :: e in s.drivers && e !in t.drivers ==> a.Crash? && a.d == e)
  }

  lemma EveryStepMovesDrivers(g: Setting, s: State, a: Action)
    requires Enabled(g, s, a)
    ensures DriversMove(s, Apply(g, s, a), a)
  {
    if IsDriverStep(a) {
      assert Next(g, s, a, s.drivers[a.d]).key == s.drivers[a.d].key;
    }
  }

  lemma SoleDriversStay(s: State, t: State, a: Action, ds: set<nat>)
    requires SoleDrivers(s, ds) && DriversMove(s, t, a)
    requires forall d :: d in ds ==> (a.Spawn? ==> a.key != s.drivers[d].key) && (a.Crash? ==> a.d != d)
    ensures SoleDrivers(t, ds) && forall d :: d in ds ==> t.drivers[d].key == s.drivers[d].key
  {
  }

  lemma DriversStay(g: Setting, s: State, a: Action, ds: set<nat>)
    requires Enabled(g, s, a) && SoleDrivers(s, ds) && forall d :: d in ds ==> d in s.drivers && Undisturbed(g, s, a, d)
    ensures SoleDrivers(Apply(g, s, a), ds)
    ensures forall d :: d in ds ==> Apply(g, s, a).drivers[d].key == s.drivers[d].key
    ensures forall d :: d in ds && !(IsDriverStep(a) && a.d == d) ==> Apply(g, s, a).drivers[d] == s.drivers[d]
  {
    EveryStepMovesDrivers(g, s, a);
    SoleDriversStay(s, Apply(g, s, a), a, ds);
  }

  lemma ReturnedSettledStep(g: Setting, s: State, a: Action, ds: set<nat>)
    requires ReturnedSettled(s, ds) && Enabled(g, s, a)
    requires forall d :: d in ds ==> d in s.drivers && Undisturbed(g, s, a, d)
    ensures ReturnedSettled(Apply(g, s, a), ds)
  {
    var t := Apply(g, s, a);
    InvStep(g, s, a);
    DriversStay(g, s, a, ds);
    forall d | d in ds && t.drivers[d].phase.Finished? ensures Settled(t.rows, t.drivers[d].key) {
      if !IsDriverStep(a) {
        OthersLeaveSettled(g, s, a, d);
      } else if a.d == d {
        OwnReturnSettles(g, s, a);
      } else {
        assert Owns(s.drivers[a.d].phase) ==> OwnerOf(s, a.d, s.drivers[a.d].key);
        DriverStep(g, s, a);
      }
    }
  }

  lemma {:induction false} ReturnedSettledRun(g: Setting, s: State, actions: seq<Action>, t: State, ds: set<nat>)
    requires ReturnedSettled(s, ds) && IsRun(UndisturbedProtocol(g, ds), s, actions, t)
    ensures ReturnedSettled(t, ds) && forall d :: d in ds ==> t.drivers[d].key == s.drivers[d].key
    decreases |actions|
  {
    if actions != [] {
      ReturnedSettledStep(g, s, actions[0], ds);
      DriversStay(g, s, actions[0], ds);
      ReturnedSettledRun(g, Apply(g, s, actions[0]), actions[1..], t, ds);
    }
  }

  /** However the loops of an event's distinct recipients interleave, statement by statement,
      with one another and with everything else in the service: when they have all returned,
      and so the message is acknowledged, every recipient's row is SENT, FAILED or BLOCKED, or
      there is none. */
  lemma DispatchSettles(g: Setting, s: State, t: State, ds: set<nat>)
    requires Inv(s) && SoleDrivers(s, ds) && forall d :: d in ds ==> s.drivers[d].phase.Calling?
    requires Reaches(UndisturbedProtocol(g, ds), s, t)
    ensures forall d :: d in ds ==> d in t.drivers && t.drivers[d].key == s.drivers[d].key
    ensures (forall d :: d in ds ==> t.drivers[d].phase.Finished?) ==>
              forall d :: d in ds ==> Settled(t.rows, s.drivers[d].key)
  {
    var actions :| IsRun(UndisturbedProtocol(g, ds), s, actions, t);
    ReturnedSettledRun(g, s, actions, t, ds);
  }

  // ── Retry calls ───────────────────────────────────────────────────────────

  predicate IsReset(a: Action) {
    a.ResetOne? || a.ResetEvent?
  }

  /** `k` was waiting for an operator and is PENDING again. */
  predicate Reopened(s: State, t: State, k: Key) {
    k in s.rows && k in t.rows && s.rows[k].status.IsRetryableRow() && t.rows[k].status.Pending?
  }

  /** A FAILED or BLOCKED row becomes PENDING through exactly one retry call, which claims
      it, or through a loop's own unguarded write. */
  lemma WhoReopens(g: Setting, s: State, a: Action, k: Key)
    requires Enabled(g, s, a) && Reopened(s, Apply(g, s, a), k)
    ensures IsReset(a) || (a.WriteFailed? && a.applied && s.drivers[a.d].key == k)
    ensures IsReset(a) ==> a.c !in s.claims && k in Apply(g, s, a).claims[a.c]
  {
  }

  /** A retry call claims exactly the rows its statement reopened. */
  lemma ClaimsAreTheReopened(g: Setting, s: State, a: Action)
    requires Enabled(g, s, a) && IsReset(a)
    ensures var t := Apply(g, s, a);
            t.claims[a.c] == set k | k in s.rows && Reopened(s, t, k)
  {
  }

  /** How often retry calls reopened `k` along a run. */
  ghost function Reopenings(g: Setting, s: State, actions: seq<Action>, k: Key): nat
    decreases |actions|
  {
    if actions == [] || !Enabled(g, s, actions[0]) then 0
    else
      var t := Apply(g, s, actions[0]);
      (if IsReset(actions[0]) && Reopened(s, t, k) then 1 else 0) + Reopenings(g, t, actions[1..], k)
  }

  function Claimants(s: State, k: Key): set<nat> {
    set c | c in s.claims && k in s.claims[c]
  }

  lemma OnlyResetsClaim(g: Setting, s: State, a: Action)
    requires Enabled(g, s, a)
    ensures var t := Apply(g, s, a);
            if IsReset(a) then a.c !in s.claims && a.c in t.claims && t.claims == s.claims[a.c := t.claims[a.c]]
            else t.claims == s.claims
  {
  }

  lemma ClaimantsGrow(s: State, t: State, c: nat, k: Key)
    requires c !in s.claims && c in t.claims && t.claims == s.claims[c := t.claims[c]]
    ensures |Claimants(t, k)| == |Claimants(s, k)| + if k in t.claims[c] then 1 else 0
  {
    assert Claimants(t, k) == Claimants(s, k) + if k in t.claims[c] then {c} else {};
  }

  /** Each reopening belongs to exactly one retry call, however calls interleave. */
  lemma {:induction false} OneCallPerReopening(g: Setting, s: State, actions: seq<Action>, t: State, k: Key)
    requires Run(g, s, actions, t)
    ensures |Claimants(t, k)| == |Claimants(s, k)| + Reopenings(g, s, actions, k)
    decreases |actions|
  {
    if actions != [] {
      var a, u := actions[0], Apply(g, s, actions[0]);
      OnlyResetsClaim(g, s, a);
      if IsReset(a) {
        ClaimsAreTheReopened(g, s, a);
        ClaimantsGrow(s, u, a.c, k);
      }
      OneCallPerReopening(g, u, actions[1..], t, k);
    }
  }

  /** Along the run, call `c` reopened `k`. */
  ghost predicate ReopenedBy(g: Setting, s: State, actions: seq<Action>, c: nat, k: Key)
    decreases |actions|
  {
    && actions != [] && Enabled(g, s, actions[0])
    && var t := Apply(g, s, actions[0]);
       (IsReset(actions[0]) && actions[0].c == c && Reopened(s, t, k)) || ReopenedBy(g, t, actions[1..], c, k)
  }

  predicate Claims(s: State, c: nat, k: Key) {
    c in s.claims && k in s.claims[c]
  }

  lemma ClaimStep(g: Setting, s: State, a: Action, c: nat, k: Key)
    requires Enabled(g, s, a)
    ensures Claims(Apply(g, s, a), c, k) <==>
              Claims(s, c, k) || (IsReset(a) && a.c == c && Reopened(s, Apply(g, s, a), k))
  {
    OnlyResetsClaim(g, s, a);
    if IsReset(a) {
      ClaimsAreTheReopened(g, s, a);
    }
  }

  lemma {:induction false} ClaimsAreReopenings(g: Setting, s: State, actions: seq<Action>, t: State, c: nat, k: Key)
    requires Run(g, s, actions, t)
    ensures Claims(t, c, k) <==> Claims(s, c, k) || ReopenedBy(g, s, actions, c, k)
    decreases |actions|
  {
    if actions != [] {
      ClaimStep(g, s, actions[0], c, k);
      ClaimsAreReopenings(g, Apply(g, s, actions[0]), actions[1..], t, c, k);
    }
  }

  /** However calls interleave, a revert changes a row exactly if its own call reopened that
      row earlier in the run and the row is still PENDING; and it makes it FAILED. */
  lemma RevertUndoesOwnReopenings(g: Setting, now: Time, actions: seq<Action>, s: State, a: Action, k: Key)
    requires Run(g, Start(now), actions, s) && Enabled(g, s, a) && a.Revert? && k in s.rows
    ensures k in Apply(g, s, a).rows
    ensures Apply(g, s, a).rows[k].status != s.rows[k].status <==>
              ReopenedBy(g, Start(now), actions, a.c, k) && s.rows[k].status.Pending?
    ensures Apply(g, s, a).rows[k] == s.rows[k] || Apply(g, s, a).rows[k].status.Failed?
  {
    ClaimsAreReopenings(g, Start(now), actions, s, a.c, k);
  }

  // ── Bounded recovery ──────────────────────────────────────────────────────

  /** Clock and reaper: no PENDING row was overdue when the reaper last ran. */
  ghost predicate Timely(g: Setting, s: State) {
    && s.lastReap <= s.now <= s.lastReap + g.reapEvery
    && forall k :: k in s.rows && s.rows[k].status.Pending? ==>
         s.lastReap <= s.rows[k].updatedAt + g.timeoutSecs * NANOS_PER_SEC
  }

  lemma TimelyStep(g: Setting, s: State, a: Action)
    requires Timely(g, s) && Enabled(g, s, a) && OnTime(g, s, a)
    ensures Timely(g, Apply(g, s, a))
  {
  }

  lemma {:induction false} TimelyRun(g: Setting, s: State, actions: seq<Action>, t: State)
    requires Timely(g, s) && IsRun(Punctual(g), s, actions, t)
    ensures Timely(g, t)
    decreases |actions|
  {
    if actions != [] {
      TimelyStep(g, s, actions[0]);
      TimelyRun(g, Apply(g, s, actions[0]), actions[1..], t);
    }
  }

  /** With a reaper that runs on time, in every reachable state a PENDING row was written no
      longer than the reaper's timeout plus one period ago. */
  lemma PendingIsRecent(g: Setting, now: Time, actions: seq<Action>, t: State, k: Key)
    requires IsRun(Punctual(g), Start(now), actions, t)
    requires k in t.rows && t.rows[k].status.Pending?
    ensures t.now <= t.rows[k].updatedAt + g.timeoutSecs * NANOS_PER_SEC + g.reapEvery
  {
    TimelyRun(g, Start(now), actions, t);
  }

  /** Nobody is in the middle of delivering `k`: its drivers only go round the loop. */
  ghost predicate Abandoned(s: State, k: Key) {
    && k in s.rows && s.rows[k].status.Pending?
    && forall d :: d in s.drivers && s.drivers[d].key == k ==>
         s.drivers[d].phase.Calling? || s.drivers[d].phase.Finished?
  }

  /** The reaper runs on time, and preparation and insert succeed for `k`. */
  function PunctualAndSmoothFor(g: Setting, k: Key): Machine<State, Action> {
    (s: State, a: Action) =>
      if Enabled(g, s, a) && OnTime(g, s, a) && NotEarlyFor(s, a, k) then Some(Apply(g, s, a)) else None
  }

  /** `k` is FAILED after some step of the run. */
  ghost predicate EverFailed(g: Setting, s: State, actions: seq<Action>, k: Key)
    decreases |actions|
  {
    || (k in s.rows && s.rows[k].status.Failed?)
    || (actions != [] && Enabled(g, s, actions[0]) && EverFailed(g, Apply(g, s, actions[0]), actions[1..], k))
  }

  /** Drivers that insert again leave an abandoned row exactly as it is. */
  lemma AbandonedStep(g: Setting, s: State, a: Action, k: Key)
    requires Enabled(g, s, a) && Abandoned(s, k) && NotEarlyFor(s, a, k)
    ensures var t := Apply(g, s, a);
            k in t.rows && (t.rows[k].status.Failed? || (t.rows[k] == s.rows[k] && Abandoned(t, k)))
  {
  }

  /** A row left PENDING at `since` turns FAILED before the timeout plus one reaper period
      is over, however many redeliveries keep inserting it meanwhile. */
  lemma {:induction false} BoundedRecovery(g: Setting, s: State, actions: seq<Action>, t: State, k: Key)
    requires Timely(g, s) && IsRun(PunctualAndSmoothFor(g, k), s, actions, t)
    requires Abandoned(s, k)
    requires t.now > s.rows[k].updatedAt + g.timeoutSecs * NANOS_PER_SEC + g.reapEvery
    ensures EverFailed(g, s, actions, k)
    decreases |actions|
  {
    if actions != [] {
      var u := Apply(g, s, actions[0]);
      AbandonedStep(g, s, actions[0], k);
      TimelyStep(g, s, actions[0]);
      if !u.rows[k].status.Failed? {
        BoundedRecovery(g, u, actions[1..], t, k);
      }
    }
  }
}
