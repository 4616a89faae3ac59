/** The delivery loop of `Delivery` takes no step the interleaving model lacks: each attempt
    with the loop's write after it, each wake-up and each shutdown during a sleep, and so each
    whole loop, is a run of one driver of `DeliveryProtocol`
    (crates/consumer/src/delivery.rs, crates/consumer/src/processor.rs). */
module LoopRefinesProtocol {
  import opened Common
  import opened Event
  import opened NotificationLog
  import opened RetryLoop
  import opened Processor
  import opened Delivery
  import opened DeliveryProtocol
  import opened Runs

  /** Only driver `d`, the table and the send counts may have moved. */
  predicate MovedTo(s: State, t: State, d: nat, dr: Driver, rows: Table, sends: multiset<Key>) {
    t == s.(rows := rows, drivers := s.drivers[d := dr], sends := sends)
  }

  /** The driver after a call that ended in `o`. */
  function AfterCall(cfg: Config, dr: Driver, o: Outcome, origin: Origin): Driver {
    match o
    case Failure(e) => Fail(cfg, dr, e, origin)
    case StillPending(n) => dr.(counters := dr.counters.(attempt := n))
    case _ => dr.(phase := Finished)
  }

  function OriginOf(before: Table, after: Table, k: Key): Origin {
    if k !in before && k in after then OwnRow else Early
  }

  function SendsOf(j: Job, r: Recipient, c: CallResult): multiset<Key> {
    if c.sent == [] then multiset{} else multiset{KeyOf(j, r)}
  }

  /** One call of `process_recipient` is a run of its driver: same table, same sends. */
  lemma CallIsRun(g: Setting, ctx: Context, j: Job, r: Recipient, s: State, d: nat, a: Answers) returns (t: State)
    requires d in s.drivers && s.drivers[d].phase.Calling? && s.drivers[d].key == KeyOf(j, r) && s.now == a.now
    ensures var c := RecipientCall(ctx, j, r, s.rows, a);
            var dr := AfterCall(g.cfg, s.drivers[d], c.outcome, OriginOf(s.rows, c.rows, KeyOf(j, r)));
            && !c.outcome.GroupFailure?
            && Reaches(Protocol(g), s, t) && MovedTo(s, t, d, dr, c.rows, s.sends + SendsOf(j, r, c))
  {
    var early := PreInsertError(ctx, j, r, a);
    if early.Some? {
      t := ActFirst(g, s, FailEarly(d, early.value));
    } else if !a.insertUp {
      t := ActFirst(g, s, FailEarly(d, DatabaseError("database unavailable")));
    } else if KeyOf(j, r) in s.rows {
      t := ActFirst(g, s, Insert(d, ArgsFor(j, r, None, None)));
    } else {
      t := FreshCallIsRun(g, ctx, j, r, s, d, a);
    }
  }

  lemma FreshCallIsRun(g: Setting, ctx: Context, j: Job, r: Recipient, s: State, d: nat, a: Answers) returns (t: State)
    requires d in s.drivers && s.drivers[d].phase.Calling? && s.drivers[d].key == KeyOf(j, r) && s.now == a.now
    requires KeyOf(j, r) !in s.rows
    ensures var c := FirstAttempt(ctx, j, r, AfterInsert(s.rows, ArgsFor(j, r, None, None), a.now), a);
            && KeyOf(j, r) in c.rows && !c.outcome.GroupFailure?
            && Reaches(Protocol(g), s, t)
            && MovedTo(s, t, d, AfterCall(g.cfg, s.drivers[d], c.outcome, OwnRow), c.rows, s.sends + SendsOf(j, r, c))
  {
    var u := ActFirst(g, s, Insert(d, ArgsFor(j, r, None, None)));
    t := HolderIsRun(g, ctx, j, r, u, d, s.drivers[d], a);
    Chain(Protocol(g), s, u, t);
  }

  /** The part of a call after the insert that created the row. */
  lemma HolderIsRun(g: Setting, ctx: Context, j: Job, r: Recipient, s: State, d: nat, dr: Driver, a: Answers)
    returns (t: State)
    requires d in s.drivers && s.drivers[d] == dr.(phase := Holding) && dr.key == KeyOf(j, r) && s.now == a.now
    requires KeyOf(j, r) in s.rows
    ensures var c := FirstAttempt(ctx, j, r, s.rows, a);
            && KeyOf(j, r) in c.rows && !c.outcome.GroupFailure?
            && Reaches(Protocol(g), s, t)
            && MovedTo(s, t, d, AfterCall(g.cfg, dr, c.outcome, OwnRow), c.rows, s.sends + SendsOf(j, r, c))
  {
    var refusal := Refusal(ctx, r.email, a);
    if refusal.Some? {
      t := ActFirst(g, s, TurnAway(d, refusal.value));
      t := Act(g, s, t, WriteBlocked(d, a.markUp));
    } else if !a.token {
      t := ActFirst(g, s, NoToken(d, SHUTDOWN_WAITING));
    } else {
      t := SendIsRun(g, s, d, dr, a);
    }
  }

  lemma SendIsRun(g: Setting, s: State, d: nat, dr: Driver, a: Answers) returns (t: State)
    requires d in s.drivers && s.drivers[d] == dr.(phase := Holding) && s.now == a.now
    ensures var o := if a.send.Ok? then Delivered else Failure(a.send.error);
            var rows := if a.send.Ok? && a.markUp then AfterMarkSent(s.rows, dr.key, a.now) else s.rows;
            && Reaches(Protocol(g), s, t)
            && MovedTo(s, t, d, AfterCall(g.cfg, dr, o, OwnRow), rows, s.sends + multiset{dr.key})
  {
    t := ActFirst(g, s, Send(d, a.send));
    if a.send.Ok? {
      t := Act(g, s, t, WriteSent(d, a.markUp));
    }
  }

  // ── Moves of one loop ─────────────────────────────────────────────────────

  /** The recipient a driver works for, and the job it is part of. */
  datatype Task = Task(j: Job, r: Recipient)
  {
    function Key(): Key {
      KeyOf(j, r)
    }
  }

  /** Driver `d` works for the task. */
  predicate WorksFor(s: State, d: nat, k: Task) {
    d in s.drivers && s.drivers[d].key == k.Key() && s.drivers[d].policy == k.j.opts.retryPolicy
  }

  /** It is at the start of an iteration. */
  predicate Ready(s: State, d: nat, k: Task) {
    WorksFor(s, d, k) && s.drivers[d].phase.Calling?
  }

  /** The loop's write before a sleep or a return. */
  function AfterWrite(rows: Table, k: Key, d: Decision, a: Answers): Table {
    match d
    case GiveUp(m) => Delivery.WriteFailed(rows, k, m, true, a.now, a.failUp)
    case Backoff(_, m, _) => Delivery.WriteFailed(rows, k, m, false, a.now, a.failUp)
    case _ => rows
  }

  /** The driver after the loop's decision. */
  function Decided(dr: Driver, d: Decision, origin: Origin): Driver {
    match d
    case Again(c) => dr.(counters := c)
    case Backoff(c, _, _) => dr.(counters := c, phase := Sleeping(origin))
    case _ => dr.(phase := Finished)
  }

  /** The service after a call with result `c` and the loop's write. */
  function Concluded(g: Setting, s: State, d: nat, k: Task, a: Answers, c: CallResult): State
    requires Ready(s, d, k)
  {
    var dec := Decide(g.cfg, k.j.opts.retryPolicy, false, s.drivers[d].counters, c.outcome);
    s.(rows := AfterWrite(c.rows, k.Key(), dec, a), sends := s.sends + SendsOf(k.j, k.r, c),
       drivers := s.drivers[d := Decided(s.drivers[d], dec, OriginOf(s.rows, c.rows, k.Key()))])
  }

  /** The service after one attempt and the loop's write. */
  function Attempted(g: Setting, ctx: Context, s: State, d: nat, k: Task, a: Answers): State
    requires Ready(s, d, k)
  {
    Concluded(g, s, d, k, a, RecipientCall(ctx, k.j, k.r, s.rows, a))
  }

  lemma ArmIsRun(g: Setting, s: State, d: nat, dr: Driver, e: AppError, origin: Origin, a: Answers) returns (t: State)
    requires d in s.drivers && s.drivers[d] == Fail(g.cfg, dr, e, origin) && s.now == a.now
    ensures var dec := Decide(g.cfg, dr.policy, false, dr.counters, Failure(e));
            && Reaches(Protocol(g), s, t)
            && MovedTo(s, t, d, Decided(dr, dec, origin), AfterWrite(s.rows, dr.key, dec, a), s.sends)
  {
    t := ActFirst(g, s, WriteFailed(d, a.failUp));
  }

  /** From the state the call has reached. */
  lemma ConclusionIsRun(g: Setting, s: State, t: State, d: nat, k: Task, a: Answers, c: CallResult)
    requires Ready(s, d, k) && s.now == a.now && !c.outcome.GroupFailure? && Reaches(Protocol(g), s, t)
    requires var dr := AfterCall(g.cfg, s.drivers[d], c.outcome, OriginOf(s.rows, c.rows, k.Key()));
             MovedTo(s, t, d, dr, c.rows, s.sends + SendsOf(k.j, k.r, c))
    ensures Reaches(Protocol(g), s, Concluded(g, s, d, k, a, c))
  {
    if c.outcome.Failure? {
      var u := ArmIsRun(g, t, d, s.drivers[d], c.outcome.error, OriginOf(s.rows, c.rows, k.Key()), a);
      Chain(Protocol(g), s, t, u);
      assert u == Concluded(g, s, d, k, a, c);
    } else {
      assert t == Concluded(g, s, d, k, a, c);
    }
  }

  /** One attempt with the loop's write is a run of its driver. */
  lemma AttemptIsRun(g: Setting, ctx: Context, s: State, d: nat, k: Task, a: Answers)
    requires Ready(s, d, k) && s.now == a.now
    ensures Reaches(Protocol(g), s, Attempted(g, ctx, s, d, k, a))
  {
    var t := CallIsRun(g, ctx, k.j, k.r, s, d, a);
    ConclusionIsRun(g, s, t, d, k, a, RecipientCall(ctx, k.j, k.r, s.rows, a));
  }

  predicate Asleep(s: State, d: nat) {
    d in s.drivers && s.drivers[d].phase.Sleeping?
  }

  function Woken(s: State, d: nat): State
    requires Asleep(s, d)
  {
    s.(drivers := s.drivers[d := s.drivers[d].(phase := Calling)])
  }

  /** Which sleep it was shows in the counters. */
  function CutMessage(c: Counters): string {
    if c.rlCount > 0 then "service shutdown during rate-limit backoff" else "service shutdown during retry backoff"
  }

  lemma CutMessageIsLoops(cfg: Config, policy: RetryPolicy, c: Counters, o: Outcome)
    ensures var d := Decide(cfg, policy, false, c, o); d.Backoff? ==> ShutdownMessage(o) == CutMessage(d.counters)
  {
  }

  /** The service after a shutdown has ended the sleep of `d`, with its second write. */
  function CutShort(s: State, d: nat, up: bool): State
    requires Asleep(s, d)
  {
    var dr := s.drivers[d];
    s.(rows := Delivery.WriteFailed(s.rows, dr.key, CutMessage(dr.counters), true, s.now, up),
       drivers := s.drivers[d := dr.(phase := Finished)])
  }

  lemma WakeUpIsRun(g: Setting, s: State, d: nat)
    requires Asleep(s, d)
    ensures Reaches(Protocol(g), s, Woken(s, d))
  {
    var t := ActFirst(g, s, Wake(d));
  }

  lemma CutIsRun(g: Setting, s: State, d: nat, up: bool)
    requires Asleep(s, d)
    ensures Reaches(Protocol(g), s, CutShort(s, d, up))
  {
    var t := ActFirst(g, s, Interrupt(d, CutMessage(s.drivers[d].counters)));
    t := Act(g, s, t, WriteFailed(d, up));
    assert MovedTo(s, t, d, s.drivers[d].(phase := Finished), t.rows, s.sends);
  }

  // ── Schedules ─────────────────────────────────────────────────────────────

  /** One attempt of some loop, the end of some loop's sleep, or one action of anybody else.
      `at` is the time of the shutdown, `up` whether the database takes the write. */
  datatype Move =
    | Attempt(d: nat, task: Task, a: Answers)
    | WakeUp(d: nat)
    | Cut(d: nat, at: Time, up: bool)
    | Other(action: Action)

  predicate Possible(g: Setting, s: State, m: Move) {
    match m
    case Attempt(d, k, a) => Ready(s, d, k) && s.now == a.now
    case WakeUp(d) => Asleep(s, d)
    case Cut(d, at, _) => Asleep(s, d) && s.now == at
    case Other(action) => Enabled(g, s, action)
  }

  function Moved(g: Setting, ctx: Context, s: State, m: Move): State
    requires Possible(g, s, m)
  {
    match m
    case Attempt(d, k, a) => Attempted(g, ctx, s, d, k, a)
    case WakeUp(d) => Woken(s, d)
    case Cut(d, _, up) => CutShort(s, d, up)
    case Other(action) => Apply(g, s, action)
  }

  /** Any number of loops, attempt by attempt and sleep by sleep, and the rest of the service in
      between. */
  function Schedules(g: Setting, ctx: Context): Machine<State, Move> {
    (s: State, m: Move) => if Possible(g, s, m) then Some(Moved(g, ctx, s, m)) else None
  }

  lemma MoveIsRun(g: Setting, ctx: Context, s: State, m: Move)
    requires Possible(g, s, m)
    ensures Reaches(Protocol(g), s, Moved(g, ctx, s, m))
  {
    match m {
      case Attempt(d, k, a) => AttemptIsRun(g, ctx, s, d, k, a);
      case WakeUp(d) => WakeUpIsRun(g, s, d);
      case Cut(d, _, up) => CutIsRun(g, s, d, up);
      case Other(action) => var t := ActFirst(g, s, action);
    }
  }

  /** Every schedule is a run of the protocol, so what holds of every run holds of the loops of
      `Delivery` whatever runs between their attempts and during their sleeps. */
  lemma {:induction false} ScheduleIsRun(g: Setting, ctx: Context, s: State, moves: seq<Move>, t: State)
    requires IsRun(Schedules(g, ctx), s, moves, t)
    ensures Reaches(Protocol(g), s, t)
    decreases |moves|
  {
    if moves == [] {
      NoStep(Protocol(g), s);
    } else {
      var u := Moved(g, ctx, s, moves[0]);
      MoveIsRun(g, ctx, s, moves[0]);
      ScheduleIsRun(g, ctx, u, moves[1..], t);
      Chain(Protocol(g), s, u, t);
    }
  }

  // ── One loop within a schedule ────────────────────────────────────────────

  predicate Own(m: Move, d: nat) {
    !m.Other? && m.d == d
  }

  /** The move is this driver's own, for its task, or leaves driver and row alone. */
  predicate Keeps(g: Setting, ctx: Context, s: State, m: Move, d: nat, k: Task)
    requires Possible(g, s, m)
  {
    match m
    case Attempt(e, l, _) => if e == d then l == k else l.Key() != k.Key()
    case WakeUp(_) => true
    case Cut(e, _, _) => e == d || s.drivers[e].key != k.Key()
    case Other(_) => Unaffected(s, Moved(g, ctx, s, m), d, k.Key())
  }

  predicate Unaffected(s: State, t: State, d: nat, k: Key) {
    && d in s.drivers && d in t.drivers && t.drivers[d] == s.drivers[d]
    && AgreeAt(s.rows, t.rows, k) && t.sends[k] == s.sends[k]
  }

  /** Schedules in which nobody else writes the row of `d`'s recipient. */
  function SchedulesAround(g: Setting, ctx: Context, d: nat, k: Task): Machine<State, Move> {
    (s: State, m: Move) => if Possible(g, s, m) && Keeps(g, ctx, s, m, d, k) then Some(Moved(g, ctx, s, m)) else None
  }

  /** The next move of `d` itself. */
  function NextOwn(moves: seq<Move>, d: nat): Option<Move> {
    if moves == [] then None else if Own(moves[0], d) then Some(moves[0]) else NextOwn(moves[1..], d)
  }

  predicate CutNext(moves: seq<Move>, d: nat) {
    NextOwn(moves, d).Some? && NextOwn(moves, d).value.Cut?
  }

  /** An attempt's answers, with how the sleep after it ends. */
  function Settle(a: Answers, rest: seq<Move>, d: nat): Answers {
    if CutNext(rest, d) then
      a.(shutdown := true, shutdownAt := NextOwn(rest, d).value.at, shutdownUp := NextOwn(rest, d).value.up)
    else a.(shutdown := false, shutdownUp := true)
  }

  /** The answers `d` gets along a schedule. */
  function AnswersOf(moves: seq<Move>, d: nat): seq<Answers> {
    if moves == [] then []
    else if Own(moves[0], d) && moves[0].Attempt? then [Settle(moves[0].a, moves[1..], d)] + AnswersOf(moves[1..], d)
    else AnswersOf(moves[1..], d)
  }

  /** Driver `d` is between two moves of its loop. */
  predicate Engaged(s: State, d: nat, k: Task) {
    WorksFor(s, d, k) && (s.drivers[d].phase.Calling? || s.drivers[d].phase.Sleeping? || s.drivers[d].phase.Finished?)
  }

  /** What the loop run alone does from here on, on what `d` gets along the schedule. */
  function Alone(g: Setting, ctx: Context, s: State, d: nat, k: Task, moves: seq<Move>): DriveResult
    requires Engaged(s, d, k)
  {
    var dr := s.drivers[d];
    if dr.phase.Finished? then DriveResult(s.rows, [], [], true)
    else if dr.phase.Sleeping? && CutNext(moves, d) then
      var cut := NextOwn(moves, d).value;
      DriveResult(Delivery.WriteFailed(s.rows, k.Key(), CutMessage(dr.counters), true, cut.at, cut.up), [], [], true)
    else Drive(ctx, g.cfg, k.j, k.r, s.rows, dr.counters, AnswersOf(moves, d))
  }

  /** `x` from `s` and `y` from `u` leave the same to the key. */
  predicate SameFate(s: State, x: DriveResult, u: State, y: DriveResult, k: Key) {
    && AgreeAt(x.rows, y.rows, k) && x.done == y.done
    && s.sends[k] + |x.sent| == u.sends[k] + |y.sent|
  }

  lemma OthersKeep(g: Setting, ctx: Context, s: State, m: Move, d: nat, k: Task)
    requires Possible(g, s, m) && Keeps(g, ctx, s, m, d, k) && !Own(m, d) && d in s.drivers
    ensures Unaffected(s, Moved(g, ctx, s, m), d, k.Key())
  {
    if m.Attempt? {
      AttemptKeepsOthers(g, ctx, s, m.d, m.task, m.a, k.Key());
    }
  }

  lemma AttemptKeepsOthers(g: Setting, ctx: Context, s: State, d: nat, k: Task, a: Answers, other: Key)
    requires Ready(s, d, k) && other != k.Key()
    ensures var t := Attempted(g, ctx, s, d, k, a);
            AgreeAt(s.rows, t.rows, other) && t.sends[other] == s.sends[other]
  {
    CallTouchesOneRow(ctx, k.j, k.r, s.rows, a);
  }

  lemma OtherMove(g: Setting, ctx: Context, s: State, u: State, d: nat, k: Task, moves: seq<Move>)
    requires Engaged(s, d, k) && Unaffected(s, u, d, k.Key()) && moves != [] && !Own(moves[0], d)
    ensures Engaged(u, d, k)
    ensures SameFate(s, Alone(g, ctx, s, d, k, moves), u, Alone(g, ctx, u, d, k, moves[1..]), k.Key())
  {
    LooksOnlyAtOwnRow(ctx, g.cfg, k.j, k.r, s.rows, u.rows, s.drivers[d].counters, AnswersOf(moves, d));
  }

  /** The same answers but for the end of the sleep. */
  predicate SameCall(a: Answers, b: Answers) {
    b == a.(shutdown := b.shutdown, shutdownAt := b.shutdownAt, shutdownUp := b.shutdownUp)
  }

  lemma FirstAttemptIgnoresSleep(ctx: Context, j: Job, r: Recipient, rows: Table, a: Answers, b: Answers)
    requires SameCall(a, b)
    ensures FirstAttempt(ctx, j, r, rows, b) == FirstAttempt(ctx, j, r, rows, a)
  {
    assert Refusal(ctx, r.email, b) == Refusal(ctx, r.email, a);
  }

  lemma CallIgnoresSleep(ctx: Context, j: Job, r: Recipient, rows: Table, a: Answers, b: Answers)
    requires SameCall(a, b)
    ensures RecipientCall(ctx, j, r, rows, b) == RecipientCall(ctx, j, r, rows, a)
  {
    assert PreInsertError(ctx, j, r, b) == PreInsertError(ctx, j, r, a);
    FirstAttemptIgnoresSleep(ctx, j, r, AfterInsert(rows, ArgsFor(j, r, None, None), a.now), a, b);
  }

  /** How the loop goes on after an attempt, as the loop itself and as its driver see it. */
  lemma ArmSplits(rows: Table, k: Key, o: Outcome, d: Decision, a: Answers, b: Answers)
    requires SameCall(a, b) && (d.Backoff? ==> ShutdownMessage(o) == CutMessage(d.counters))
    ensures var waiting := AfterWrite(rows, k, d, a);
            AfterArm(rows, k, d, o, b) ==
            if d.Backoff? && b.shutdown then
              Delivery.WriteFailed(waiting, k, CutMessage(d.counters), true, b.shutdownAt, b.shutdownUp)
            else waiting
  {
  }

  /** The rest of the loop after an attempt that ended in `o` with decision `dec`. */
  function RestOfLoop(ctx: Context, cfg: Config, k: Task, rows: Table, o: Outcome, dec: Decision, b: Answers,
                      answers: seq<Answers>): DriveResult
  {
    var next := AfterArm(rows, k.Key(), dec, o, b);
    if GoesOn(dec, b) then Drive(ctx, cfg, k.j, k.r, next, dec.counters, answers) else DriveResult(next, [], [], true)
  }

  lemma DriveHead(ctx: Context, cfg: Config, k: Task, rows: Table, c: Counters, b: Answers, answers: seq<Answers>)
    ensures var call := RecipientCall(ctx, k.j, k.r, rows, b);
            var dec := Decide(cfg, k.j.opts.retryPolicy, false, c, call.outcome);
            Drive(ctx, cfg, k.j, k.r, rows, c, [b] + answers)
            == After(call, RestOfLoop(ctx, cfg, k, call.rows, call.outcome, dec, b, answers))
  {
    assert ([b] + answers)[1..] == answers;
  }

  lemma AloneAfterAttempt(g: Setting, ctx: Context, u: State, d: nat, k: Task, dr: Driver, rows: Table, o: Outcome,
                          dec: Decision, origin: Origin, a: Answers, rest: seq<Move>)
    requires WorksFor(u, d, k) && dr.phase.Calling? && u.drivers[d] == Decided(dr, dec, origin)
    requires u.rows == AfterWrite(rows, k.Key(), dec, a)
    requires dec.Backoff? ==> ShutdownMessage(o) == CutMessage(dec.counters)
    ensures Engaged(u, d, k)
    ensures Alone(g, ctx, u, d, k, rest) == RestOfLoop(ctx, g.cfg, k, rows, o, dec, Settle(a, rest, d),
                                                       AnswersOf(rest, d))
  {
    var b := Settle(a, rest, d);
    ArmSplits(rows, k.Key(), o, dec, a, b);
    if dec.Backoff? {
      assert GoesOn(dec, b) <==> !CutNext(rest, d);
    }
  }

  /** After a call with result `c` at decision `dec`, the loop as a whole and what is left of it
      leave the same. */
  lemma AttemptKeepsFate(s: State, u: State, k: Task, c: CallResult, rest: DriveResult)
    requires |c.sent| <= 1 && u.sends == s.sends + SendsOf(k.j, k.r, c)
    ensures SameFate(s, After(c, rest), u, rest, k.Key())
  {
  }

  lemma OwnAttempt(g: Setting, ctx: Context, s: State, d: nat, k: Task, a: Answers, rest: seq<Move>)
    requires Ready(s, d, k)
    ensures var u := Attempted(g, ctx, s, d, k, a);
            && Engaged(u, d, k)
            && SameFate(s, Alone(g, ctx, s, d, k, [Attempt(d, k, a)] + rest), u, Alone(g, ctx, u, d, k, rest), k.Key())
  {
    var dr, c := s.drivers[d], RecipientCall(ctx, k.j, k.r, s.rows, a);
    var u := Attempted(g, ctx, s, d, k, a);
    var dec := Decide(g.cfg, k.j.opts.retryPolicy, false, dr.counters, c.outcome);
    CutMessageIsLoops(g.cfg, k.j.opts.retryPolicy, dr.counters, c.outcome);
    AloneAfterAttempt(g, ctx, u, d, k, dr, c.rows, c.outcome, dec, OriginOf(s.rows, c.rows, k.Key()), a, rest);
    AloneBeforeAttempt(g, ctx, s, d, k, a, rest);
    AttemptKeepsFate(s, u, k, c, Alone(g, ctx, u, d, k, rest));
  }

  lemma AloneBeforeAttempt(g: Setting, ctx: Context, s: State, d: nat, k: Task, a: Answers, rest: seq<Move>)
    requires Ready(s, d, k)
    ensures var c := RecipientCall(ctx, k.j, k.r, s.rows, a);
            var dec := Decide(g.cfg, k.j.opts.retryPolicy, false, s.drivers[d].counters, c.outcome);
            && |c.sent| <= 1
            && Alone(g, ctx, s, d, k, [Attempt(d, k, a)] + rest)
               == After(c, RestOfLoop(ctx, g.cfg, k, c.rows, c.outcome, dec, Settle(a, rest, d), AnswersOf(rest, d)))
  {
    CallIgnoresSleep(ctx, k.j, k.r, s.rows, a, Settle(a, rest, d));
    DriveHead(ctx, g.cfg, k, s.rows, s.drivers[d].counters, Settle(a, rest, d), AnswersOf(rest, d));
    SendNeedsFreshRow(ctx, k.j, k.r, s.rows, a);
    AnswersSplit(d, k, a, rest);
  }

  lemma AnswersSplit(d: nat, k: Task, a: Answers, rest: seq<Move>)
    ensures AnswersOf([Attempt(d, k, a)] + rest, d) == [Settle(a, rest, d)] + AnswersOf(rest, d)
  {
    assert ([Attempt(d, k, a)] + rest)[1..] == rest;
  }

  lemma OwnSleepEnds(g: Setting, ctx: Context, s: State, m: Move, d: nat, k: Task, rest: seq<Move>)
    requires Engaged(s, d, k) && Possible(g, s, m) && Own(m, d) && !m.Attempt?
    ensures var u := Moved(g, ctx, s, m);
            && Engaged(u, d, k)
            && SameFate(s, Alone(g, ctx, s, d, k, [m] + rest), u, Alone(g, ctx, u, d, k, rest), k.Key())
  {
    assert ([m] + rest)[0] == m && ([m] + rest)[1..] == rest;
  }

  /** Every move leaves the loop's fate as it was. */
  lemma MoveKeepsFate(g: Setting, ctx: Context, s: State, moves: seq<Move>, d: nat, k: Task)
    requires Engaged(s, d, k) && moves != [] && Possible(g, s, moves[0]) && Keeps(g, ctx, s, moves[0], d, k)
    ensures var u := Moved(g, ctx, s, moves[0]);
            && Engaged(u, d, k)
            && SameFate(s, Alone(g, ctx, s, d, k, moves), u, Alone(g, ctx, u, d, k, moves[1..]), k.Key())
  {
    var m := moves[0];
    assert [m] + moves[1..] == moves;
    if !Own(m, d) {
      OthersKeep(g, ctx, s, m, d, k);
      OtherMove(g, ctx, s, Moved(g, ctx, s, m), d, k, moves);
    } else if m.Attempt? {
      OwnAttempt(g, ctx, s, d, k, m.a, moves[1..]);
    } else {
      OwnSleepEnds(g, ctx, s, m, d, k, moves[1..]);
    }
  }

  /** What a schedule leaves to `d`: its row, its sends and whether it has returned are those
      of its loop run alone. */
  ghost predicate AsAlone(g: Setting, ctx: Context, s: State, t: State, d: nat, k: Task, run: DriveResult) {
    && d in t.drivers && AgreeAt(run.rows, t.rows, k.Key())
    && t.sends[k.Key()] == s.sends[k.Key()] + |run.sent|
    && (t.drivers[d].phase.Finished? <==> run.done)
  }

  lemma {:induction false} ScheduledFrom(g: Setting, ctx: Context, s: State, moves: seq<Move>, t: State, d: nat,
                                         k: Task)
    requires Engaged(s, d, k) && IsRun(SchedulesAround(g, ctx, d, k), s, moves, t)
    ensures AsAlone(g, ctx, s, t, d, k, Alone(g, ctx, s, d, k, moves))
    decreases |moves|
  {
    if moves != [] {
      var u := Moved(g, ctx, s, moves[0]);
      MoveKeepsFate(g, ctx, s, moves, d, k);
      ScheduledFrom(g, ctx, u, moves[1..], t, d, k);
    }
  }

  /** Any schedule of loops for distinct recipients, with whatever else leaves their rows
      alone, gives each recipient what its loop run alone gives. */
  lemma ScheduledLoop(g: Setting, ctx: Context, s: State, moves: seq<Move>, t: State, d: nat, k: Task)
    requires Ready(s, d, k) && IsRun(SchedulesAround(g, ctx, d, k), s, moves, t)
    ensures AsAlone(g, ctx, s, t, d, k, Drive(ctx, g.cfg, k.j, k.r, s.rows, s.drivers[d].counters, AnswersOf(moves, d)))
  {
    ScheduledFrom(g, ctx, s, moves, t, d, k);
  }

  /** So in every such schedule a loop that has returned left its recipient's row settled, if
      the store answered it; and without a row only if no attempt of its reached the insert. */
  lemma ScheduledLoopSettles(g: Setting, ctx: Context, s: State, moves: seq<Move>, t: State, d: nat, k: Task)
    requires Ready(s, d, k) && IsRun(SchedulesAround(g, ctx, d, k), s, moves, t)
    requires forall a :: a in AnswersOf(moves, d) ==> a.StoreUp()
    ensures d in t.drivers && (t.drivers[d].phase.Finished? ==> Settled(t.rows, k.Key()))
    ensures var run := Drive(ctx, g.cfg, k.j, k.r, s.rows, s.drivers[d].counters, AnswersOf(moves, d));
            && |run.outcomes| <= |AnswersOf(moves, d)|
            && (k.Key() !in t.rows <==>
                  k.Key() !in s.rows
                  && forall i :: 0 <= i < |run.outcomes| ==>
                       PreInsertError(ctx, k.j, k.r, AnswersOf(moves, d)[i]).Some?)
  {
    var answers := AnswersOf(moves, d);
    ScheduledLoop(g, ctx, s, moves, t, d, k);
    var run := Drive(ctx, g.cfg, k.j, k.r, s.rows, s.drivers[d].counters, answers);
    if run.done {
      ReturnLeavesSettled(ctx, g.cfg, k.j, k.r, s.rows, s.drivers[d].counters, answers);
    }
    NoRowIff(ctx, g.cfg, k.j, k.r, s.rows, s.drivers[d].counters, answers);
    forall i | 0 <= i < |run.outcomes|
      ensures !ReachesInsert(ctx, k.j, k.r, answers[i]) <==> PreInsertError(ctx, k.j, k.r, answers[i]).Some?
    {
      assert answers[i] in answers;
    }
  }
}
