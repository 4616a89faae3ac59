/** The retry loops around one recipient and one group, and their dispatch
    (crates/consumer/src/delivery.rs).

    A loop runs against a finite list of answers, one entry per iteration.  It reports
    `done` when it returned; otherwise it was still running when the list ended.  Facts
    stated for every list are facts about every prefix of every run. */
module Delivery {
  import opened Common
  import opened Event
  import opened NotificationLog
  import opened RetryLoop
  import opened Processor
  import opened GroupSend

  // ── One recipient ─────────────────────────────────────────────────────────

  datatype DriveResult = DriveResult(rows: Table, sent: seq<EmailMessage>, outcomes: seq<Outcome>, done: bool)

  function WriteFailed(rows: Table, k: Key, message: string, exhausted: bool, now: Time, up: bool): Table {
    if up then AfterMarkFailed(rows, k, message, exhausted, now) else rows
  }

  function ShutdownMessage(o: Outcome): string {
    if o.Failure? && o.error.RateLimitedError? then "service shutdown during rate-limit backoff"
    else "service shutdown during retry backoff"
  }

  /** The row is recorded PENDING before the sleep, and FAILED if shutdown cuts it short. */
  function AfterBackoff(rows: Table, k: Key, message: string, o: Outcome, a: Answers): Table {
    var waiting := WriteFailed(rows, k, message, false, a.now, a.failUp);
    if a.shutdown then WriteFailed(waiting, k, ShutdownMessage(o), true, a.shutdownAt, a.shutdownUp) else waiting
  }

  function After(call: CallResult, rest: DriveResult): DriveResult {
    DriveResult(rest.rows, call.sent + rest.sent, [call.outcome] + rest.outcomes, rest.done)
  }

  /** The table after the loop's own write, if the arm it takes has one. */
  function AfterArm(rows: Table, k: Key, d: Decision, o: Outcome, a: Answers): Table {
    match d
    case GiveUp(m) => WriteFailed(rows, k, m, true, a.now, a.failUp)
    case Backoff(_, m, _) => AfterBackoff(rows, k, m, o, a)
    case _ => rows
  }

  predicate GoesOn(d: Decision, a: Answers) {
    d.Again? || (d.Backoff? && !a.shutdown)
  }

  lemma ArmAddsNoRow(rows: Table, k: Key, d: Decision, o: Outcome, a: Answers)
    ensures Evolves(rows, AfterArm(rows, k, d, o, a)) && AfterArm(rows, k, d, o, a).Keys == rows.Keys
  {
  }

  /** What `ProcessOneRecipient` does from counters `c` on. */
  function Drive(ctx: Context, cfg: Config, j: Job, r: Recipient, rows: Table, c: Counters,
                 answers: seq<Answers>): DriveResult
    decreases |answers|
  {
    if answers == [] then DriveResult(rows, [], [], false)
    else
      var a := answers[0];
      var call := RecipientCall(ctx, j, r, rows, a);
      var d := Decide(cfg, j.opts.retryPolicy, false, c, call.outcome);
      var next := AfterArm(call.rows, KeyOf(j, r), d, call.outcome, a);
      After(call, if GoesOn(d, a) then Drive(ctx, cfg, j, r, next, d.counters, answers[1..])
                  else DriveResult(next, [], [], true))
  }

  /** The failure arms both loops share, for the row they keep: give up, or record the
      failure and sleep, unless shutdown ends the sleep. */
  method OnFailure(cfg: Config, store: NotificationStore, policy: RetryPolicy, group: bool, k: Key, e: AppError,
                   c: Counters, a: Answers)
    returns (stop: bool, next: Counters)
    modifies store
    ensures var d := Decide(cfg, policy, group, c, Failure(e));
            && stop == !GoesOn(d, a) && !d.FallBack? && !d.Stop?
            && (!stop ==> next == d.counters)
            && store.rows == AfterArm(old(store.rows), k, d, Failure(e), a)
  {
    next := c;
    if !e.IsRetryable() || c.attempt >= cfg.maxRetries || policy == NoRetry {
      var _ := store.MarkFailed(k, e.message, true, a.now, a.failUp);
      return true, next;
    }
    if e.RateLimitedError? {
      next := next.(rlCount := next.rlCount + 1);
      if next.rlCount > cfg.maxRlWaits {
        var _ := store.MarkFailed(k, e.message, true, a.now, a.failUp);
        return true, next;
      }
    } else {
      next := Counters(next.attempt + 1, 0);
    }
    var _ := store.MarkFailed(k, e.message, false, a.now, a.failUp);
    if a.shutdown {
      var _ := store.MarkFailed(k, ShutdownMessage(Failure(e)), true, a.shutdownAt, a.shutdownUp);
    }
    return a.shutdown, next;
  }

  function Joined(sent: seq<EmailMessage>, outcomes: seq<Outcome>, rest: DriveResult): DriveResult {
    DriveResult(rest.rows, sent + rest.sent, outcomes + rest.outcomes, rest.done)
  }

  lemma JoinStep(soFar: seq<EmailMessage>, outcomes: seq<Outcome>, call: CallResult, next: DriveResult)
    ensures Joined(soFar, outcomes, After(call, next)) == Joined(soFar + call.sent, outcomes + [call.outcome], next)
  {
    assert soFar + (call.sent + next.sent) == (soFar + call.sent) + next.sent;
    assert outcomes + ([call.outcome] + next.outcomes) == (outcomes + [call.outcome]) + next.outcomes;
  }

  /** `drive` is the specification of the rest of the loop, kept as a value so that the
      loop itself is checked without looking into single attempts. */
  ghost predicate IsLoopSpec(ctx: Context, cfg: Config, j: Job, r: Recipient,
                             drive: (Table, Counters, seq<Answers>) -> DriveResult) {
    forall rows, c, s {:trigger Drive(ctx, cfg, j, r, rows, c, s)} ::
      drive(rows, c, s) == Drive(ctx, cfg, j, r, rows, c, s)
  }

  method ProcessOneRecipient(ctx: Context, cfg: Config, store: NotificationStore, sender: Sender, j: Job, r: Recipient,
                             answers: seq<Answers>)
    returns (done: bool, ghost outcomes: seq<Outcome>)
    modifies store, sender
    ensures var d := Drive(ctx, cfg, j, r, old(store.rows), Counters(0, 0), answers);
            store.rows == d.rows && sender.sent == old(sender.sent) + d.sent && outcomes == d.outcomes && done == d.done
  {
    done, outcomes := RecipientLoop(ctx, cfg, store, sender, j, r, answers,
                                    (rows, c, s) => Drive(ctx, cfg, j, r, rows, c, s));
  }

  method RecipientLoop(ctx: Context, cfg: Config, store: NotificationStore, sender: Sender, j: Job, r: Recipient,
                       answers: seq<Answers>, ghost drive: (Table, Counters, seq<Answers>) -> DriveResult)
    returns (done: bool, ghost outcomes: seq<Outcome>)
    requires IsLoopSpec(ctx, cfg, j, r, drive)
    modifies store, sender
    ensures var d := drive(old(store.rows), Counters(0, 0), answers);
            store.rows == d.rows && sender.sent == old(sender.sent) + d.sent && outcomes == d.outcomes && done == d.done
  {
    var c := Counters(0, 0);
    outcomes := [];
    ghost var soFar: seq<EmailMessage> := [];
    ghost var whole := drive(store.rows, c, answers);
    ghost var rest := whole;
    assert answers[0..] == answers;
    for i := 0 to |answers|
      invariant sender.sent == old(sender.sent) + soFar
      invariant rest == drive(store.rows, c, answers[i..])
      invariant whole == Joined(soFar, outcomes, rest)
    {
      assert answers[i..][1..] == answers[i + 1..];
      var running;
      ghost var call, next;
      running, c, call, next := RecipientIteration(ctx, cfg, store, sender, j, r, c, answers[i], answers[i..], drive);
      JoinStep(soFar, outcomes, call, next);
      soFar, outcomes, rest := soFar + call.sent, outcomes + [call.outcome], next;
      if !running {
        return true, outcomes;
      }
    }
    NoAnswersLeft(ctx, cfg, j, r, store.rows, c, drive);
    return false, outcomes;
  }

  lemma NoAnswersLeft(ctx: Context, cfg: Config, j: Job, r: Recipient, rows: Table, c: Counters,
                      drive: (Table, Counters, seq<Answers>) -> DriveResult)
    requires IsLoopSpec(ctx, cfg, j, r, drive)
    ensures drive(rows, c, []) == DriveResult(rows, [], [], false)
  {
    assert Drive(ctx, cfg, j, r, rows, c, []) == DriveResult(rows, [], [], false);
  }

  /** One iteration: `next` is what the rest of the loop will do. */
  method RecipientIteration(ctx: Context, cfg: Config, store: NotificationStore, sender: Sender, j: Job, r: Recipient,
                            c: Counters, a: Answers, ghost answers: seq<Answers>,
                            ghost drive: (Table, Counters, seq<Answers>) -> DriveResult)
    returns (running: bool, c': Counters, ghost call: CallResult, ghost next: DriveResult)
    requires answers != [] && answers[0] == a && IsLoopSpec(ctx, cfg, j, r, drive)
    modifies store, sender
    ensures sender.sent == old(sender.sent) + call.sent
    ensures drive(old(store.rows), c, answers) == After(call, next)
    ensures next == if running then drive(store.rows, c', answers[1..]) else DriveResult(store.rows, [], [], true)
  {
    ghost var whole := Drive(ctx, cfg, j, r, store.rows, c, answers);
    call := RecipientCall(ctx, j, r, store.rows, a);
    var outcome := ProcessRecipient(ctx, store, sender, j, r, a);
    running, c' := RecipientArm(cfg, store, j, r, c, outcome, a);
    next := if running then Drive(ctx, cfg, j, r, store.rows, c', answers[1..])
            else DriveResult(store.rows, [], [], true);
  }

  /** The arms of the loop's `match`. */
  method RecipientArm(cfg: Config, store: NotificationStore, j: Job, r: Recipient, c: Counters, outcome: Outcome,
                      a: Answers)
    returns (running: bool, c': Counters)
    modifies store
    ensures var d := Decide(cfg, j.opts.retryPolicy, false, c, outcome);
            && running == GoesOn(d, a)
            && (running ==> c' == d.counters)
            && store.rows == AfterArm(old(store.rows), KeyOf(j, r), d, outcome, a)
  {
    c' := c;
    match outcome {
      case StillPending(retryCount) =>
        return true, c.(attempt := retryCount);
      case GroupFailure(e) =>
        var _ := store.MarkFailed(KeyOf(j, r), e.message, true, a.now, a.failUp);
        return false, c;
      case Failure(e) =>
        var stop;
        stop, c' := OnFailure(cfg, store, j.opts.retryPolicy, false, KeyOf(j, r), e, c, a);
        return !stop, c';
      case _ =>
        return false, c;
    }
  }

  // ── What the loop guarantees ──────────────────────────────────────────────

  /** Every attempt gets past its pre-insert steps and the insert statement works. */
  predicate ReachesInsert(ctx: Context, j: Job, r: Recipient, a: Answers) {
    PreInsertError(ctx, j, r, a).None? && a.insertUp
  }

  /** If store writes succeed, the loop never returns with the row left PENDING; and it
      leaves no row at all only if every call failed before its insert. */
  lemma {:induction false} ReturnLeavesSettled(ctx: Context, cfg: Config, j: Job, r: Recipient, rows: Table,
                                               c: Counters, answers: seq<Answers>)
    requires forall a :: a in answers ==> a.StoreUp()
    requires Drive(ctx, cfg, j, r, rows, c, answers).done
    ensures Settled(Drive(ctx, cfg, j, r, rows, c, answers).rows, KeyOf(j, r))
    decreases |answers|
  {
    var a, k := answers[0], KeyOf(j, r);
    assert a in answers;
    var call := RecipientCall(ctx, j, r, rows, a);
    var d := Decide(cfg, j.opts.retryPolicy, false, c, call.outcome);
    if d.Again? || (d.Backoff? && !a.shutdown) {
      var next := if d.Again? then call.rows else AfterBackoff(call.rows, k, d.message, call.outcome, a);
      ReturnLeavesSettled(ctx, cfg, j, r, next, d.counters, answers[1..]);
    }
  }

  lemma ArmKeepsKeys(rows: Table, k: Key, d: Decision, o: Outcome, a: Answers)
    ensures AfterArm(rows, k, d, o, a).Keys == rows.Keys
  {
  }

  lemma CallCreatesRowIff(ctx: Context, j: Job, r: Recipient, rows: Table, a: Answers)
    ensures KeyOf(j, r) in RecipientCall(ctx, j, r, rows, a).rows <==>
              KeyOf(j, r) in rows || ReachesInsert(ctx, j, r, a)
  {
  }

  /** A recipient ends up without a row exactly if it had none and every attempt the loop made
      failed at or before its insert: so a permanent failure there leaves no row at all. */
  lemma {:induction false} NoRowIff(ctx: Context, cfg: Config, j: Job, r: Recipient, rows: Table, c: Counters,
                                    answers: seq<Answers>)
    ensures |Drive(ctx, cfg, j, r, rows, c, answers).outcomes| <= |answers|
    ensures var d := Drive(ctx, cfg, j, r, rows, c, answers);
            KeyOf(j, r) !in d.rows <==>
              KeyOf(j, r) !in rows && forall i :: 0 <= i < |d.outcomes| ==> !ReachesInsert(ctx, j, r, answers[i])
    decreases |answers|
  {
    if answers != [] {
      var a, k := answers[0], KeyOf(j, r);
      var call := RecipientCall(ctx, j, r, rows, a);
      var d := Decide(cfg, j.opts.retryPolicy, false, c, call.outcome);
      var next := AfterArm(call.rows, k, d, call.outcome, a);
      CallCreatesRowIff(ctx, j, r, rows, a);
      ArmKeepsKeys(call.rows, k, d, call.outcome, a);
      assert k in next.Keys <==> k in call.rows.Keys;
      if GoesOn(d, a) {
        NoRowIff(ctx, cfg, j, r, next, d.counters, answers[1..]);
        var n := |Drive(ctx, cfg, j, r, next, d.counters, answers[1..]).outcomes|;
        assert forall i :: 0 <= i < n ==> answers[1..][i] == answers[i + 1];
        if forall i :: 0 <= i < n + 1 ==> !ReachesInsert(ctx, j, r, answers[i]) {
          forall i | 0 <= i < n ensures !ReachesInsert(ctx, j, r, answers[1..][i]) {
            assert !ReachesInsert(ctx, j, r, answers[i + 1]);
          }
        }
        if k !in next && (forall i :: 0 <= i < n ==> !ReachesInsert(ctx, j, r, answers[1..][i])) {
          forall i | 0 <= i < n + 1 ensures !ReachesInsert(ctx, j, r, answers[i]) {
            assert i > 0 ==> answers[i] == answers[1..][i - 1];
          }
        }
      }
    }
  }

  /** Every row but `k`'s is the same in both tables. */
  ghost predicate SameElsewhere(t: Table, u: Table, k: Key) {
    forall o :: o != k ==> (o in u <==> o in t) && (o in t ==> u[o] == t[o])
  }

  /** One iteration of the loop: what it hears, and the rest of the loop. */
  lemma LoopStep(ctx: Context, cfg: Config, j: Job, r: Recipient, rows: Table, c: Counters, answers: seq<Answers>)
    returns (o: Outcome, next: Table, rest: DriveResult)
    requires answers != []
    ensures o == RecipientCall(ctx, j, r, rows, answers[0]).outcome
    ensures Drive(ctx, cfg, j, r, rows, c, answers) == After(RecipientCall(ctx, j, r, rows, answers[0]), rest)
    ensures var d := Decide(cfg, j.opts.retryPolicy, false, c, o);
            && next == AfterArm(RecipientCall(ctx, j, r, rows, answers[0]).rows, KeyOf(j, r), d, o, answers[0])
            && rest == if GoesOn(d, answers[0]) then Drive(ctx, cfg, j, r, next, d.counters, answers[1..])
                       else DriveResult(next, [], [], true)
  {
    var call := RecipientCall(ctx, j, r, rows, answers[0]);
    o := call.outcome;
    var d := Decide(cfg, j.opts.retryPolicy, false, c, o);
    next := AfterArm(call.rows, KeyOf(j, r), d, o, answers[0]);
    rest := if GoesOn(d, answers[0]) then Drive(ctx, cfg, j, r, next, d.counters, answers[1..])
            else DriveResult(next, [], [], true);
  }

  /** The loop writes its own row only, removes nothing and keeps replay columns. */
  lemma {:induction false} OnlyOwnRow(ctx: Context, cfg: Config, j: Job, r: Recipient, rows: Table, c: Counters,
                                      answers: seq<Answers>)
    ensures var d := Drive(ctx, cfg, j, r, rows, c, answers);
            Evolves(rows, d.rows) && SameElsewhere(rows, d.rows, KeyOf(j, r))
    decreases |answers|
  {
    if answers != [] {
      var o, next, rest := LoopStep(ctx, cfg, j, r, rows, c, answers);
      var d := Decide(cfg, j.opts.retryPolicy, false, c, o);
      CallTouchesOneRow(ctx, j, r, rows, answers[0]);
      ArmTouchesOneRow(rows, RecipientCall(ctx, j, r, rows, answers[0]).rows, KeyOf(j, r), d, o, answers[0]);
      if GoesOn(d, answers[0]) {
        OnlyOwnRow(ctx, cfg, j, r, next, d.counters, answers[1..]);
        EvolvesTransitive(rows, next, rest.rows);
      }
    }
  }

  lemma ArmTouchesOneRow(rows: Table, t: Table, k: Key, d: Decision, o: Outcome, a: Answers)
    requires Evolves(rows, t) && SameElsewhere(rows, t, k)
    ensures Evolves(rows, AfterArm(t, k, d, o, a)) && SameElsewhere(rows, AfterArm(t, k, d, o, a), k)
  {
    match d
    case GiveUp(m) => WriteTouchesOneRow(rows, t, k, m, true, a.now, a.failUp);
    case Backoff(_, m, _) =>
      WriteTouchesOneRow(rows, t, k, m, false, a.now, a.failUp);
      var waiting := WriteFailed(t, k, m, false, a.now, a.failUp);
      WriteTouchesOneRow(rows, waiting, k, ShutdownMessage(o), true, a.shutdownAt, a.shutdownUp);
    case _ =>
  }

  lemma WriteTouchesOneRow(rows: Table, t: Table, k: Key, message: string, exhausted: bool, now: Time, up: bool)
    requires Evolves(rows, t) && SameElsewhere(rows, t, k)
    ensures var u := WriteFailed(t, k, message, exhausted, now, up);
            Evolves(rows, u) && SameElsewhere(rows, u, k)
  {
  }

  /** Two tables with the same row, or no row, under `k`. */
  predicate AgreeAt(t: Table, u: Table, k: Key) {
    (k in t <==> k in u) && (k in t ==> t[k] == u[k])
  }

  lemma CallLooksOnlyAtOwnRow(ctx: Context, j: Job, r: Recipient, rows: Table, other: Table, a: Answers)
    requires AgreeAt(rows, other, KeyOf(j, r))
    ensures var x, y := RecipientCall(ctx, j, r, rows, a), RecipientCall(ctx, j, r, other, a);
            x.outcome == y.outcome && x.sent == y.sent && AgreeAt(x.rows, y.rows, KeyOf(j, r))
  {
  }

  /** The loop looks at no row but its own: what it does depends on no other recipient. */
  lemma {:induction false} LooksOnlyAtOwnRow(ctx: Context, cfg: Config, j: Job, r: Recipient, rows: Table, other: Table,
                                             c: Counters, answers: seq<Answers>)
    requires AgreeAt(rows, other, KeyOf(j, r))
    ensures var d, e := Drive(ctx, cfg, j, r, rows, c, answers), Drive(ctx, cfg, j, r, other, c, answers);
            d.sent == e.sent && d.outcomes == e.outcomes && d.done == e.done && AgreeAt(d.rows, e.rows, KeyOf(j, r))
    decreases |answers|
  {
    if answers != [] {
      CallLooksOnlyAtOwnRow(ctx, j, r, rows, other, answers[0]);
      var o, next, rest := LoopStep(ctx, cfg, j, r, rows, c, answers);
      var o', next', rest' := LoopStep(ctx, cfg, j, r, other, c, answers);
      var d := Decide(cfg, j.opts.retryPolicy, false, c, o);
      ArmLooksOnlyAtOwnRow(RecipientCall(ctx, j, r, rows, answers[0]).rows,
                           RecipientCall(ctx, j, r, other, answers[0]).rows, KeyOf(j, r), d, o, answers[0]);
      if GoesOn(d, answers[0]) {
        LooksOnlyAtOwnRow(ctx, cfg, j, r, next, next', d.counters, answers[1..]);
      }
    }
  }

  lemma ArmLooksOnlyAtOwnRow(rows: Table, other: Table, k: Key, d: Decision, o: Outcome, a: Answers)
    requires AgreeAt(rows, other, k)
    ensures AgreeAt(AfterArm(rows, k, d, o, a), AfterArm(other, k, d, o, a), k)
  {
  }

  /** Over a whole run of the loop at most one message is handed to the sender, and none
      if the recipient's row was already there. */
  lemma {:induction false} LoopSendsAtMostOnce(ctx: Context, cfg: Config, j: Job, r: Recipient, rows: Table,
                                               c: Counters, answers: seq<Answers>)
    ensures var d := Drive(ctx, cfg, j, r, rows, c, answers);
            |d.sent| <= 1 && (KeyOf(j, r) in rows ==> d.sent == [])
    decreases |answers|
  {
    if answers != [] {
      var a, k := answers[0], KeyOf(j, r);
      SendNeedsFreshRow(ctx, j, r, rows, a);
      var call := RecipientCall(ctx, j, r, rows, a);
      var d := Decide(cfg, j.opts.retryPolicy, false, c, call.outcome);
      if d.Again? {
        LoopSendsAtMostOnce(ctx, cfg, j, r, call.rows, d.counters, answers[1..]);
      } else if d.Backoff? {
        LoopSendsAtMostOnce(ctx, cfg, j, r, AfterBackoff(call.rows, k, d.message, call.outcome, a), d.counters,
                            answers[1..]);
      }
    }
  }

  /** The iterations follow the decision table, so the retry budget applies to them: the loop
      returns when the table says so, or because a shutdown ends its last sleep. */
  lemma {:induction false} LoopFollowsDecisions(ctx: Context, cfg: Config, j: Job, r: Recipient, rows: Table,
                                                c: Counters, answers: seq<Answers>)
    ensures var d := Drive(ctx, cfg, j, r, rows, c, answers);
            var t := Follow(cfg, j.opts.retryPolicy, false, c, d.outcomes);
            && t.calls == |d.outcomes| <= |answers|
            && (t.returned ==> d.done)
            && (d.done && !t.returned ==> |d.outcomes| > 0 && answers[|d.outcomes| - 1].shutdown)
            && (!d.done ==> |d.outcomes| == |answers|)
    decreases |answers|
  {
    if answers != [] {
      var o, next, rest := LoopStep(ctx, cfg, j, r, rows, c, answers);
      var d := Decide(cfg, j.opts.retryPolicy, false, c, o);
      if GoesOn(d, answers[0]) {
        LoopFollowsDecisions(ctx, cfg, j, r, next, d.counters, answers[1..]);
      }
      FollowStep(cfg, j.opts.retryPolicy, false, c, o, rest.outcomes);
    }
  }

  /** A loop that hears no `StillPending` returns within the budget of the decision table. */
  lemma LoopReturnsWithinBudget(ctx: Context, cfg: Config, j: Job, r: Recipient, rows: Table, answers: seq<Answers>)
    requires forall o :: o in Drive(ctx, cfg, j, r, rows, Counters(0, 0), answers).outcomes ==> !o.StillPending?
    requires |answers| > cfg.maxRetries * (cfg.maxRlWaits + 1)
    ensures var d := Drive(ctx, cfg, j, r, rows, Counters(0, 0), answers);
            d.done && |d.outcomes| <= cfg.maxRetries * (cfg.maxRlWaits + 1) + 1
  {
    LoopFollowsDecisions(ctx, cfg, j, r, rows, Counters(0, 0), answers);
    BudgetCaps(cfg, j.opts.retryPolicy, false, Drive(ctx, cfg, j, r, rows, Counters(0, 0), answers).outcomes);
  }

  /** Templates, rendering and serialisation never answer with a rate limit: only the mail
      sender does. */
  predicate OnlySenderLimits(a: Answers) {
    && (a.template.Some? ==> !a.template.value.RateLimitedError?)
    && (a.rendered.Err? ==> !a.rendered.error.RateLimitedError?)
    && (a.serialized.Some? ==> !a.serialized.value.RateLimitedError?)
  }

  lemma RateLimitNeedsFreshRow(ctx: Context, j: Job, r: Recipient, rows: Table, a: Answers)
    requires OnlySenderLimits(a)
    ensures var c := RecipientCall(ctx, j, r, rows, a);
            IsRateLimit(c.outcome) ==> KeyOf(j, r) !in rows && KeyOf(j, r) in c.rows
  {
  }

  /** A loop hears at most one rate limit, and none if the row was there: it sends at most
      once. */
  lemma {:induction false} LoopHearsOneRateLimit(ctx: Context, cfg: Config, j: Job, r: Recipient, rows: Table,
                                                 c: Counters, answers: seq<Answers>)
    requires forall a :: a in answers ==> OnlySenderLimits(a)
    ensures RateLimits(Drive(ctx, cfg, j, r, rows, c, answers).outcomes) <= if KeyOf(j, r) in rows then 0 else 1
    decreases |answers|
  {
    if answers != [] {
      var a, k := answers[0], KeyOf(j, r);
      assert a in answers;
      var call := RecipientCall(ctx, j, r, rows, a);
      var d := Decide(cfg, j.opts.retryPolicy, false, c, call.outcome);
      var next := AfterArm(call.rows, k, d, call.outcome, a);
      RateLimitNeedsFreshRow(ctx, j, r, rows, a);
      SendNeedsFreshRow(ctx, j, r, rows, a);
      ArmKeepsKeys(call.rows, k, d, call.outcome, a);
      assert k in next.Keys <==> k in call.rows.Keys;
      var os := Drive(ctx, cfg, j, r, rows, c, answers).outcomes;
      if GoesOn(d, a) {
        LoopHearsOneRateLimit(ctx, cfg, j, r, next, d.counters, answers[1..]);
        assert os[1..] == Drive(ctx, cfg, j, r, next, d.counters, answers[1..]).outcomes;
      } else {
        assert os == [call.outcome];
      }
    }
  }

  /** How often the loop can call: its retries, the first attempt, and one rate limit. */
  function ComposedBudget(cfg: Config): nat {
    RareBudget(cfg, Counters(0, 0), 1)
  }

  /** What a loop that hears no `StillPending` is bounded by: max_retries + 2 calls, one less
      if no rate-limit wait is allowed, and one call if no retry is. */
  lemma LoopReturnsWithinComposedBudget(ctx: Context, cfg: Config, j: Job, r: Recipient, rows: Table,
                                        answers: seq<Answers>)
    requires forall a :: a in answers ==> OnlySenderLimits(a)
    requires forall o :: o in Drive(ctx, cfg, j, r, rows, Counters(0, 0), answers).outcomes ==> !o.StillPending?
    ensures ComposedBudget(cfg) ==
            if cfg.maxRetries == 0 then 1
            else if cfg.maxRlWaits == 0 then cfg.maxRetries + 1
            else cfg.maxRetries + 2
    ensures var d := Drive(ctx, cfg, j, r, rows, Counters(0, 0), answers);
            && |d.outcomes| <= ComposedBudget(cfg)
            && (|answers| >= ComposedBudget(cfg) ==> d.done)
  {
    LoopFollowsDecisions(ctx, cfg, j, r, rows, Counters(0, 0), answers);
    LoopHearsOneRateLimit(ctx, cfg, j, r, rows, Counters(0, 0), answers);
    ReturnsWithinRareBudget(cfg, j.opts.retryPolicy, false, Counters(0, 0),
                            Drive(ctx, cfg, j, r, rows, Counters(0, 0), answers).outcomes, 1);
  }

  const DATABASE_GONE := DatabaseError("database unavailable")

  /** Template lookup fails for want of the database. */
  const EARLY_FAILURE := Answers(Some(DATABASE_GONE), Err(DATABASE_GONE), None, false, Ok(()), true, Ok(()),
                                 true, true, false, true, 0, 0)

  /** Everything works but the mail sender, which is rate-limited. */
  const LIMITED_SEND := Answers(None, Ok(Rendered("", "", "")), None, true, Ok(()), true, Err(RateLimitedError("429")),
                                true, true, false, true, 0, 0)

  lemma {:induction false} EarlyFailuresSpendRetries(ctx: Context, cfg: Config, j: Job, r: Recipient, rows: Table,
                                                     c: Counters)
    requires ctx.validEmail(r.email) && j.opts.retryPolicy.Retry? && c.attempt <= cfg.maxRetries
    ensures var n := cfg.maxRetries - c.attempt + 1;
            var d := Drive(ctx, cfg, j, r, rows, c, seq(n, _ => EARLY_FAILURE));
            d.done && |d.outcomes| == n && forall o :: o in d.outcomes ==> o.Failure?
    decreases cfg.maxRetries - c.attempt
  {
    var n := cfg.maxRetries - c.attempt + 1;
    var answers := seq(n, _ => EARLY_FAILURE);
    var call := RecipientCall(ctx, j, r, rows, answers[0]);
    var d := Decide(cfg, j.opts.retryPolicy, false, c, call.outcome);
    assert call == CallResult(rows, Failure(DATABASE_GONE), []);
    if c.attempt < cfg.maxRetries {
      assert d.Backoff? && d.counters == Counters(c.attempt + 1, 0);
      assert answers[1..] == seq(n - 1, _ => EARLY_FAILURE);
      EarlyFailuresSpendRetries(ctx, cfg, j, r, AfterArm(rows, KeyOf(j, r), d, call.outcome, answers[0]), d.counters);
    }
  }

  /** The loop hears neither shutdown nor a rate limit from anyone but the sender, its failure
      marks are applied, and it uses its whole budget for failing calls. */
  ghost predicate SpendsAll(ctx: Context, cfg: Config, j: Job, r: Recipient, rows: Table, answers: seq<Answers>) {
    && (forall a :: a in answers ==> !a.shutdown && a.failUp && OnlySenderLimits(a))
    && var d := Drive(ctx, cfg, j, r, rows, Counters(0, 0), answers);
       d.done && |d.outcomes| == ComposedBudget(cfg) && forall o :: o in d.outcomes ==> o.Failure?
  }

  lemma LimitedSend(ctx: Context, j: Job, r: Recipient, rows: Table)
    requires KeyOf(j, r) !in rows
    requires ctx.validEmail(r.email) && BlockReason(ctx.filter.Check(r.email)).None?
    requires j.opts.fromOverride.Some? ==> ctx.validEmail(j.opts.fromOverride.value.email)
    ensures LimitedCall(ctx, j, r, rows)
  {
  }

  predicate LimitedCall(ctx: Context, j: Job, r: Recipient, rows: Table) {
    RecipientCall(ctx, j, r, rows, LIMITED_SEND).outcome == Failure(RateLimitedError("429"))
  }

  lemma AfterLimitedCall(ctx: Context, cfg: Config, j: Job, r: Recipient, rows: Table, rest: seq<Answers>)
    returns (call: CallResult, next: Table)
    requires LimitedCall(ctx, j, r, rows) && j.opts.retryPolicy.Retry? && cfg.maxRetries > 0 && cfg.maxRlWaits > 0
    ensures IsRateLimit(call.outcome)
    ensures Drive(ctx, cfg, j, r, rows, Counters(0, 0), [LIMITED_SEND] + rest) ==
            After(call, Drive(ctx, cfg, j, r, next, Counters(0, 1), rest))
  {
    call := RecipientCall(ctx, j, r, rows, LIMITED_SEND);
    var d := Decide(cfg, j.opts.retryPolicy, false, Counters(0, 0), call.outcome);
    assert d.Backoff? && d.counters == Counters(0, 1);
    assert ([LIMITED_SEND] + rest)[1..] == rest;
    next := AfterArm(call.rows, KeyOf(j, r), d, call.outcome, LIMITED_SEND);
  }

  lemma LimitedThenEarly(ctx: Context, cfg: Config, j: Job, r: Recipient, rows: Table, rest: seq<Answers>)
    requires LimitedCall(ctx, j, r, rows)
    requires ctx.validEmail(r.email) && j.opts.retryPolicy.Retry? && cfg.maxRetries > 0 && cfg.maxRlWaits > 0
    requires rest == seq(cfg.maxRetries + 1, _ => EARLY_FAILURE)
    ensures SpendsAll(ctx, cfg, j, r, rows, [LIMITED_SEND] + rest)
  {
    var call, next := AfterLimitedCall(ctx, cfg, j, r, rows, rest);
    EarlyFailuresSpendRetries(ctx, cfg, j, r, next, Counters(0, 1));
    FairAnswers(rest);
  }

  lemma FairAnswers(rest: seq<Answers>)
    requires forall a :: a in rest ==> a == EARLY_FAILURE
    ensures forall a :: a in [LIMITED_SEND] + rest ==> !a.shutdown && a.failUp && OnlySenderLimits(a)
  {
  }

  /** That bound is reached, whatever the configuration: a rate-limited send, then the
      database away through all retries. */
  lemma ComposedBudgetIsReached(ctx: Context, cfg: Config, j: Job, r: Recipient, rows: Table)
    requires KeyOf(j, r) !in rows && j.opts.retryPolicy.Retry?
    requires ctx.validEmail(r.email) && BlockReason(ctx.filter.Check(r.email)).None?
    requires j.opts.fromOverride.Some? ==> ctx.validEmail(j.opts.fromOverride.value.email)
    ensures exists answers :: SpendsAll(ctx, cfg, j, r, rows, answers)
  {
    var rest := seq(cfg.maxRetries + 1, _ => EARLY_FAILURE);
    if cfg.maxRetries == 0 || cfg.maxRlWaits == 0 {
      EarlyAlone(ctx, cfg, j, r, rows, rest);
    } else {
      LimitedSend(ctx, j, r, rows);
      LimitedThenEarly(ctx, cfg, j, r, rows, rest);
    }
  }

  lemma EarlyAlone(ctx: Context, cfg: Config, j: Job, r: Recipient, rows: Table, rest: seq<Answers>)
    requires ctx.validEmail(r.email) && j.opts.retryPolicy.Retry? && (cfg.maxRetries == 0 || cfg.maxRlWaits == 0)
    requires rest == seq(cfg.maxRetries + 1, _ => EARLY_FAILURE)
    ensures SpendsAll(ctx, cfg, j, r, rows, rest)
  {
    EarlyFailuresSpendRetries(ctx, cfg, j, r, rows, Counters(0, 0));
  }

  // ── Once the row exists ───────────────────────────────────────────────────

  /** While a row that is not terminal exists, an environment in which every attempt
      reaches its insert keeps the loop spinning: for any number of iterations each one
      answers `StillPending`, sends nothing and changes nothing. */
  lemma {:induction false} SpinsOnExistingRow(ctx: Context, cfg: Config, j: Job, r: Recipient, rows: Table, c: Counters,
                                              answers: seq<Answers>)
    requires KeyOf(j, r) in rows
    requires var s := rows[KeyOf(j, r)].status; s.Pending? || s.Failed? || s.Skipped?
    requires forall a :: a in answers ==> ReachesInsert(ctx, j, r, a)
    ensures var d := Drive(ctx, cfg, j, r, rows, c, answers);
            && d.rows == rows && d.sent == [] && !d.done && |d.outcomes| == |answers|
            && forall o :: o in d.outcomes ==> o == StillPending(rows[KeyOf(j, r)].retryCount)
    decreases |answers|
  {
    if answers != [] {
      assert answers[0] in answers;
      SpinsOnExistingRow(ctx, cfg, j, r, rows, c.(attempt := rows[KeyOf(j, r)].retryCount), answers[1..]);
    }
  }

  /** From the attempt that creates the row on, when every attempt reaches its insert and
      nobody else writes the row: the loop returns exactly if that attempt ended delivered,
      refused, or in a failure the loop gives up on.  Otherwise it was the only one that sent
      anything, and the row stays PENDING through every later iteration. */
  lemma ReturnsIffCreatingAttemptIsFinal(ctx: Context, cfg: Config, j: Job, r: Recipient, rows: Table, c: Counters,
                                         answers: seq<Answers>)
    requires answers != [] && KeyOf(j, r) !in rows
    requires forall a :: a in answers ==> ReachesInsert(ctx, j, r, a) && !a.shutdown
    ensures EndsWithCreation(ctx, cfg, j, r, rows, c, answers[0], Drive(ctx, cfg, j, r, rows, c, answers))
    ensures !Drive(ctx, cfg, j, r, rows, c, answers).done ==>
              |Drive(ctx, cfg, j, r, rows, c, answers).outcomes| == |answers|
  {
    var a, k := answers[0], KeyOf(j, r);
    assert a in answers;
    var first := RecipientCall(ctx, j, r, rows, a);
    var decision := Decide(cfg, j.opts.retryPolicy, false, c, first.outcome);
    if decision.Backoff? {
      var waiting := WriteFailed(first.rows, k, decision.message, false, a.now, a.failUp);
      SpinsOnExistingRow(ctx, cfg, j, r, waiting, decision.counters, answers[1..]);
      var rest := Drive(ctx, cfg, j, r, waiting, decision.counters, answers[1..]);
      assert first.sent + rest.sent == first.sent;
    }
  }

  /** `d` is how a loop ends whose attempt with answers `a`, at counters `c`, creates the row. */
  ghost predicate EndsWithCreation(ctx: Context, cfg: Config, j: Job, r: Recipient, rows: Table, c: Counters,
                                   a: Answers, d: DriveResult) {
    var first := RecipientCall(ctx, j, r, rows, a);
    var decision := Decide(cfg, j.opts.retryPolicy, false, c, first.outcome);
    && d.sent == first.sent
    && (d.done <==> decision.Stop? || decision.GiveUp?)
    && (!d.done ==> decision.Backoff?
                    && d.rows == WriteFailed(first.rows, KeyOf(j, r), decision.message, false, a.now, a.failUp)
                    && KeyOf(j, r) in d.rows && d.rows[KeyOf(j, r)].status.Pending?)
  }

  /** The outcomes of attempts that fail at or before their insert. */
  function EarlyOutcomes(ctx: Context, j: Job, r: Recipient, answers: seq<Answers>): seq<Outcome> {
    seq(|answers|, i requires 0 <= i < |answers| => EarlyOutcome(ctx, j, r, answers[i]))
  }

  function EarlyOutcome(ctx: Context, j: Job, r: Recipient, a: Answers): Outcome {
    var e := PreInsertError(ctx, j, r, a);
    Failure(if e.Some? then e.value else DATABASE_GONE)
  }

  lemma EarlyStep(ctx: Context, cfg: Config, j: Job, r: Recipient, rows: Table, c: Counters, answers: seq<Answers>)
    requires KeyOf(j, r) !in rows && answers != [] && !ReachesInsert(ctx, j, r, answers[0]) && !answers[0].shutdown
    ensures var call := CallResult(rows, EarlyOutcome(ctx, j, r, answers[0]), []);
            var d := Decide(cfg, j.opts.retryPolicy, false, c, call.outcome);
            && (d.Backoff? || d.GiveUp?)
            && Drive(ctx, cfg, j, r, rows, c, answers)
               == After(call, if d.Backoff? then Drive(ctx, cfg, j, r, rows, d.counters, answers[1..])
                              else DriveResult(rows, [], [], true))
  {
    var a := answers[0];
    var o := EarlyOutcome(ctx, j, r, a);
    assert RecipientCall(ctx, j, r, rows, a) == CallResult(rows, o, []);
    assert AfterArm(rows, KeyOf(j, r), Decide(cfg, j.opts.retryPolicy, false, c, o), o, a) == rows;
  }

  /** Attempts that fail at or before their insert change nothing but the counters: they end
      the loop without a row, or hand on to the rest of it. */
  lemma {:induction false} EarlyFailuresOnlyCount(ctx: Context, cfg: Config, j: Job, r: Recipient, rows: Table,
                                                  c: Counters, early: seq<Answers>, rest: seq<Answers>)
    requires KeyOf(j, r) !in rows
    requires forall a :: a in early ==> !ReachesInsert(ctx, j, r, a) && !a.shutdown
    ensures var d := Drive(ctx, cfg, j, r, rows, c, early + rest);
            match Reached(cfg, j.opts.retryPolicy, false, c, EarlyOutcomes(ctx, j, r, early))
            case None => d.done && d.rows == rows && d.sent == [] && |d.outcomes| <= |early|
            case Some(reached) => d == Joined([], EarlyOutcomes(ctx, j, r, early),
                                              Drive(ctx, cfg, j, r, rows, reached, rest))
    decreases |early|
  {
    if early == [] {
      assert early + rest == rest;
      assert EarlyOutcomes(ctx, j, r, early) == [];
    } else {
      assert early[0] in early && (early + rest)[1..] == early[1..] + rest;
      var os := EarlyOutcomes(ctx, j, r, early);
      assert os[1..] == EarlyOutcomes(ctx, j, r, early[1..]);
      EarlyStep(ctx, cfg, j, r, rows, c, early + rest);
      var d := Decide(cfg, j.opts.retryPolicy, false, c, os[0]);
      if d.Backoff? {
        EarlyFailuresOnlyCount(ctx, cfg, j, r, rows, d.counters, early[1..], rest);
        JoinStepFront(rows, os, Drive(ctx, cfg, j, r, rows, d.counters, early[1..] + rest));
      }
    }
  }

  lemma JoinStepFront(rows: Table, os: seq<Outcome>, whole: DriveResult)
    requires os != []
    ensures forall rest :: whole == Joined([], os[1..], rest) ==>
              After(CallResult(rows, os[0], []), whole) == Joined([], os, rest)
  {
    forall rest | whole == Joined([], os[1..], rest)
      ensures After(CallResult(rows, os[0], []), whole) == Joined([], os, rest)
    {
      assert [os[0]] + (os[1..] + rest.outcomes) == os + rest.outcomes;
    }
  }

  /** The whole loop, with any number of failures before the row: it returns if it gives up on
      one of those, or exactly if the attempt that creates the row is final in the sense above,
      at the counters reached by then. */
  lemma ReturnsIffRowCreationIsFinal(ctx: Context, cfg: Config, j: Job, r: Recipient, rows: Table, c: Counters,
                                     early: seq<Answers>, rest: seq<Answers>)
    requires KeyOf(j, r) !in rows && rest != []
    requires forall a :: a in early ==> !ReachesInsert(ctx, j, r, a) && !a.shutdown
    requires forall a :: a in rest ==> ReachesInsert(ctx, j, r, a) && !a.shutdown
    ensures var d := Drive(ctx, cfg, j, r, rows, c, early + rest);
            match Reached(cfg, j.opts.retryPolicy, false, c, EarlyOutcomes(ctx, j, r, early))
            case None => d.done && d.rows == rows && d.sent == []
            case Some(reached) => EndsWithCreation(ctx, cfg, j, r, rows, reached, rest[0], d)
  {
    EarlyFailuresOnlyCount(ctx, cfg, j, r, rows, c, early, rest);
    var reached := Reached(cfg, j.opts.retryPolicy, false, c, EarlyOutcomes(ctx, j, r, early));
    if reached.Some? {
      ReturnsIffCreatingAttemptIsFinal(ctx, cfg, j, r, rows, reached.value, rest);
      var d := Drive(ctx, cfg, j, r, rows, reached.value, rest);
      assert [] + d.sent == d.sent;
    }
  }

  /** The message carries this job's content and goes to recipients of the event only. */
  ghost predicate MadeFor(j: Job, m: EmailMessage) {
    && m.event == j.event.id && m.fromOverride == j.opts.fromOverride && m.attachments == j.attachments
    && m.cc == j.ccBcc.cc && m.bcc == j.ccBcc.bcc
    && forall r :: r in m.To() ==> r in j.opts.recipients
  }

  /** The new entries of the sender's log are messages of this job. */
  ghost predicate SentFor(j: Job, before: seq<EmailMessage>, after: seq<EmailMessage>) {
    before <= after && forall i :: |before| <= i < |after| ==> MadeFor(j, after[i])
  }

  lemma {:induction false} LoopMessages(ctx: Context, cfg: Config, j: Job, r: Recipient, rows: Table, c: Counters,
                                        answers: seq<Answers>)
    requires r in j.opts.recipients
    ensures forall m :: m in Drive(ctx, cfg, j, r, rows, c, answers).sent ==> MadeFor(j, m)
    decreases |answers|
  {
    if answers != [] {
      var a := answers[0];
      var call := RecipientCall(ctx, j, r, rows, a);
      var d := Decide(cfg, j.opts.retryPolicy, false, c, call.outcome);
      var next := AfterArm(call.rows, KeyOf(j, r), d, call.outcome, a);
      assert Recipient(r.email, r.name) == r;
      if GoesOn(d, a) {
        LoopMessages(ctx, cfg, j, r, next, d.counters, answers[1..]);
      }
    }
  }

  // ── All recipients of an event ────────────────────────────────────────────

  /** What task `m` does on a table. */
  type Tasks = (nat, Table) -> DriveResult

  /** Tables, messages and end of several tasks together. */
  datatype Ran = Ran(rows: Table, sent: seq<EmailMessage>, ended: bool)

  /** The first `n` tasks in turn.  A task that `panicked` ends where its answers do. */
  function RunAll(tasks: Tasks, n: nat, rows: Table, panicked: nat -> bool): Ran {
    if n == 0 then Ran(rows, [], true)
    else
      var before := RunAll(tasks, n - 1, rows, panicked);
      var last := tasks(n - 1, before.rows);
      Ran(last.rows, before.sent + last.sent, before.ended && (panicked(n - 1) || last.done))
  }

  /** The loop of recipient `m`, unless it is skipped. */
  function TaskOf(ctx: Context, cfg: Config, j: Job, skip: set<Email>, answers: seq<seq<Answers>>, m: nat,
                  rows: Table): DriveResult
    requires |answers| == |j.opts.recipients|
  {
    if m >= |answers| || j.opts.recipients[m].email in skip then DriveResult(rows, [], [], true)
    else Drive(ctx, cfg, j, j.opts.recipients[m], rows, Counters(0, 0), answers[m])
  }

  function TasksOf(ctx: Context, cfg: Config, j: Job, skip: set<Email>, answers: seq<seq<Answers>>): Tasks
    requires |answers| == |j.opts.recipients|
  {
    (m: nat, rows: Table) => TaskOf(ctx, cfg, j, skip, answers, m, rows)
  }

  /** All of them. */
  function RunTasks(ctx: Context, cfg: Config, j: Job, skip: set<Email>, rows: Table, answers: seq<seq<Answers>>,
                    panicked: nat -> bool): Ran
    requires |answers| == |j.opts.recipients|
  {
    RunAll(TasksOf(ctx, cfg, j, skip, answers), |answers|, rows, panicked)
  }

  lemma {:induction false} AllEvolve(tasks: Tasks, n: nat, rows: Table, panicked: nat -> bool)
    requires forall m, t :: Evolves(t, tasks(m, t).rows)
    ensures Evolves(rows, RunAll(tasks, n, rows, panicked).rows)
  {
    if n > 0 {
      AllEvolve(tasks, n - 1, rows, panicked);
      var before := RunAll(tasks, n - 1, rows, panicked).rows;
      EvolvesTransitive(rows, before, tasks(n - 1, before).rows);
    }
  }

  /** A property of table and messages that every task keeps. */
  lemma {:induction false} AllKeep(tasks: Tasks, n: nat, rows: Table, panicked: nat -> bool,
                                   kept: (Table, seq<EmailMessage>) -> bool)
    requires kept(rows, [])
    requires forall m: nat, t, sent :: m < n && kept(t, sent) ==> kept(tasks(m, t).rows, sent + tasks(m, t).sent)
    ensures var ran := RunAll(tasks, n, rows, panicked); kept(ran.rows, ran.sent)
  {
    if n > 0 {
      AllKeep(tasks, n - 1, rows, panicked, kept);
      var before := RunAll(tasks, n - 1, rows, panicked);
      assert kept(before.rows, before.sent);
    }
  }

  /** Task `m` writes the row of its own key only, and looks at no other. */
  ghost predicate LocalTask(tasks: Tasks, m: nat, k: Key) {
    && (forall t :: SameElsewhere(t, tasks(m, t).rows, k))
    && (forall t, u :: AgreeAt(t, u, k) ==> SameAt(tasks(m, t), tasks(m, u), k))
  }

  /** The same row under `k`, messages and end. */
  predicate SameAt(d: DriveResult, e: DriveResult, k: Key) {
    AgreeAt(d.rows, e.rows, k) && d.sent == e.sent && d.done == e.done
  }

  /** The messages of the tasks, each by itself on the first table. */
  function SentAlone(tasks: Tasks, n: nat, rows: Table): seq<EmailMessage> {
    if n == 0 then [] else SentAlone(tasks, n - 1, rows) + tasks(n - 1, rows).sent
  }

  /** Each key has the row its own task alone would give it, and every other key the row it had. */
  ghost predicate RowsAsAlone(tasks: Tasks, n: nat, keys: nat -> Key, rows: Table, after: Table) {
    && (forall m: nat :: m < n ==> AgreeAt(tasks(m, rows).rows, after, keys(m)))
    && (forall k :: NobodysKey(n, keys, k) ==> AgreeAt(rows, after, k))
  }

  ghost predicate NobodysKey(n: nat, keys: nat -> Key, k: Key) {
    forall m: nat :: m < n ==> keys(m) != k
  }

  ghost predicate AloneEnded(tasks: Tasks, n: nat, rows: Table, panicked: nat -> bool) {
    forall m: nat :: m < n ==> panicked(m) || tasks(m, rows).done
  }

  /** Rows, messages and end are those of the tasks alone. */
  ghost predicate AsEachAlone(tasks: Tasks, n: nat, keys: nat -> Key, rows: Table, ran: Ran, panicked: nat -> bool) {
    && RowsAsAlone(tasks, n, keys, rows, ran.rows)
    && ran.sent == SentAlone(tasks, n, rows)
    && (ran.ended <==> AloneEnded(tasks, n, rows, panicked))
  }

  /** What task `n` must do, on any table the earlier ones leave. */
  ghost predicate Fits(tasks: Tasks, n: nat, keys: nat -> Key, rows: Table, before: Table) {
    RowsAsAlone(tasks, n, keys, rows, before) ==>
      RowsAsAlone(tasks, n + 1, keys, rows, tasks(n, before).rows) && SameAt(tasks(n, rows), tasks(n, before), keys(n))
  }

  lemma LocalTaskFits(tasks: Tasks, n: nat, keys: nat -> Key, rows: Table, before: Table)
    requires LocalTask(tasks, n, keys(n)) && forall m: nat :: m < n ==> keys(m) != keys(n)
    ensures Fits(tasks, n, keys, rows, before)
  {
    if RowsAsAlone(tasks, n, keys, rows, before) {
      var after := tasks(n, before).rows;
      assert NobodysKey(n, keys, keys(n));
      assert SameAt(tasks(n, rows), tasks(n, before), keys(n));
      assert SameElsewhere(before, after, keys(n));
      forall m: nat | m < n + 1 ensures AgreeAt(tasks(m, rows).rows, after, keys(m)) {
        assert m < n ==> keys(m) != keys(n);
      }
      forall k | NobodysKey(n + 1, keys, k) ensures AgreeAt(rows, after, k) {
        assert NobodysKey(n, keys, k) && k != keys(n);
      }
    }
  }

  lemma OneMoreEnded(tasks: Tasks, n: nat, rows: Table, panicked: nat -> bool)
    ensures AloneEnded(tasks, n + 1, rows, panicked) <==>
              AloneEnded(tasks, n, rows, panicked) && (panicked(n) || tasks(n, rows).done)
  {
  }

  lemma {:induction false} LocalTasks(tasks: Tasks, n: nat, keys: nat -> Key, rows: Table, panicked: nat -> bool)
    requires forall m: nat, t :: m < n ==> Fits(tasks, m, keys, rows, t)
    ensures AsEachAlone(tasks, n, keys, rows, RunAll(tasks, n, rows, panicked), panicked)
  {
    if n > 0 {
      LocalTasks(tasks, n - 1, keys, rows, panicked);
      assert Fits(tasks, n - 1, keys, rows, RunAll(tasks, n - 1, rows, panicked).rows);
      OneMoreEnded(tasks, n - 1, rows, panicked);
    }
  }

  /** Tasks that leave the table as it is end as they would alone. */
  lemma {:induction false} QuietTasks(tasks: Tasks, n: nat, rows: Table, panicked: nat -> bool)
    requires forall m: nat :: m < n ==> tasks(m, rows).rows == rows
    ensures RunAll(tasks, n, rows, panicked).rows == rows
    ensures RunAll(tasks, n, rows, panicked).ended <==> AloneEnded(tasks, n, rows, panicked)
  {
    if n > 0 {
      QuietTasks(tasks, n - 1, rows, panicked);
      OneMoreEnded(tasks, n - 1, rows, panicked);
    }
  }

  lemma {:induction false} FewMessages(tasks: Tasks, n: nat, rows: Table, panicked: nat -> bool)
    requires forall m: nat, t :: m < n ==> |tasks(m, t).sent| <= 1
    ensures |RunAll(tasks, n, rows, panicked).sent| <= n
  {
    if n > 0 {
      FewMessages(tasks, n - 1, rows, panicked);
    }
  }

  function KeysOf(j: Job): nat -> Key {
    (m: nat) => if m < |j.opts.recipients| then KeyOf(j, j.opts.recipients[m]) else Key(j.event.id, "")
  }

  lemma TaskIsLocal(ctx: Context, cfg: Config, j: Job, skip: set<Email>, answers: seq<seq<Answers>>, m: nat, t: Table,
                    u: Table)
    requires m < |answers| == |j.opts.recipients|
    ensures SameElsewhere(t, TaskOf(ctx, cfg, j, skip, answers, m, t).rows, KeysOf(j)(m))
    ensures Evolves(t, TaskOf(ctx, cfg, j, skip, answers, m, t).rows)
    ensures AgreeAt(t, u, KeysOf(j)(m)) ==>
              SameAt(TaskOf(ctx, cfg, j, skip, answers, m, t), TaskOf(ctx, cfg, j, skip, answers, m, u), KeysOf(j)(m))
  {
    var r := j.opts.recipients[m];
    OnlyOwnRow(ctx, cfg, j, r, t, Counters(0, 0), answers[m]);
    if AgreeAt(t, u, KeyOf(j, r)) {
      LooksOnlyAtOwnRow(ctx, cfg, j, r, t, u, Counters(0, 0), answers[m]);
    }
  }

  lemma TasksFit(ctx: Context, cfg: Config, j: Job, skip: set<Email>, answers: seq<seq<Answers>>, m: nat, rows: Table,
                 before: Table)
    requires m < |answers| == |j.opts.recipients| && DistinctAddresses(j.opts.recipients)
    ensures Fits(TasksOf(ctx, cfg, j, skip, answers), m, KeysOf(j), rows, before)
  {
    TasksAreLocal(ctx, cfg, j, skip, answers, m);
    LocalTaskFits(TasksOf(ctx, cfg, j, skip, answers), m, KeysOf(j), rows, before);
  }

  lemma TasksAreLocal(ctx: Context, cfg: Config, j: Job, skip: set<Email>, answers: seq<seq<Answers>>, m: nat)
    requires m < |answers| == |j.opts.recipients|
    ensures LocalTask(TasksOf(ctx, cfg, j, skip, answers), m, KeysOf(j)(m))
  {
    var tasks, k := TasksOf(ctx, cfg, j, skip, answers), KeysOf(j)(m);
    forall t: Table ensures SameElsewhere(t, tasks(m, t).rows, k) {
      TaskIsLocal(ctx, cfg, j, skip, answers, m, t, t);
    }
    forall t: Table, u: Table | AgreeAt(t, u, k) ensures SameAt(tasks(m, t), tasks(m, u), k) {
      TaskIsLocal(ctx, cfg, j, skip, answers, m, t, u);
    }
  }

  /** Tasks of distinct recipients do not depend on one another: in whatever order, each leaves
      its row and sends its messages as it would alone, and ends if it would alone. */
  lemma TasksAreIndependent(ctx: Context, cfg: Config, j: Job, skip: set<Email>, rows: Table,
                            answers: seq<seq<Answers>>, panicked: nat -> bool)
    requires |j.opts.recipients| == |answers| && DistinctAddresses(j.opts.recipients)
    ensures AsEachAlone(TasksOf(ctx, cfg, j, skip, answers), |answers|, KeysOf(j), rows,
                        RunTasks(ctx, cfg, j, skip, rows, answers, panicked), panicked)
  {
    var tasks := TasksOf(ctx, cfg, j, skip, answers);
    forall m: nat, t: Table | m < |answers| ensures Fits(tasks, m, KeysOf(j), rows, t) {
      TasksFit(ctx, cfg, j, skip, answers, m, rows, t);
    }
    LocalTasks(tasks, |answers|, KeysOf(j), rows, panicked);
  }

  /** Where every recipient has a row the tasks add none and send nothing. */
  lemma TasksKeep(ctx: Context, cfg: Config, j: Job, skip: set<Email>, rows: Table, answers: seq<seq<Answers>>,
                  panicked: nat -> bool)
    requires |j.opts.recipients| == |answers|
    ensures var ran := RunTasks(ctx, cfg, j, skip, rows, answers, panicked);
            Evolves(rows, ran.rows) && (AllPresent(j, rows) ==> ran.rows.Keys == rows.Keys && ran.sent == [])
  {
    var tasks := TasksOf(ctx, cfg, j, skip, answers);
    forall m: nat, t: Table ensures Evolves(t, tasks(m, t).rows) {
      if m < |answers| {
        TaskIsLocal(ctx, cfg, j, skip, answers, m, t, t);
      }
    }
    AllEvolve(tasks, |answers|, rows, panicked);
    if AllPresent(j, rows) {
      var kept := (t: Table, sent: seq<EmailMessage>) => t.Keys == rows.Keys && sent == [];
      forall m: nat, t: Table, sent: seq<EmailMessage> | m < |answers| && kept(t, sent)
        ensures kept(tasks(m, t).rows, sent + tasks(m, t).sent)
      {
        TaskOnRow(ctx, cfg, j, skip, answers, m, t);
      }
      AllKeep(tasks, |answers|, rows, panicked, kept);
    }
  }

  lemma TaskOnRow(ctx: Context, cfg: Config, j: Job, skip: set<Email>, answers: seq<seq<Answers>>, m: nat, t: Table)
    requires m < |answers| == |j.opts.recipients| && KeyOf(j, j.opts.recipients[m]) in t
    ensures var d := TaskOf(ctx, cfg, j, skip, answers, m, t); d.rows.Keys == t.Keys && d.sent == []
  {
    LoopKeepsKeys(ctx, cfg, j, j.opts.recipients[m], t, Counters(0, 0), answers[m]);
    LoopSendsAtMostOnce(ctx, cfg, j, j.opts.recipients[m], t, Counters(0, 0), answers[m]);
  }

  lemma {:induction false} LoopKeepsKeys(ctx: Context, cfg: Config, j: Job, r: Recipient, rows: Table, c: Counters,
                                         answers: seq<Answers>)
    requires KeyOf(j, r) in rows
    ensures Drive(ctx, cfg, j, r, rows, c, answers).rows.Keys == rows.Keys
  {
    OnlyOwnRow(ctx, cfg, j, r, rows, c, answers);
    var u := Drive(ctx, cfg, j, r, rows, c, answers).rows;
    forall k ensures k in u <==> k in rows {}
  }

  /** The tasks' messages are the event's, at most one per task. */
  lemma TasksMade(ctx: Context, cfg: Config, j: Job, skip: set<Email>, rows: Table, answers: seq<seq<Answers>>,
                  panicked: nat -> bool)
    requires |j.opts.recipients| == |answers|
    ensures AllMade(j, RunTasks(ctx, cfg, j, skip, rows, answers, panicked).sent, |answers|)
  {
    var tasks := TasksOf(ctx, cfg, j, skip, answers);
    var kept := (t: Table, sent: seq<EmailMessage>) => forall m :: m in sent ==> MadeFor(j, m);
    forall m: nat, t: Table | m < |answers| ensures AllMade(j, tasks(m, t).sent, 1) {
      TaskMade(ctx, cfg, j, skip, m, t, answers);
    }
    FewMessages(tasks, |answers|, rows, panicked);
    AllKeep(tasks, |answers|, rows, panicked, kept);
  }

  ghost predicate AllMade(j: Job, sent: seq<EmailMessage>, n: nat) {
    |sent| <= n && forall m :: m in sent ==> MadeFor(j, m)
  }

  lemma TaskMade(ctx: Context, cfg: Config, j: Job, skip: set<Email>, n: nat, rows: Table, answers: seq<seq<Answers>>)
    requires n < |j.opts.recipients| == |answers|
    ensures AllMade(j, TaskOf(ctx, cfg, j, skip, answers, n, rows).sent, 1)
  {
    LoopMessages(ctx, cfg, j, j.opts.recipients[n], rows, Counters(0, 0), answers[n]);
    LoopSendsAtMostOnce(ctx, cfg, j, j.opts.recipients[n], rows, Counters(0, 0), answers[n]);
  }

  /** `tasks` are the recipients' loops, kept as a value so that the loops over them are checked
      without looking into single tasks. */
  ghost predicate IsTasksSpec(ctx: Context, cfg: Config, j: Job, skip: set<Email>, answers: seq<seq<Answers>>,
                              tasks: Tasks)
    requires |answers| == |j.opts.recipients|
  {
    forall m, t {:trigger TaskOf(ctx, cfg, j, skip, answers, m, t)} ::
      tasks(m, t) == TaskOf(ctx, cfg, j, skip, answers, m, t)
  }

  /** Individual dispatch.  The tasks run in turn here; by `TasksAreIndependent` and
      `LoopRefinesProtocol.ScheduledLoop` every other order and interleaving leaves each
      recipient the same row. */
  method DispatchIndividually(ctx: Context, cfg: Config, store: NotificationStore, sender: Sender, j: Job,
                              answers: seq<seq<Answers>>, panicked: nat -> bool)
    returns (done: bool)
    requires |answers| == |j.opts.recipients|
    modifies store, sender
    ensures var ran := RunTasks(ctx, cfg, j, {}, old(store.rows), answers, panicked);
            store.rows == ran.rows && sender.sent == old(sender.sent) + ran.sent && done == ran.ended
    ensures Evolves(old(store.rows), store.rows)
    ensures done && DistinctAddresses(j.opts.recipients) && (forall s, a :: s in answers && a in s ==> a.StoreUp()) ==>
              forall m :: 0 <= m < |answers| ==> panicked(m) || Settled(store.rows, KeyOf(j, j.opts.recipients[m]))
    ensures SentFor(j, old(sender.sent), sender.sent) && |sender.sent| <= |old(sender.sent)| + |j.opts.recipients|
  {
    done := SpawnAll(ctx, cfg, store, sender, j, answers, panicked, TasksOf(ctx, cfg, j, {}, answers));
    TasksMade(ctx, cfg, j, {}, old(store.rows), answers, panicked);
    TasksKeep(ctx, cfg, j, {}, old(store.rows), answers, panicked);
    if done && DistinctAddresses(j.opts.recipients) && (forall s, a :: s in answers && a in s ==> a.StoreUp()) {
      TasksSettle(ctx, cfg, j, old(store.rows), answers, panicked);
    }
  }

  /** The loop over the recipients: one task each. */
  method SpawnAll(ctx: Context, cfg: Config, store: NotificationStore, sender: Sender, j: Job,
                  answers: seq<seq<Answers>>, panicked: nat -> bool, ghost tasks: Tasks)
    returns (done: bool)
    requires |answers| == |j.opts.recipients| && IsTasksSpec(ctx, cfg, j, {}, answers, tasks)
    modifies store, sender
    ensures var ran := RunAll(tasks, |answers|, old(store.rows), panicked);
            store.rows == ran.rows && sender.sent == old(sender.sent) + ran.sent && done == ran.ended
  {
    done := true;
    ghost var ran := RunAll(tasks, 0, store.rows, panicked);
    for i := 0 to |answers|
      invariant ran == RunAll(tasks, i, old(store.rows), panicked)
      invariant store.rows == ran.rows && sender.sent == old(sender.sent) + ran.sent && done == ran.ended
    {
      ghost var last := tasks(i, store.rows);
      var returned := RunTask(ctx, cfg, store, sender, j, {}, i, answers, tasks);
      done := done && (returned || panicked(i));
      LogGrows(old(sender.sent), ran.sent, last.sent);
      ran := RunAll(tasks, i + 1, old(store.rows), panicked);
    }
  }

  lemma LogGrows(log: seq<EmailMessage>, xs: seq<EmailMessage>, ys: seq<EmailMessage>)
    ensures (log + xs) + ys == log + (xs + ys)
  {
  }

  method RunTask(ctx: Context, cfg: Config, store: NotificationStore, sender: Sender, j: Job, ghost skip: set<Email>,
                 i: nat, answers: seq<seq<Answers>>, ghost tasks: Tasks)
    returns (done: bool)
    requires i < |answers| == |j.opts.recipients| && IsTasksSpec(ctx, cfg, j, skip, answers, tasks)
    requires j.opts.recipients[i].email !in skip
    modifies store, sender
    ensures var d := tasks(i, old(store.rows));
            store.rows == d.rows && sender.sent == old(sender.sent) + d.sent && done == d.done
  {
    ghost var outcomes;
    ghost var d := TaskOf(ctx, cfg, j, skip, answers, i, store.rows);
    done, outcomes := ProcessOneRecipient(ctx, cfg, store, sender, j, j.opts.recipients[i], answers[i]);
  }

  /** If store writes succeed, every task that did not panic leaves its row settled. */
  lemma TasksSettle(ctx: Context, cfg: Config, j: Job, rows: Table, answers: seq<seq<Answers>>, panicked: nat -> bool)
    requires |j.opts.recipients| == |answers| && DistinctAddresses(j.opts.recipients)
    requires forall s, a :: s in answers && a in s ==> a.StoreUp()
    requires RunTasks(ctx, cfg, j, {}, rows, answers, panicked).ended
    ensures var t := RunTasks(ctx, cfg, j, {}, rows, answers, panicked).rows;
            forall m :: 0 <= m < |answers| ==> panicked(m) || Settled(t, KeyOf(j, j.opts.recipients[m]))
  {
    var t, tasks := RunTasks(ctx, cfg, j, {}, rows, answers, panicked).rows, TasksOf(ctx, cfg, j, {}, answers);
    TasksAreIndependent(ctx, cfg, j, {}, rows, answers, panicked);
    forall m: nat | m < |answers| && !panicked(m) ensures Settled(t, KeyOf(j, j.opts.recipients[m])) {
      assert answers[m] in answers;
      assert tasks(m, rows).done && AgreeAt(tasks(m, rows).rows, t, KeysOf(j)(m));
      ReturnLeavesSettled(ctx, cfg, j, j.opts.recipients[m], rows, Counters(0, 0), answers[m]);
    }
  }

  // ── One group ─────────────────────────────────────────────────────────────

  datatype GroupDrive = GroupDrive(rows: Table, sent: seq<EmailMessage>, outcomes: seq<Outcome>, done: bool,
                                   fellBack: bool)

  function GroupAfter(call: CallResult, rest: GroupDrive): GroupDrive {
    rest.(sent := call.sent + rest.sent, outcomes := [call.outcome] + rest.outcomes)
  }

  function Ended(rows: Table, done: bool, fellBack: bool): GroupDrive {
    GroupDrive(rows, [], [], done, fellBack)
  }

  function GroupJoined(sent: seq<EmailMessage>, outcomes: seq<Outcome>, rest: GroupDrive): GroupDrive {
    rest.(sent := sent + rest.sent, outcomes := outcomes + rest.outcomes)
  }

  function PrimaryKey(j: Job): Key
    requires j.opts.recipients != []
  {
    KeyOf(j, j.opts.recipients[0])
  }

  /** What `ProcessOneGroup` does up to its return or its fallback to individual sends. */
  function DriveGroup(ctx: Context, cfg: Config, j: Job, rows: Table, c: Counters,
                      answers: seq<GroupAnswers>): GroupDrive
    decreases |answers|
  {
    if answers == [] then Ended(rows, false, false)
    else
      var a := answers[0];
      var call := GroupCall(ctx, j, cfg.maxRecipients, rows, a);
      if j.opts.recipients == [] then GroupAfter(call, Ended(call.rows, true, false))
      else
        var d := Decide(cfg, j.opts.retryPolicy, true, c, call.outcome);
        var next := AfterArm(call.rows, PrimaryKey(j), d, call.outcome, a.base);
        GroupAfter(call, if GoesOn(d, a.base) then DriveGroup(ctx, cfg, j, next, d.counters, answers[1..])
                         else Ended(next, !d.FallBack?, d.FallBack?))
  }

  /** What holds of every outcome of the group loop. */
  ghost predicate GroupFacts(j: Job, rows: Table, d: GroupDrive) {
    && Evolves(rows, d.rows) && |d.sent| <= 1 && (forall m :: m in d.sent ==> MadeFor(j, m))
    && (d.fellBack ==> AllPresent(j, d.rows))
  }

  lemma GroupLoopFacts(ctx: Context, cfg: Config, j: Job, rows: Table, c: Counters, answers: seq<GroupAnswers>)
    ensures GroupFacts(j, rows, DriveGroup(ctx, cfg, j, rows, c, answers))
  {
    GroupLoopEvolves(ctx, cfg, j, rows, c, answers);
    GroupLoopMessages(ctx, cfg, j, rows, c, answers);
    GroupLoopSendsAtMostOnce(ctx, cfg, j, rows, c, answers);
  }

  /** The group loop.  `fallback` holds the answers of the individual loops, should it
      come to them. */
  method ProcessOneGroup(ctx: Context, cfg: Config, store: NotificationStore, sender: Sender, j: Job,
                         answers: seq<GroupAnswers>, readUp: nat -> bool, fallback: seq<seq<Answers>>,
                         panicked: nat -> bool)
    returns (done: bool, ghost outcomes: seq<Outcome>)
    requires j.opts.recipients != [] && |fallback| == |j.opts.recipients|
    modifies store, sender
    ensures Evolves(old(store.rows), store.rows)
    ensures var d := DriveGroup(ctx, cfg, j, old(store.rows), Counters(0, 0), answers);
            && outcomes == d.outcomes && sender.sent == old(sender.sent) + d.sent && |d.sent| <= 1
            && SentFor(j, old(sender.sent), sender.sent)
            && (!d.fellBack ==> done == d.done && store.rows == d.rows)
            && (d.fellBack ==>
                  && Evolves(d.rows, store.rows) && store.rows.Keys == d.rows.Keys
                  && var ran := RunTasks(ctx, cfg, j, AlreadyTerminal(j, d.rows, readUp), d.rows, fallback, panicked);
                     store.rows == ran.rows && done == ran.ended)
            && (d.fellBack && AllReachInsert(ctx, j, fallback) && AllParsed(j, d.rows) ==>
                  store.rows == d.rows && (done ==> TerminalOr(j, d.rows, panicked)))
  {
    GroupLoopFacts(ctx, cfg, j, store.rows, Counters(0, 0), answers);
    done, outcomes := GroupThenFallback(ctx, cfg, store, sender, j, answers, readUp, fallback, panicked,
                                        (rows, c, s) => DriveGroup(ctx, cfg, j, rows, c, s));
  }

  method GroupThenFallback(ctx: Context, cfg: Config, store: NotificationStore, sender: Sender, j: Job,
                           answers: seq<GroupAnswers>, readUp: nat -> bool, fallback: seq<seq<Answers>>,
                           panicked: nat -> bool, ghost drive: (Table, Counters, seq<GroupAnswers>) -> GroupDrive)
    returns (done: bool, ghost outcomes: seq<Outcome>)
    requires j.opts.recipients != [] && |fallback| == |j.opts.recipients| && IsGroupSpec(ctx, cfg, j, drive)
    requires GroupFacts(j, store.rows, drive(store.rows, Counters(0, 0), answers))
    modifies store, sender
    ensures Evolves(old(store.rows), store.rows)
    ensures var d := drive(old(store.rows), Counters(0, 0), answers);
            && outcomes == d.outcomes && sender.sent == old(sender.sent) + d.sent
            && SentFor(j, old(sender.sent), sender.sent)
            && (!d.fellBack ==> done == d.done && store.rows == d.rows)
            && (d.fellBack ==>
                  && Evolves(d.rows, store.rows) && store.rows.Keys == d.rows.Keys
                  && var ran := RunTasks(ctx, cfg, j, AlreadyTerminal(j, d.rows, readUp), d.rows, fallback, panicked);
                     store.rows == ran.rows && done == ran.ended)
            && (d.fellBack && AllReachInsert(ctx, j, fallback) && AllParsed(j, d.rows) ==>
                  store.rows == d.rows && (done ==> TerminalOr(j, d.rows, panicked)))
  {
    var fellBack;
    done, fellBack, outcomes := GroupLoop(ctx, cfg, store, sender, j, answers, drive);
    if fellBack {
      ghost var rows := store.rows;
      done := FallbackToIndividualSends(ctx, cfg, store, sender, j, readUp, fallback, panicked);
      EvolvesTransitive(old(store.rows), rows, store.rows);
    }
  }

  /** `drive` is the specification of the rest of the loop, kept as a value so that the
      loop below is checked without looking into group calls. */
  ghost predicate IsGroupSpec(ctx: Context, cfg: Config, j: Job,
                              drive: (Table, Counters, seq<GroupAnswers>) -> GroupDrive) {
    forall rows, c, s {:trigger DriveGroup(ctx, cfg, j, rows, c, s)} ::
      drive(rows, c, s) == DriveGroup(ctx, cfg, j, rows, c, s)
  }

  method GroupLoop(ctx: Context, cfg: Config, store: NotificationStore, sender: Sender, j: Job,
                   answers: seq<GroupAnswers>, ghost drive: (Table, Counters, seq<GroupAnswers>) -> GroupDrive)
    returns (done: bool, fellBack: bool, ghost outcomes: seq<Outcome>)
    requires j.opts.recipients != [] && IsGroupSpec(ctx, cfg, j, drive)
    modifies store, sender
    ensures var d := drive(old(store.rows), Counters(0, 0), answers);
            store.rows == d.rows && sender.sent == old(sender.sent) + d.sent && outcomes == d.outcomes
            && done == d.done && fellBack == d.fellBack
  {
    var c := Counters(0, 0);
    outcomes := [];
    ghost var soFar: seq<EmailMessage> := [];
    ghost var whole := drive(store.rows, c, answers);
    ghost var rest := whole;
    assert answers[0..] == answers;
    for i := 0 to |answers|
      invariant sender.sent == old(sender.sent) + soFar
      invariant rest == drive(store.rows, c, answers[i..])
      invariant whole == GroupJoined(soFar, outcomes, rest)
    {
      assert answers[i..][1..] == answers[i + 1..];
      var running;
      ghost var call, next;
      running, fellBack, c, call, next := GroupIteration(ctx, cfg, store, sender, j, c, answers[i], answers[i..],
                                                         drive);
      GroupJoinStep(soFar, outcomes, call, next);
      soFar, outcomes, rest := soFar + call.sent, outcomes + [call.outcome], next;
      if !running {
        GroupJoinEnd(soFar, outcomes, store.rows, !fellBack, fellBack);
        return !fellBack, fellBack, outcomes;
      }
    }
    NothingLeft(ctx, cfg, j, store.rows, c, drive);
    GroupJoinEnd(soFar, outcomes, store.rows, false, false);
    return false, false, outcomes;
  }

  lemma GroupJoinEnd(sent: seq<EmailMessage>, outcomes: seq<Outcome>, rows: Table, done: bool, fellBack: bool)
    ensures GroupJoined(sent, outcomes, Ended(rows, done, fellBack)) == GroupDrive(rows, sent, outcomes, done, fellBack)
  {
  }

  lemma NothingLeft(ctx: Context, cfg: Config, j: Job, rows: Table, c: Counters,
                    drive: (Table, Counters, seq<GroupAnswers>) -> GroupDrive)
    requires IsGroupSpec(ctx, cfg, j, drive)
    ensures drive(rows, c, []) == Ended(rows, false, false)
  {
    assert DriveGroup(ctx, cfg, j, rows, c, []) == Ended(rows, false, false);
  }

  lemma GroupJoinStep(soFar: seq<EmailMessage>, outcomes: seq<Outcome>, call: CallResult, next: GroupDrive)
    ensures GroupJoined(soFar, outcomes, GroupAfter(call, next)) ==
            GroupJoined(soFar + call.sent, outcomes + [call.outcome], next)
  {
    assert soFar + (call.sent + next.sent) == (soFar + call.sent) + next.sent;
    assert outcomes + ([call.outcome] + next.outcomes) == (outcomes + [call.outcome]) + next.outcomes;
  }

  /** One iteration: `next` is what the rest of the loop will do. */
  method GroupIteration(ctx: Context, cfg: Config, store: NotificationStore, sender: Sender, j: Job, c: Counters,
                        a: GroupAnswers, ghost answers: seq<GroupAnswers>,
                        ghost drive: (Table, Counters, seq<GroupAnswers>) -> GroupDrive)
    returns (running: bool, fellBack: bool, c': Counters, ghost call: CallResult, ghost next: GroupDrive)
    requires j.opts.recipients != [] && answers != [] && answers[0] == a && IsGroupSpec(ctx, cfg, j, drive)
    modifies store, sender
    ensures sender.sent == old(sender.sent) + call.sent
    ensures drive(old(store.rows), c, answers) == GroupAfter(call, next)
    ensures next == if running then drive(store.rows, c', answers[1..]) else Ended(store.rows, !fellBack, fellBack)
    ensures running ==> !fellBack
  {
    ghost var whole := DriveGroup(ctx, cfg, j, store.rows, c, answers);
    call := GroupCall(ctx, j, cfg.maxRecipients, store.rows, a);
    var outcome := ProcessGroup(ctx, store, sender, j, cfg.maxRecipients, a);
    running, fellBack, c' := GroupArm(cfg, store, j, c, outcome, a.base);
    next := if running then DriveGroup(ctx, cfg, j, store.rows, c', answers[1..])
            else Ended(store.rows, !fellBack, fellBack);
  }

  /** The arms of the group loop's `match`. */
  method GroupArm(cfg: Config, store: NotificationStore, j: Job, c: Counters, outcome: Outcome, a: Answers)
    returns (running: bool, fellBack: bool, c': Counters)
    requires j.opts.recipients != []
    modifies store
    ensures var d := Decide(cfg, j.opts.retryPolicy, true, c, outcome);
            && running == GoesOn(d, a) && fellBack == d.FallBack?
            && (running ==> c' == d.counters)
            && store.rows == AfterArm(old(store.rows), PrimaryKey(j), d, outcome, a)
  {
    c' := c;
    match outcome {
      case StillPending(retryCount) =>
        return true, false, c.(attempt := retryCount);
      case GroupFailure(_) =>
        return false, true, c;
      case Failure(e) =>
        var stop;
        stop, c' := OnFailure(cfg, store, j.opts.retryPolicy, true, PrimaryKey(j), e, c, a);
        return !stop, false, c';
      case _ =>
        return false, false, c;
    }
  }

  lemma {:induction false} AdmittedAmong(ctx: Context, rs: seq<Recipient>)
    ensures forall r :: r in AdmittedOnly(ctx, rs) ==> r in rs
  {
    if rs != [] {
      AdmittedAmong(ctx, rs[..|rs| - 1]);
    }
  }

  lemma {:induction false} WithoutAmong(rs: seq<Recipient>, emails: set<Email>)
    ensures forall r :: r in Without(rs, emails) ==> r in rs
  {
    if rs != [] {
      WithoutAmong(rs[1..], emails);
    }
  }

  lemma AttemptMessages(ctx: Context, j: Job, results: seq<InsertResult>, inserted: Table, a: GroupAnswers)
    requires j.opts.recipients != []
    requires j.opts.groupRetryMode.RetryIndividually? ==> |results| == |j.opts.recipients|
    ensures forall m :: m in GroupAttempt(ctx, j, results, inserted, a).sent ==> MadeFor(j, m)
  {
    var rs := j.opts.recipients;
    AdmittedAmong(ctx, rs);
    if j.opts.groupRetryMode.RetryIndividually? {
      WithoutAmong(AdmittedOnly(ctx, rs), AlreadySent(rs, results));
    }
    assert forall r :: r in Rest(Unsent(ctx, j, results)) ==> r in rs;
    assert Recipient(rs[0].email, rs[0].name) == rs[0];
  }

  lemma {:induction false} GroupLoopMessages(ctx: Context, cfg: Config, j: Job, rows: Table, c: Counters,
                                             answers: seq<GroupAnswers>)
    ensures forall m :: m in DriveGroup(ctx, cfg, j, rows, c, answers).sent ==> MadeFor(j, m)
    decreases |answers|
  {
    if answers != [] && j.opts.recipients != [] {
      var a := answers[0];
      var call := GroupCall(ctx, j, cfg.maxRecipients, rows, a);
      AttemptMessages(ctx, j, BatchResults(rows, GroupArgs(j), a.base.now),
                      AfterInsertAll(rows, GroupArgs(j), a.base.now), a);
      var d := Decide(cfg, j.opts.retryPolicy, true, c, call.outcome);
      if GoesOn(d, a.base) {
        GroupLoopMessages(ctx, cfg, j, AfterArm(call.rows, PrimaryKey(j), d, call.outcome, a.base), d.counters,
                          answers[1..]);
      }
    }
  }

  /** Every recipient of the event has a row. */
  predicate AllPresent(j: Job, rows: Table) {
    forall r :: r in j.opts.recipients ==> KeyOf(j, r) in rows
  }

  /** Every recipient has a row, with a status the binary knows. */
  predicate AllParsed(j: Job, rows: Table) {
    forall r :: r in j.opts.recipients ==> KeyOf(j, r) in rows && !rows[KeyOf(j, r)].status.Unrecognised?
  }

  predicate AllTerminal(j: Job, rows: Table) {
    forall r :: r in j.opts.recipients ==> Done(j, rows, r)
  }

  predicate TerminalOr(j: Job, rows: Table, panicked: nat -> bool) {
    forall m :: 0 <= m < |j.opts.recipients| ==> panicked(m) || Done(j, rows, j.opts.recipients[m])
  }

  ghost predicate AllReachInsert(ctx: Context, j: Job, answers: seq<seq<Answers>>) {
    forall s, a, r :: s in answers && a in s && r in j.opts.recipients ==> ReachesInsert(ctx, j, r, a)
  }

  /** A group call falls back only after writing a row for every recipient. */
  lemma FallbackHasRows(ctx: Context, j: Job, maxRecipients: nat, rows: Table, a: GroupAnswers)
    ensures var c := GroupCall(ctx, j, maxRecipients, rows, a);
            c.outcome.GroupFailure? ==>
              j.opts.recipients != [] && j.opts.groupRetryMode.RetryIndividually? && AllPresent(j, c.rows)
  {
    if GroupCall(ctx, j, maxRecipients, rows, a).outcome.GroupFailure? {
      ReachesAttempt(ctx, j, maxRecipients, rows, a);
      var results := BatchResults(rows, GroupArgs(j), a.base.now);
      var inserted := AfterInsertAll(rows, GroupArgs(j), a.base.now);
      AttemptKeepsKeys(ctx, j, results, inserted, a);
      forall r | r in j.opts.recipients ensures KeyOf(j, r) in inserted {
        var i :| 0 <= i < |j.opts.recipients| && j.opts.recipients[i] == r;
        assert GroupArgs(j)[i].key == KeyOf(j, r);
        BatchRow(rows, GroupArgs(j), a.base.now, KeyOf(j, r));
      }
    }
  }

  lemma AttemptKeepsKeys(ctx: Context, j: Job, results: seq<InsertResult>, inserted: Table, a: GroupAnswers)
    requires j.opts.recipients != []
    requires j.opts.groupRetryMode.RetryIndividually? ==> |results| == |j.opts.recipients|
    ensures GroupAttempt(ctx, j, results, inserted, a).rows.Keys == inserted.Keys
    ensures GroupAttempt(ctx, j, results, inserted, a).outcome.GroupFailure? ==>
              j.opts.groupRetryMode.RetryIndividually?
  {
    var primary, extra := j.opts.recipients[0], Rest(Unsent(ctx, j, results));
    var targets := [KeyOf(j, primary)] + if j.opts.groupRetryMode.RetryIndividually? then Keys(j, extra) else [];
    FilterKeepsKeys(ctx, j, j.opts.recipients, inserted, a.blockUp, a.base.now);
    MarkAllKeepsKeys(AfterFilter(ctx, j, j.opts.recipients, inserted, a.blockUp, a.base.now), targets, a.sentUp,
                     a.base.now);
  }

  lemma {:induction false} FilterEvolves(ctx: Context, j: Job, rs: seq<Recipient>, t: Table, up: nat -> bool, now: Time)
    ensures Evolves(t, AfterFilter(ctx, j, rs, t, up, now))
  {
    if rs != [] {
      FilterEvolves(ctx, j, rs[..|rs| - 1], t, up, now);
    }
  }

  lemma {:induction false} MarkAllEvolves(t: Table, targets: seq<Key>, up: nat -> bool, now: Time)
    ensures Evolves(t, AfterMarkAll(t, targets, up, now))
  {
    if targets != [] {
      MarkAllEvolves(t, targets[..|targets| - 1], up, now);
    }
  }

  lemma AttemptEvolves(ctx: Context, j: Job, results: seq<InsertResult>, inserted: Table, a: GroupAnswers)
    requires j.opts.recipients != []
    requires j.opts.groupRetryMode.RetryIndividually? ==> |results| == |j.opts.recipients|
    ensures Evolves(inserted, GroupAttempt(ctx, j, results, inserted, a).rows)
  {
    var filtered := AfterFilter(ctx, j, j.opts.recipients, inserted, a.blockUp, a.base.now);
    var extra := Rest(Unsent(ctx, j, results));
    var targets := [PrimaryKey(j)] + if j.opts.groupRetryMode.RetryIndividually? then Keys(j, extra) else [];
    FilterEvolves(ctx, j, j.opts.recipients, inserted, a.blockUp, a.base.now);
    MarkAllEvolves(filtered, targets, a.sentUp, a.base.now);
    EvolvesTransitive(inserted, filtered, AfterMarkAll(filtered, targets, a.sentUp, a.base.now));
  }

  lemma BatchEvolves(rows: Table, args: seq<InsertArgs>, now: Time)
    ensures Evolves(rows, AfterInsertAll(rows, args, now))
  {
    forall k | k in rows ensures k in AfterInsertAll(rows, args, now) && AfterInsertAll(rows, args, now)[k] == rows[k] {
      BatchRow(rows, args, now, k);
    }
  }

  lemma GroupCallEvolves(ctx: Context, j: Job, maxRecipients: nat, rows: Table, a: GroupAnswers)
    ensures Evolves(rows, GroupCall(ctx, j, maxRecipients, rows, a).rows)
  {
    if j.opts.recipients != [] {
      var results := BatchResults(rows, GroupArgs(j), a.base.now);
      var inserted := AfterInsertAll(rows, GroupArgs(j), a.base.now);
      BatchEvolves(rows, GroupArgs(j), a.base.now);
      AttemptEvolves(ctx, j, results, inserted, a);
      EvolvesTransitive(rows, inserted, GroupAttempt(ctx, j, results, inserted, a).rows);
    }
  }

  lemma {:induction false} GroupLoopEvolves(ctx: Context, cfg: Config, j: Job, rows: Table, c: Counters,
                                            answers: seq<GroupAnswers>)
    ensures Evolves(rows, DriveGroup(ctx, cfg, j, rows, c, answers).rows)
    decreases |answers|
  {
    if answers != [] {
      var a := answers[0];
      var call := GroupCall(ctx, j, cfg.maxRecipients, rows, a);
      GroupCallEvolves(ctx, j, cfg.maxRecipients, rows, a);
      if j.opts.recipients != [] {
        var d := Decide(cfg, j.opts.retryPolicy, true, c, call.outcome);
        var next := AfterArm(call.rows, PrimaryKey(j), d, call.outcome, a.base);
        ArmAddsNoRow(call.rows, PrimaryKey(j), d, call.outcome, a.base);
        EvolvesTransitive(rows, call.rows, next);
        if GoesOn(d, a.base) {
          GroupLoopEvolves(ctx, cfg, j, next, d.counters, answers[1..]);
          EvolvesTransitive(rows, next, DriveGroup(ctx, cfg, j, next, d.counters, answers[1..]).rows);
        }
      }
    }
  }

  lemma {:induction false} FilterKeepsKeys(ctx: Context, j: Job, rs: seq<Recipient>, rows: Table, up: nat -> bool,
                                           now: Time)
    ensures AfterFilter(ctx, j, rs, rows, up, now).Keys == rows.Keys
  {
    if rs != [] {
      FilterKeepsKeys(ctx, j, rs[..|rs| - 1], rows, up, now);
    }
  }

  /** The recipients the fallback leaves out: their row is read and terminal. */
  function AlreadyTerminal(j: Job, rows: Table, readUp: nat -> bool): set<Email> {
    var rs := j.opts.recipients;
    set i | 0 <= i < |rs| && readUp(i) && Done(j, rows, rs[i]) :: rs[i].email
  }

  /** If every attempt reaches its insert the fallback changes no row, and it returns only if
      the recipients it goes through were terminal. */
  lemma FallbackIsQuiet(ctx: Context, cfg: Config, j: Job, skip: set<Email>, rows: Table, answers: seq<seq<Answers>>,
                        panicked: nat -> bool)
    requires |j.opts.recipients| == |answers| && AllParsed(j, rows) && AllReachInsert(ctx, j, answers)
    ensures var ran := RunTasks(ctx, cfg, j, skip, rows, answers, panicked);
            && ran.rows == rows
            && (ran.ended ==>
                  forall m :: 0 <= m < |answers| ==>
                    j.opts.recipients[m].email in skip || panicked(m) || Done(j, rows, j.opts.recipients[m]))
  {
    var tasks := TasksOf(ctx, cfg, j, skip, answers);
    forall m: nat | m < |answers|
      ensures tasks(m, rows).rows == rows
      ensures tasks(m, rows).done ==> j.opts.recipients[m].email in skip || Done(j, rows, j.opts.recipients[m])
    {
      assert j.opts.recipients[m] in j.opts.recipients && answers[m] in answers;
      QuietOnExistingRow(ctx, cfg, j, j.opts.recipients[m], rows, answers[m]);
    }
    QuietTasks(tasks, |answers|, rows, panicked);
  }

  lemma {:induction false} AllSkipped(ctx: Context, cfg: Config, j: Job, skip: set<Email>, n: nat, rows: Table,
                                      answers: seq<seq<Answers>>, panicked: nat -> bool)
    requires n <= |j.opts.recipients| == |answers| && forall m :: 0 <= m < n ==> j.opts.recipients[m].email in skip
    ensures RunAll(TasksOf(ctx, cfg, j, skip, answers), n, rows, panicked).ended
  {
    if n > 0 {
      AllSkipped(ctx, cfg, j, skip, n - 1, rows, answers, panicked);
    }
  }

  method ReadTerminal(store: NotificationStore, j: Job, readUp: nat -> bool) returns (terminal: set<Email>)
    ensures terminal == AlreadyTerminal(j, store.rows, readUp)
  {
    var rs := j.opts.recipients;
    terminal := {};
    for i := 0 to |rs|
      invariant terminal == set k | 0 <= k < i && readUp(k) && Done(j, store.rows, rs[k]) :: rs[k].email
    {
      var log := store.GetByEventAndRecipient(KeyOf(j, rs[i]), readUp(i));
      if log.Ok? && log.value.status.IsTerminal() {
        terminal := terminal + {rs[i].email};
      }
    }
  }

  /** The individual loops after a failed group send.  Every recipient already has a row, so
      not one of them sends anything or adds a row.  If in addition every attempt reaches its
      insert, no row changes either, and the fallback returns only when every row was
      terminal, but for those whose task panicked. */
  method FallbackToIndividualSends(ctx: Context, cfg: Config, store: NotificationStore, sender: Sender, j: Job,
                                   readUp: nat -> bool, answers: seq<seq<Answers>>, panicked: nat -> bool)
    returns (done: bool)
    requires |answers| == |j.opts.recipients|
    modifies store, sender
    ensures var ran := RunTasks(ctx, cfg, j, AlreadyTerminal(j, old(store.rows), readUp), old(store.rows), answers, panicked);
            store.rows == ran.rows && done == ran.ended && sender.sent == old(sender.sent) + ran.sent
    ensures Evolves(old(store.rows), store.rows)
    ensures AllPresent(j, old(store.rows)) ==>
              sender.sent == old(sender.sent) && store.rows.Keys == old(store.rows).Keys
    ensures AllParsed(j, old(store.rows)) && AllReachInsert(ctx, j, answers) ==>
              store.rows == old(store.rows) && (done ==> TerminalOr(j, store.rows, panicked))
    ensures AllTerminal(j, old(store.rows)) && (forall n: nat :: readUp(n)) ==> done
  {
    ghost var rows := store.rows;
    var terminal := ReadTerminal(store, j, readUp);
    done := DriveAll(ctx, cfg, store, sender, j, terminal, answers, panicked, TasksOf(ctx, cfg, j, terminal, answers));
    TasksKeep(ctx, cfg, j, terminal, rows, answers, panicked);
    if AllParsed(j, rows) && AllReachInsert(ctx, j, answers) {
      FallbackIsQuiet(ctx, cfg, j, terminal, rows, answers, panicked);
      forall r | r in j.opts.recipients ensures r.email in terminal ==> Done(j, rows, r) {}
    }
    if AllTerminal(j, rows) && (forall n: nat :: readUp(n)) {
      forall i | 0 <= i < |answers| ensures j.opts.recipients[i].email in terminal {
        assert readUp(i) && j.opts.recipients[i] in j.opts.recipients;
      }
      AllSkipped(ctx, cfg, j, terminal, |answers|, rows, answers, panicked);
    }
  }

  method DriveAll(ctx: Context, cfg: Config, store: NotificationStore, sender: Sender, j: Job, skip: set<Email>,
                  answers: seq<seq<Answers>>, panicked: nat -> bool, ghost tasks: Tasks)
    returns (done: bool)
    requires |answers| == |j.opts.recipients| && IsTasksSpec(ctx, cfg, j, skip, answers, tasks)
    modifies store, sender
    ensures var ran := RunAll(tasks, |answers|, old(store.rows), panicked);
            store.rows == ran.rows && sender.sent == old(sender.sent) + ran.sent && done == ran.ended
  {
    done := true;
    ghost var ran := RunAll(tasks, 0, store.rows, panicked);
    for i := 0 to |answers|
      invariant ran == RunAll(tasks, i, old(store.rows), panicked)
      invariant store.rows == ran.rows && sender.sent == old(sender.sent) + ran.sent && done == ran.ended
    {
      ghost var last := tasks(i, store.rows);
      ran := RunAll(tasks, i + 1, old(store.rows), panicked);
      if j.opts.recipients[i].email in skip {
        SkippedTask(ctx, cfg, j, skip, answers, tasks, i, store.rows);
        continue;
      }
      ghost var log := sender.sent;
      var returned := RunTask(ctx, cfg, store, sender, j, skip, i, answers, tasks);
      done := done && (returned || panicked(i));
      LogGrows(old(sender.sent), RunAll(tasks, i, old(store.rows), panicked).sent, last.sent);
    }
  }

  lemma SkippedTask(ctx: Context, cfg: Config, j: Job, skip: set<Email>, answers: seq<seq<Answers>>, tasks: Tasks, i: nat,
                    rows: Table)
    requires i < |answers| == |j.opts.recipients| && j.opts.recipients[i].email in skip
    requires IsTasksSpec(ctx, cfg, j, skip, answers, tasks)
    ensures tasks(i, rows) == DriveResult(rows, [], [], true)
  {
    assert TaskOf(ctx, cfg, j, skip, answers, i, rows) == DriveResult(rows, [], [], true);
  }

  /** In an environment where every attempt reaches its insert, the loop leaves an existing
      row alone, and returns only if that row was terminal. */
  lemma QuietOnExistingRow(ctx: Context, cfg: Config, j: Job, r: Recipient, rows: Table, answers: seq<Answers>)
    requires KeyOf(j, r) in rows && !rows[KeyOf(j, r)].status.Unrecognised?
    requires forall a :: a in answers ==> ReachesInsert(ctx, j, r, a)
    ensures var d := Drive(ctx, cfg, j, r, rows, Counters(0, 0), answers);
            d.rows == rows && d.sent == [] && (d.done ==> Done(j, rows, r))
  {
    if !Done(j, rows, r) {
      SpinsOnExistingRow(ctx, cfg, j, r, rows, Counters(0, 0), answers);
    } else if answers != [] {
      assert answers[0] in answers;
    }
  }

  /** A group message goes out only on the call that creates the primary's row. */
  lemma GroupSendNeedsFreshPrimary(ctx: Context, j: Job, maxRecipients: nat, rows: Table, a: GroupAnswers)
    requires j.opts.recipients != []
    ensures var c := GroupCall(ctx, j, maxRecipients, rows, a);
            && |c.sent| <= 1
            && (c.sent != [] ==> PrimaryKey(j) !in rows && PrimaryKey(j) in c.rows)
            && (PrimaryKey(j) in rows ==> PrimaryKey(j) in c.rows)
  {
    var args := GroupArgs(j);
    assert args[0].key == PrimaryKey(j);
    BatchAlignment(rows, args, a.base.now, 0);
    BatchRow(rows, args, a.base.now, PrimaryKey(j));
    AttemptKeepsKeys(ctx, j, BatchResults(rows, args, a.base.now), AfterInsertAll(rows, args, a.base.now), a);
  }

  lemma {:induction false} MarkAllKeepsKeys(rows: Table, targets: seq<Key>, up: nat -> bool, now: Time)
    ensures AfterMarkAll(rows, targets, up, now).Keys == rows.Keys
  {
    if targets != [] {
      MarkAllKeepsKeys(rows, targets[..|targets| - 1], up, now);
    }
  }

  /** Over a whole run of the group loop at most one group message goes out, and none once
      the primary's row exists; after a fallback nothing more goes out at all. */
  lemma {:induction false} GroupLoopSendsAtMostOnce(ctx: Context, cfg: Config, j: Job, rows: Table, c: Counters,
                                                    answers: seq<GroupAnswers>)
    ensures var d := DriveGroup(ctx, cfg, j, rows, c, answers);
            && |d.sent| <= 1
            && (j.opts.recipients != [] && PrimaryKey(j) in rows ==> d.sent == [])
            && (d.fellBack ==> AllPresent(j, d.rows))
    decreases |answers|
  {
    if answers != [] && j.opts.recipients != [] {
      var a := answers[0];
      GroupSendNeedsFreshPrimary(ctx, j, cfg.maxRecipients, rows, a);
      var call := GroupCall(ctx, j, cfg.maxRecipients, rows, a);
      var d := Decide(cfg, j.opts.retryPolicy, true, c, call.outcome);
      if d.Again? {
        GroupLoopSendsAtMostOnce(ctx, cfg, j, call.rows, d.counters, answers[1..]);
      } else if d.Backoff? {
        GroupLoopSendsAtMostOnce(ctx, cfg, j, AfterBackoff(call.rows, PrimaryKey(j), d.message, call.outcome, a.base),
                                 d.counters, answers[1..]);
      } else if d.FallBack? {
        FallbackHasRows(ctx, j, cfg.maxRecipients, rows, a);
      }
    }
  }

  /** The group loop follows the same decision table as the individual one, so it returns
      or falls back within the same budget, unless a shutdown ends its last sleep. */
  lemma {:induction false} GroupLoopFollowsDecisions(ctx: Context, cfg: Config, j: Job, rows: Table, c: Counters,
                                                     answers: seq<GroupAnswers>)
    requires j.opts.recipients != []
    ensures var d := DriveGroup(ctx, cfg, j, rows, c, answers);
            var t := Follow(cfg, j.opts.retryPolicy, true, c, d.outcomes);
            && t.calls == |d.outcomes| <= |answers|
            && (t.returned ==> d.done || d.fellBack)
            && ((d.done || d.fellBack) && !t.returned ==>
                  |d.outcomes| > 0 && answers[|d.outcomes| - 1].base.shutdown)
            && (!d.done && !d.fellBack ==> |d.outcomes| == |answers|)
    decreases |answers|
  {
    if answers != [] {
      var a := answers[0];
      var call := GroupCall(ctx, j, cfg.maxRecipients, rows, a);
      var d := Decide(cfg, j.opts.retryPolicy, true, c, call.outcome);
      var next := AfterArm(call.rows, PrimaryKey(j), d, call.outcome, a.base);
      var rest := if GoesOn(d, a.base) then DriveGroup(ctx, cfg, j, next, d.counters, answers[1..]).outcomes else [];
      assert DriveGroup(ctx, cfg, j, rows, c, answers).outcomes == [call.outcome] + rest;
      if GoesOn(d, a.base) {
        GroupLoopFollowsDecisions(ctx, cfg, j, next, d.counters, answers[1..]);
      }
      FollowStep(cfg, j.opts.retryPolicy, true, c, call.outcome, rest);
    }
  }

  lemma GroupEarlyErrors(ctx: Context, j: Job, maxRecipients: nat, a: Answers)
    requires OnlySenderLimits(a)
    ensures match GroupPreInsertError(ctx, j, maxRecipients, a) case None => true case Some(e) => !e.RateLimitedError?
  {
  }

  lemma LimitedAttemptWasSent(ctx: Context, j: Job, results: seq<InsertResult>, inserted: Table, a: GroupAnswers)
    requires j.opts.recipients != []
    requires j.opts.groupRetryMode.RetryIndividually? ==> |results| == |j.opts.recipients|
    ensures IsRateLimit(GroupAttempt(ctx, j, results, inserted, a).outcome) ==>
              GroupAttempt(ctx, j, results, inserted, a).sent != []
  {
  }

  lemma GroupRateLimitWasSent(ctx: Context, j: Job, maxRecipients: nat, rows: Table, a: GroupAnswers)
    requires OnlySenderLimits(a.base) && j.opts.recipients != []
    ensures var c := GroupCall(ctx, j, maxRecipients, rows, a);
            IsRateLimit(c.outcome) ==> c.sent != []
  {
    GroupEarlyErrors(ctx, j, maxRecipients, a.base);
    var early, args := GroupPreInsertError(ctx, j, maxRecipients, a.base), GroupArgs(j);
    if early.None? && !(a.insertFailAt.Some? && a.insertFailAt.value <= |args|) {
      var results := BatchResults(rows, args, a.base.now);
      if results[0].Inserted? {
        LimitedAttemptWasSent(ctx, j, results, AfterInsertAll(rows, args, a.base.now), a);
      }
    }
  }

  /** The group loop, too, hears at most one rate limit. */
  lemma {:induction false} GroupLoopHearsOneRateLimit(ctx: Context, cfg: Config, j: Job, rows: Table, c: Counters,
                                                      answers: seq<GroupAnswers>)
    requires j.opts.recipients != [] && forall a :: a in answers ==> OnlySenderLimits(a.base)
    ensures RateLimits(DriveGroup(ctx, cfg, j, rows, c, answers).outcomes) <= if PrimaryKey(j) in rows then 0 else 1
    decreases |answers|
  {
    if answers != [] {
      var a := answers[0];
      assert a in answers;
      var call := GroupCall(ctx, j, cfg.maxRecipients, rows, a);
      var d := Decide(cfg, j.opts.retryPolicy, true, c, call.outcome);
      var next := AfterArm(call.rows, PrimaryKey(j), d, call.outcome, a.base);
      GroupSendNeedsFreshPrimary(ctx, j, cfg.maxRecipients, rows, a);
      GroupRateLimitWasSent(ctx, j, cfg.maxRecipients, rows, a);
      ArmKeepsKeys(call.rows, PrimaryKey(j), d, call.outcome, a.base);
      assert PrimaryKey(j) in next.Keys <==> PrimaryKey(j) in call.rows.Keys;
      var os := DriveGroup(ctx, cfg, j, rows, c, answers).outcomes;
      if GoesOn(d, a.base) {
        GroupLoopHearsOneRateLimit(ctx, cfg, j, next, d.counters, answers[1..]);
        assert os[1..] == DriveGroup(ctx, cfg, j, next, d.counters, answers[1..]).outcomes;
      } else {
        assert os == [call.outcome];
      }
    }
  }

  /** A group loop that hears no "still pending" returns or falls back within the same number
      of calls as a loop for one recipient. */
  lemma GroupLoopReturnsWithinBudget(ctx: Context, cfg: Config, j: Job, rows: Table, answers: seq<GroupAnswers>)
    requires j.opts.recipients != [] && forall a :: a in answers ==> OnlySenderLimits(a.base)
    requires forall o :: o in DriveGroup(ctx, cfg, j, rows, Counters(0, 0), answers).outcomes ==> !o.StillPending?
    ensures var d := DriveGroup(ctx, cfg, j, rows, Counters(0, 0), answers);
            && |d.outcomes| <= ComposedBudget(cfg)
            && (|answers| >= ComposedBudget(cfg) ==> d.done || d.fellBack)
  {
    GroupLoopFollowsDecisions(ctx, cfg, j, rows, Counters(0, 0), answers);
    GroupLoopHearsOneRateLimit(ctx, cfg, j, rows, Counters(0, 0), answers);
    ReturnsWithinRareBudget(cfg, j.opts.retryPolicy, true, Counters(0, 0),
                            DriveGroup(ctx, cfg, j, rows, Counters(0, 0), answers).outcomes, 1);
  }

  /** If store writes succeed, a group loop that returns leaves the primary's row settled. */
  lemma {:induction false} GroupReturnSettlesPrimary(ctx: Context, cfg: Config, j: Job, rows: Table, c: Counters,
                                                     answers: seq<GroupAnswers>)
    requires j.opts.recipients != [] && forall a :: a in answers ==> a.StoreUp()
    requires DriveGroup(ctx, cfg, j, rows, c, answers).done
    ensures Settled(DriveGroup(ctx, cfg, j, rows, c, answers).rows, PrimaryKey(j))
    decreases |answers|
  {
    var a := answers[0];
    assert a in answers;
    var call := GroupCall(ctx, j, cfg.maxRecipients, rows, a);
    var d := Decide(cfg, j.opts.retryPolicy, true, c, call.outcome);
    if d.Again? || (d.Backoff? && !a.base.shutdown) {
      var next := AfterArm(call.rows, PrimaryKey(j), d, call.outcome, a.base);
      GroupReturnSettlesPrimary(ctx, cfg, j, next, d.counters, answers[1..]);
    } else if d.Stop? {
      StopSettlesPrimary(ctx, j, cfg.maxRecipients, rows, a);
    }
  }

  lemma StopSettlesPrimary(ctx: Context, j: Job, maxRecipients: nat, rows: Table, a: GroupAnswers)
    requires j.opts.recipients != [] && a.StoreUp()
    requires var o := GroupCall(ctx, j, maxRecipients, rows, a).outcome; o.Delivered? || o.Refused? || o.AlreadyDone?
    ensures Settled(GroupCall(ctx, j, maxRecipients, rows, a).rows, PrimaryKey(j))
  {
    var g, k := StageOf(ctx, j, rows, a), PrimaryKey(j);
    var args := GroupArgs(j);
    assert args[0].key == k;
    BatchAlignment(rows, args, a.base.now, 0);
    BatchRow(rows, args, a.base.now, k);
    if g.results[0].Inserted? {
      AttemptSettlesPrimary(ctx, j, g.results, g.inserted, a);
    }
  }

  lemma AttemptSettlesPrimary(ctx: Context, j: Job, results: seq<InsertResult>, inserted: Table, a: GroupAnswers)
    requires j.opts.recipients != [] && a.StoreUp() && PrimaryKey(j) in inserted
    requires j.opts.groupRetryMode.RetryIndividually? ==> |results| == |j.opts.recipients|
    ensures var c := GroupAttempt(ctx, j, results, inserted, a);
            c.outcome.Delivered? || c.outcome.Refused? ==> Settled(c.rows, PrimaryKey(j))
  {
    var k := PrimaryKey(j);
    var filtered := AfterFilter(ctx, j, j.opts.recipients, inserted, a.blockUp, a.base.now);
    FilterRow(ctx, j, j.opts.recipients, inserted, a.blockUp, a.base.now, k);
    NobodyAdmitted(ctx, j.opts.recipients);
    var individually := j.opts.groupRetryMode.RetryIndividually?;
    var targets := [k] + if individually then Keys(j, Rest(Unsent(ctx, j, results))) else [];
    assert targets[0] == k;
    MarkAllRow(filtered, targets, a.sentUp, a.base.now, k);
  }

  lemma {:induction false} NobodyAdmitted(ctx: Context, rs: seq<Recipient>)
    ensures AdmittedOnly(ctx, rs) == [] <==> forall r :: r in rs ==> !Admitted(ctx, r)
  {
    if rs != [] {
      NobodyAdmitted(ctx, rs[..|rs| - 1]);
      assert rs == rs[..|rs| - 1] + [rs[|rs| - 1]];
    }
  }
}
