/** How often the loop for one recipient can fail before it returns, "still pending" answers
    in between included: those reseed its attempt counter from the row
    (crates/consumer/src/delivery.rs). */
module FailingCalls {
  import opened Common
  import opened Event
  import opened NotificationLog
  import opened RetryLoop
  import opened Processor
  import opened Delivery

  function Failures(os: seq<Outcome>): nat {
    if os == [] then 0 else (if os[0].Failure? then 1 else 0) + Failures(os[1..])
  }

  /** The recipient's retry count, if there is a row. */
  function RetryCountOf(rows: Table, k: Key): Option<nat> {
    if k in rows then Some(rows[k].retryCount) else None
  }

  function Max(m: nat, n: nat): nat {
    if m < n then n else m
  }

  /** Failing calls left at attempt counter `attempt`.  With a row, a "still pending" answer can
      set the counter back to the row's count.  Without one, the counter can first run up to
      its limit and the row then start from scratch, or one rate limit come for free. */
  function FailureBudget(cfg: Config, attempt: nat, retryCount: Option<nat>): nat {
    match retryCount
    case Some(n) =>
      var low := if n < attempt then n else attempt;
      if low >= cfg.maxRetries then 1 else cfg.maxRetries - low + 1
    case None =>
      if attempt >= cfg.maxRetries then 1
      else if attempt == 0 && cfg.maxRlWaits > 0 then Max(2 * cfg.maxRetries, cfg.maxRetries + 2)
      else 2 * cfg.maxRetries - attempt
  }

  predicate Recorded(a: Answers) {
    a.failUp && OnlySenderLimits(a)
  }

  /** What one attempt does to row and outcome, as far as the counters care. */
  predicate CountsAs(rows: Table, k: Key, c: CallResult) {
    if k in rows then
      c.rows == rows && !IsRateLimit(c.outcome)
      && (c.outcome.StillPending? ==> c.outcome.retryCount == rows[k].retryCount)
    else
      && !c.outcome.StillPending?
      && (k in c.rows ==> c.rows[k].retryCount == 0)
      && (k !in c.rows ==> c.rows == rows && !IsRateLimit(c.outcome))
  }

  lemma CallCounts(ctx: Context, j: Job, r: Recipient, rows: Table, a: Answers)
    requires OnlySenderLimits(a)
    ensures CountsAs(rows, KeyOf(j, r), RecipientCall(ctx, j, r, rows, a))
    ensures !RecipientCall(ctx, j, r, rows, a).outcome.GroupFailure?
  {
  }

  /** An iteration after which the loop goes on uses up budget if its call failed, and none
      otherwise. */
  lemma IterationSpends(cfg: Config, policy: RetryPolicy, rows: Table, k: Key, c: Counters, call: CallResult,
                        a: Answers)
    requires CountsAs(rows, k, call) && a.failUp
    requires GoesOn(Decide(cfg, policy, false, c, call.outcome), a)
    ensures var d := Decide(cfg, policy, false, c, call.outcome);
            var next := AfterArm(call.rows, k, d, call.outcome, a);
            (if call.outcome.Failure? then 1 else 0) + FailureBudget(cfg, d.counters.attempt, RetryCountOf(next, k))
            <= FailureBudget(cfg, c.attempt, RetryCountOf(rows, k))
  {
  }

  lemma AnyBudget(cfg: Config, attempt: nat, retryCount: Option<nat>)
    ensures FailureBudget(cfg, attempt, retryCount) >= 1
  {
  }

  /** If failures are recorded and nobody else writes the row, the loop fails no more often
      than its budget, however many "still pending" answers come in between. */
  lemma {:induction false} FailuresAreBounded(ctx: Context, cfg: Config, j: Job, r: Recipient, rows: Table, c: Counters,
                                              answers: seq<Answers>)
    requires forall a :: a in answers ==> Recorded(a)
    ensures Failures(Drive(ctx, cfg, j, r, rows, c, answers).outcomes)
            <= FailureBudget(cfg, c.attempt, RetryCountOf(rows, KeyOf(j, r)))
    decreases |answers|
  {
    AnyBudget(cfg, c.attempt, RetryCountOf(rows, KeyOf(j, r)));
    if answers != [] {
      var a, k := answers[0], KeyOf(j, r);
      assert Recorded(a);
      var o, next, rest := LoopStep(ctx, cfg, j, r, rows, c, answers);
      CallCounts(ctx, j, r, rows, a);
      var d := Decide(cfg, j.opts.retryPolicy, false, c, o);
      assert ([o] + rest.outcomes)[1..] == rest.outcomes;
      if GoesOn(d, a) {
        IterationSpends(cfg, j.opts.retryPolicy, rows, k, c, RecipientCall(ctx, j, r, rows, a), a);
        FailuresAreBounded(ctx, cfg, j, r, next, d.counters, answers[1..]);
      }
    }
  }

  /** The bound for a whole loop: twice max_retries, or max_retries + 2 if that is more and a
      rate-limit wait is allowed, or one call if no retry is. */
  function WholeFailureBudget(cfg: Config): nat {
    FailureBudget(cfg, 0, None)
  }

  lemma LoopFailsAtMost(ctx: Context, cfg: Config, j: Job, r: Recipient, rows: Table, answers: seq<Answers>)
    requires forall a :: a in answers ==> Recorded(a)
    ensures Failures(Drive(ctx, cfg, j, r, rows, Counters(0, 0), answers).outcomes) <= WholeFailureBudget(cfg)
    ensures WholeFailureBudget(cfg) ==
            if cfg.maxRetries == 0 then 1
            else if cfg.maxRlWaits == 0 then 2 * cfg.maxRetries
            else Max(2 * cfg.maxRetries, cfg.maxRetries + 2)
  {
    FailuresAreBounded(ctx, cfg, j, r, rows, Counters(0, 0), answers);
  }

  // ── The bound is reached ──────────────────────────────────────────────────

  /** Everything works but the mail sender. */
  const FAILED_SEND := LIMITED_SEND.(send := Err(MailerError("timeout", Transient)))

  /** Nothing but the recipient and the static filter stands between the loop and its insert. */
  predicate Deliverable(ctx: Context, j: Job, r: Recipient) {
    && ctx.validEmail(r.email) && BlockReason(ctx.filter.Check(r.email)).None?
    && (j.opts.fromOverride.Some? ==> ctx.validEmail(j.opts.fromOverride.value.email))
    && j.opts.retryPolicy.Retry?
  }

  lemma {:induction false} AllFail(os: seq<Outcome>)
    requires forall o :: o in os ==> o.Failure?
    ensures Failures(os) == |os|
  {
    if os != [] {
      assert os[0] in os;
      AllFail(os[1..]);
    }
  }

  /** `whole` is a loop that first hears `o` and then is `rest`. */
  predicate Hears(whole: DriveResult, o: Outcome, rest: DriveResult) {
    whole.outcomes == [o] + rest.outcomes && whole.done == rest.done
  }

  lemma HearsCounts(whole: DriveResult, o: Outcome, rest: DriveResult)
    requires Hears(whole, o, rest)
    ensures Failures(whole.outcomes) == (if o.Failure? then 1 else 0) + Failures(rest.outcomes)
  {
    assert ([o] + rest.outcomes)[1..] == rest.outcomes;
  }

  const SEND_FAILED: Outcome := TRANSIENT

  /** A waiting row with this retry count. */
  predicate Waits(rows: Table, k: Key, n: nat) {
    k in rows && rows[k].status.Pending? && rows[k].retryCount == n
  }

  /** The attempt that creates the row ends in a failed send, recorded or not. */
  lemma CreatingCall(ctx: Context, j: Job, r: Recipient, rows: Table, up: bool)
    requires Deliverable(ctx, j, r) && KeyOf(j, r) !in rows
    ensures var c := RecipientCall(ctx, j, r, rows, FAILED_SEND.(failUp := up));
            c.outcome == SEND_FAILED && Waits(c.rows, KeyOf(j, r), 0)
  {
  }

  lemma AfterFailedSend(cfg: Config, policy: RetryPolicy, k: Key, c: Counters, call: CallResult, a: Answers)
    requires call.outcome == SEND_FAILED && Waits(call.rows, k, 0)
    requires policy.Retry? && c.attempt < cfg.maxRetries && !a.shutdown
    ensures var d := Decide(cfg, policy, false, c, call.outcome);
            && GoesOn(d, a) && d.counters == Counters(c.attempt + 1, 0)
            && Waits(AfterArm(call.rows, k, d, call.outcome, a), k, if a.failUp then 1 else 0)
  {
  }

  /** The table the loop sleeps on after that. */
  function AfterCreating(ctx: Context, cfg: Config, j: Job, r: Recipient, rows: Table, c: Counters, up: bool): Table {
    var a := FAILED_SEND.(failUp := up);
    var call := RecipientCall(ctx, j, r, rows, a);
    AfterArm(call.rows, KeyOf(j, r), Decide(cfg, j.opts.retryPolicy, false, c, call.outcome), call.outcome, a)
  }

  lemma Creates(ctx: Context, cfg: Config, j: Job, r: Recipient, rows: Table, c: Counters, up: bool, rest: seq<Answers>)
    returns (next: Table)
    requires Deliverable(ctx, j, r) && KeyOf(j, r) !in rows && c.attempt < cfg.maxRetries
    ensures Hears(Drive(ctx, cfg, j, r, rows, c, [FAILED_SEND.(failUp := up)] + rest), SEND_FAILED,
                  Drive(ctx, cfg, j, r, next, Counters(c.attempt + 1, 0), rest))
    ensures next == AfterCreating(ctx, cfg, j, r, rows, c, up) && Waits(next, KeyOf(j, r), if up then 1 else 0)
  {
    var answers := [FAILED_SEND.(failUp := up)] + rest;
    CreatingCall(ctx, j, r, rows, up);
    AfterFailedSend(cfg, j.opts.retryPolicy, KeyOf(j, r), c, RecipientCall(ctx, j, r, rows, answers[0]), answers[0]);
    assert answers[1..] == rest;
    var o, after;
    o, next, after := LoopStep(ctx, cfg, j, r, rows, c, answers);
  }

  lemma StaysPending(ctx: Context, cfg: Config, j: Job, r: Recipient, rows: Table, c: Counters, n: nat,
                     rest: seq<Answers>)
    requires Deliverable(ctx, j, r) && Waits(rows, KeyOf(j, r), n)
    ensures Hears(Drive(ctx, cfg, j, r, rows, c, [FAILED_SEND] + rest), StillPending(n),
                  Drive(ctx, cfg, j, r, rows, c.(attempt := n), rest))
  {
    var answers := [FAILED_SEND] + rest;
    assert RecipientCall(ctx, j, r, rows, FAILED_SEND) == CallResult(rows, StillPending(n), []);
    var o, next, after := LoopStep(ctx, cfg, j, r, rows, c, answers);
    assert answers[1..] == rest;
  }

  /** A failure before the insert, below the retry limit. */
  lemma FailsEarly(ctx: Context, cfg: Config, j: Job, r: Recipient, rows: Table, c: Counters, up: bool,
                   rest: seq<Answers>)
    returns (next: Table)
    requires ctx.validEmail(r.email) && j.opts.retryPolicy.Retry? && c.attempt < cfg.maxRetries
    ensures Hears(Drive(ctx, cfg, j, r, rows, c, [EARLY_FAILURE.(failUp := up)] + rest), Failure(DATABASE_GONE),
                  Drive(ctx, cfg, j, r, next, Counters(c.attempt + 1, 0), rest))
    ensures !up || KeyOf(j, r) !in rows ==> next == rows
  {
    var answers := [EARLY_FAILURE.(failUp := up)] + rest;
    EarlyCall(ctx, j, r, rows, up);
    assert answers[1..] == rest;
    var o, after;
    o, next, after := LoopStep(ctx, cfg, j, r, rows, c, answers);
  }

  lemma EarlyCall(ctx: Context, j: Job, r: Recipient, rows: Table, up: bool)
    requires ctx.validEmail(r.email)
    ensures RecipientCall(ctx, j, r, rows, EARLY_FAILURE.(failUp := up)) == CallResult(rows, Failure(DATABASE_GONE), [])
  {
  }

  function Early(n: nat): seq<Answers> {
    seq(n, _ => EARLY_FAILURE)
  }

  /** The row's creation fails, and one "still pending" answer later the database is away
      through all retries the row's count leaves. */
  lemma CreatedThenEarly(ctx: Context, cfg: Config, j: Job, r: Recipient, rows: Table, c: Counters)
    requires Deliverable(ctx, j, r) && KeyOf(j, r) !in rows && c.attempt < cfg.maxRetries
    ensures Failures(Drive(ctx, cfg, j, r, rows, c, [FAILED_SEND] + ([FAILED_SEND] + Early(cfg.maxRetries))).outcomes)
            == cfg.maxRetries + 1
  {
    var rest := Early(cfg.maxRetries);
    var next := Creates(ctx, cfg, j, r, rows, c, true, [FAILED_SEND] + rest);
    assert FAILED_SEND.(failUp := true) == FAILED_SEND;
    StaysPending(ctx, cfg, j, r, next, Counters(c.attempt + 1, 0), 1, rest);
    EarlyToTheEnd(ctx, cfg, j, r, next);
    var d0 := Drive(ctx, cfg, j, r, rows, c, [FAILED_SEND] + ([FAILED_SEND] + rest));
    var d1 := Drive(ctx, cfg, j, r, next, Counters(c.attempt + 1, 0), [FAILED_SEND] + rest);
    var d2 := Drive(ctx, cfg, j, r, next, Counters(1, 0), rest);
    HearsCounts(d0, SEND_FAILED, d1);
    HearsCounts(d1, StillPending(1), d2);
  }

  lemma EarlyToTheEnd(ctx: Context, cfg: Config, j: Job, r: Recipient, rows: Table)
    requires Deliverable(ctx, j, r) && cfg.maxRetries > 0
    ensures Failures(Drive(ctx, cfg, j, r, rows, Counters(1, 0), Early(cfg.maxRetries)).outcomes) == cfg.maxRetries
  {
    EarlyFailuresSpendRetries(ctx, cfg, j, r, rows, Counters(1, 0));
    AllFail(Drive(ctx, cfg, j, r, rows, Counters(1, 0), Early(cfg.maxRetries)).outcomes);
  }

  /** Before that, the database is away for as long as the counter allows. */
  lemma {:induction false} EarlyThenCreated(ctx: Context, cfg: Config, j: Job, r: Recipient, rows: Table, c: Counters)
    returns (answers: seq<Answers>)
    requires Deliverable(ctx, j, r) && KeyOf(j, r) !in rows && c.attempt < cfg.maxRetries
    ensures forall a :: a in answers ==> Recorded(a) && !a.shutdown
    ensures Failures(Drive(ctx, cfg, j, r, rows, c, answers).outcomes) == 2 * cfg.maxRetries - c.attempt
    decreases cfg.maxRetries - c.attempt
  {
    if c.attempt + 1 == cfg.maxRetries {
      answers := [FAILED_SEND] + ([FAILED_SEND] + Early(cfg.maxRetries));
      CreatedThenEarly(ctx, cfg, j, r, rows, c);
    } else {
      var rest := EarlyThenCreated(ctx, cfg, j, r, rows, Counters(c.attempt + 1, 0));
      answers := [EARLY_FAILURE] + rest;
      assert EARLY_FAILURE.(failUp := true) == EARLY_FAILURE;
      var next := FailsEarly(ctx, cfg, j, r, rows, c, true, rest);
      HearsCounts(Drive(ctx, cfg, j, r, rows, c, answers), Failure(DATABASE_GONE),
                  Drive(ctx, cfg, j, r, rows, Counters(c.attempt + 1, 0), rest));
    }
  }

  /** The bound is exact for every configuration. */
  lemma FailureBudgetIsReached(ctx: Context, cfg: Config, j: Job, r: Recipient, rows: Table)
    requires Deliverable(ctx, j, r) && KeyOf(j, r) !in rows
    ensures exists answers :: (forall a :: a in answers ==> Recorded(a) && !a.shutdown)
                              && Failures(Drive(ctx, cfg, j, r, rows, Counters(0, 0), answers).outcomes)
                                 == WholeFailureBudget(cfg)
  {
    if cfg.maxRetries == 0 || (cfg.maxRetries == 1 && cfg.maxRlWaits > 0) {
      ComposedBudgetIsReached(ctx, cfg, j, r, rows);
      var answers :| SpendsAll(ctx, cfg, j, r, rows, answers);
      AllFail(Drive(ctx, cfg, j, r, rows, Counters(0, 0), answers).outcomes);
    } else {
      var answers := EarlyThenCreated(ctx, cfg, j, r, rows, Counters(0, 0));
    }
  }

  // ── Lost failure marks ────────────────────────────────────────────────────

  /** While the failure marks of a waiting row are lost, each "still pending" answer gives the
      loop its retries back. */
  lemma {:induction false} LostMarksFailOn(ctx: Context, cfg: Config, j: Job, r: Recipient, rows: Table, c: Counters,
                                           q: nat, n: nat)
    returns (answers: seq<Answers>)
    requires Deliverable(ctx, j, r) && Waits(rows, KeyOf(j, r), q) && q < cfg.maxRetries
    ensures forall a :: a in answers ==> OnlySenderLimits(a)
    ensures var d := Drive(ctx, cfg, j, r, rows, c, answers); !d.done && Failures(d.outcomes) == n
    decreases n
  {
    if n == 0 {
      answers := [];
    } else {
      var lost := EARLY_FAILURE.(failUp := false);
      var rest := LostMarksFailOn(ctx, cfg, j, r, rows, Counters(q + 1, 0), q, n - 1);
      answers := [FAILED_SEND] + ([lost] + rest);
      FailsOnceMore(ctx, cfg, j, r, rows, c, q, rest);
    }
  }

  lemma FailsOnceMore(ctx: Context, cfg: Config, j: Job, r: Recipient, rows: Table, c: Counters, q: nat,
                      rest: seq<Answers>)
    requires Deliverable(ctx, j, r) && Waits(rows, KeyOf(j, r), q) && q < cfg.maxRetries
    ensures var d := Drive(ctx, cfg, j, r, rows, c, [FAILED_SEND] + ([EARLY_FAILURE.(failUp := false)] + rest));
            var e := Drive(ctx, cfg, j, r, rows, Counters(q + 1, 0), rest);
            d.done == e.done && Failures(d.outcomes) == Failures(e.outcomes) + 1
  {
    var lost := EARLY_FAILURE.(failUp := false);
    StaysPending(ctx, cfg, j, r, rows, c, q, [lost] + rest);
    var next := FailsEarly(ctx, cfg, j, r, rows, c.(attempt := q), false, rest);
    var d1 := Drive(ctx, cfg, j, r, rows, c.(attempt := q), [lost] + rest);
    HearsCounts(Drive(ctx, cfg, j, r, rows, c, [FAILED_SEND] + ([lost] + rest)), StillPending(q), d1);
    HearsCounts(d1, Failure(DATABASE_GONE), Drive(ctx, cfg, j, r, rows, Counters(q + 1, 0), rest));
  }

  lemma LostMarksFromScratch(ctx: Context, cfg: Config, j: Job, r: Recipient, rows: Table, n: nat)
    requires Deliverable(ctx, j, r) && KeyOf(j, r) !in rows && cfg.maxRetries > 0
    ensures CanFail(ctx, cfg, j, r, rows, n)
  {
    var one := FAILED_SEND.(failUp := false);
    var next := Creates(ctx, cfg, j, r, rows, Counters(0, 0), false, []);
    var rest := LostMarksFailOn(ctx, cfg, j, r, next, Counters(1, 0), 0, n);
    var answers := [one] + rest;
    var after := Creates(ctx, cfg, j, r, rows, Counters(0, 0), false, rest);
    HearsCounts(Drive(ctx, cfg, j, r, rows, Counters(0, 0), answers), SEND_FAILED,
                Drive(ctx, cfg, j, r, next, Counters(1, 0), rest));
    assert FailsOn(ctx, cfg, j, r, rows, answers, n);
  }

  /** The loop fails at least `n` times and is still running. */
  ghost predicate FailsOn(ctx: Context, cfg: Config, j: Job, r: Recipient, rows: Table, answers: seq<Answers>, n: nat) {
    && (forall a :: a in answers ==> OnlySenderLimits(a))
    && var d := Drive(ctx, cfg, j, r, rows, Counters(0, 0), answers); !d.done && Failures(d.outcomes) >= n
  }

  ghost predicate CanFail(ctx: Context, cfg: Config, j: Job, r: Recipient, rows: Table, n: nat) {
    exists answers :: FailsOn(ctx, cfg, j, r, rows, answers, n)
  }

  /** So without recorded failures nothing bounds the failing calls of a loop, unless no retry
      is allowed at all. */
  lemma LostMarksUnboundIff(ctx: Context, cfg: Config, j: Job, r: Recipient, rows: Table)
    requires Deliverable(ctx, j, r) && KeyOf(j, r) !in rows
    ensures (forall n: nat :: CanFail(ctx, cfg, j, r, rows, n)) <==> cfg.maxRetries > 0
  {
    if cfg.maxRetries > 0 {
      forall n: nat ensures CanFail(ctx, cfg, j, r, rows, n) {
        LostMarksFromScratch(ctx, cfg, j, r, rows, n);
      }
    } else {
      forall answers ensures !FailsOn(ctx, cfg, j, r, rows, answers, 1) {
        NoRetryNoFailure(ctx, cfg, j, r, rows, Counters(0, 0), answers);
      }
      assert !CanFail(ctx, cfg, j, r, rows, 1);
    }
  }

  /** Where no retry is allowed a failing call ends the loop. */
  lemma {:induction false} NoRetryNoFailure(ctx: Context, cfg: Config, j: Job, r: Recipient, rows: Table, c: Counters,
                                            answers: seq<Answers>)
    requires cfg.maxRetries == 0
    ensures var d := Drive(ctx, cfg, j, r, rows, c, answers); d.done || Failures(d.outcomes) == 0
    decreases |answers|
  {
    if answers != [] {
      var o, next, rest := LoopStep(ctx, cfg, j, r, rows, c, answers);
      HearsCounts(Drive(ctx, cfg, j, r, rows, c, answers), o, rest);
      var d := Decide(cfg, j.opts.retryPolicy, false, c, o);
      if GoesOn(d, answers[0]) {
        NoRetryNoFailure(ctx, cfg, j, r, next, d.counters, answers[1..]);
      }
    }
  }
}
