/** How the retry loops end, what they send and how they count, told from the answers and the
    row (crates/consumer/src/delivery.rs). */
module LoopEnds {
  import opened Common
  import opened Event
  import opened NotificationLog
  import opened RetryLoop
  import opened Processor
  import opened GroupSend
  import opened Delivery
  import opened Attempts

  // ── Giving up ─────────────────────────────────────────────────────────────

  /** Errors no further attempt can mend; and under the no-retry policy, every error. */
  predicate EndsAtOnce(policy: RetryPolicy, e: AppError) {
    || policy == NoRetry
    || e.TemplateError? || e.BlockedError? || e.NotFoundError? || e.DuplicateError? || e.UnknownStatusError?
    || e == MailerError(e.message, Permanent)
  }

  /** What a failure does to a loop: it ends it if the error does at once, if the retries or the
      rate-limit waits are used up, and if a shutdown comes during the sleep. */
  predicate FailureEnds(cfg: Config, policy: RetryPolicy, c: Counters, e: AppError, a: Answers) {
    || EndsAtOnce(policy, e) || c.attempt >= cfg.maxRetries
    || (e.RateLimitedError? && c.rlCount >= cfg.maxRlWaits) || a.shutdown
  }

  /** Otherwise a rate limit counts as a wait, and any other error as a retry that starts the
      waits anew. */
  function Counted(c: Counters, e: AppError): Counters {
    if e.RateLimitedError? then Counters(c.attempt, c.rlCount + 1) else Counters(c.attempt + 1, 0)
  }

  lemma FailureDecision(cfg: Config, policy: RetryPolicy, group: bool, c: Counters, e: AppError, a: Answers)
    ensures var d := Decide(cfg, policy, group, c, Failure(e));
            && (GoesOn(d, a) <==> !FailureEnds(cfg, policy, c, e, a))
            && (GoesOn(d, a) ==> d.counters == Counted(c, e))
            && ((d.GiveUp? && d.message == e.message) || (d.Backoff? && d.message == e.message))
            && (EndsAtOnce(policy, e) ==> d.GiveUp?)
  {
  }

  /** A failure that falls back belongs to groups: an attempt for one recipient never ends in one,
      and if it did the loop would give up. */
  lemma NoGroupFailure(ctx: Context, cfg: Config, j: Job, r: Recipient, rows: Table, c: Counters, a: Answers, e: AppError)
    ensures !RecipientCall(ctx, j, r, rows, a).outcome.GroupFailure?
    ensures Decide(cfg, j.opts.retryPolicy, false, c, GroupFailure(e)) == GiveUp(e.message)
  {
  }

  /** The loop's row after its last failure: FAILED, with that error's message. */
  predicate GivenUp(rows: Table, k: Key, e: AppError, a: Answers) {
    k in rows && a.failUp ==> rows[k].status.Failed? && rows[k].lastError == Some(e.message)
  }

  lemma ArmGivesUp(rows: Table, k: Key, d: Decision, o: Outcome, a: Answers)
    requires d.GiveUp? && o.Failure? && d.message == o.error.message
    ensures GivenUp(AfterArm(rows, k, d, o, a), k, o.error, a)
  {
  }

  /** One failing iteration: the loop ends exactly if `FailureEnds` says so, and otherwise goes
      on from the counted counters. */
  lemma FailureEndsIff(ctx: Context, cfg: Config, j: Job, r: Recipient, rows: Table, c: Counters, a: Answers,
                       rest: seq<Answers>)
    requires RecipientCall(ctx, j, r, rows, a).outcome.Failure?
    ensures var d := Drive(ctx, cfg, j, r, rows, c, [a] + rest);
            var e := RecipientCall(ctx, j, r, rows, a).outcome.error;
            if FailureEnds(cfg, j.opts.retryPolicy, c, e, a) then d.done && d.outcomes == [Failure(e)]
            else exists next :: d == After(RecipientCall(ctx, j, r, rows, a),
                                           Drive(ctx, cfg, j, r, next, Counted(c, e), rest))
  {
    var answers := [a] + rest;
    assert answers[1..] == rest;
    var o, next, tail := LoopStep(ctx, cfg, j, r, rows, c, answers);
    FailureDecision(cfg, j.opts.retryPolicy, false, c, o.error, a);
    assert [o] + [] == [o];
  }

  /** Outcome `i` is a failure that ends a loop at once. */
  predicate Hopeless(j: Job, outcomes: seq<Outcome>, i: nat) {
    i < |outcomes| && outcomes[i].Failure? && EndsAtOnce(j.opts.retryPolicy, outcomes[i].error)
  }

  /** Over a whole loop: such a failure is the last outcome, and leaves the row FAILED with its
      message.  Under the no-retry policy that is every failure. */
  lemma {:induction false} HopelessFailureEnds(ctx: Context, cfg: Config, j: Job, r: Recipient, rows: Table, c: Counters,
                                               answers: seq<Answers>, i: nat)
    requires Hopeless(j, Drive(ctx, cfg, j, r, rows, c, answers).outcomes, i)
    ensures var d := Drive(ctx, cfg, j, r, rows, c, answers);
            && d.done && i == |d.outcomes| - 1 && i < |answers|
            && GivenUp(d.rows, KeyOf(j, r), d.outcomes[i].error, answers[i])
    decreases |answers|
  {
    var o, next, rest := LoopStep(ctx, cfg, j, r, rows, c, answers);
    var d, a := Decide(cfg, j.opts.retryPolicy, false, c, o), answers[0];
    if i == 0 {
      FailureDecision(cfg, j.opts.retryPolicy, false, c, o.error, a);
      ArmGivesUp(RecipientCall(ctx, j, r, rows, a).rows, KeyOf(j, r), d, o, a);
    } else {
      assert rest.outcomes[i - 1] == ([o] + rest.outcomes)[i];
      HopelessFailureEnds(ctx, cfg, j, r, next, d.counters, answers[1..], i - 1);
    }
  }

  // ── The group loop ────────────────────────────────────────────────────────

  /** One iteration of the group loop: what it hears, and the rest of the loop. */
  lemma GroupStep(ctx: Context, cfg: Config, j: Job, rows: Table, c: Counters, answers: seq<GroupAnswers>)
    returns (o: Outcome, next: Table, rest: GroupDrive)
    requires answers != [] && j.opts.recipients != []
    ensures var a := answers[0];
            var call := GroupCall(ctx, j, cfg.maxRecipients, rows, a);
            var d := Decide(cfg, j.opts.retryPolicy, true, c, o);
            && o == call.outcome && next == AfterArm(call.rows, PrimaryKey(j), d, o, a.base)
            && DriveGroup(ctx, cfg, j, rows, c, answers) == GroupAfter(call, rest)
            && rest == if GoesOn(d, a.base) then DriveGroup(ctx, cfg, j, next, d.counters, answers[1..])
                       else Ended(next, !d.FallBack?, d.FallBack?)
  {
    var call := GroupCall(ctx, j, cfg.maxRecipients, rows, answers[0]);
    o := call.outcome;
    var d := Decide(cfg, j.opts.retryPolicy, true, c, o);
    next := AfterArm(call.rows, PrimaryKey(j), d, o, answers[0].base);
    rest := if GoesOn(d, answers[0].base) then DriveGroup(ctx, cfg, j, next, d.counters, answers[1..])
            else Ended(next, !d.FallBack?, d.FallBack?);
  }

  /** The same for a group loop and the primary's row. */
  lemma {:induction false} HopelessGroupFailureEnds(ctx: Context, cfg: Config, j: Job, rows: Table, c: Counters,
                                                    answers: seq<GroupAnswers>, i: nat)
    requires j.opts.recipients != [] && Hopeless(j, DriveGroup(ctx, cfg, j, rows, c, answers).outcomes, i)
    ensures var d := DriveGroup(ctx, cfg, j, rows, c, answers);
            && d.done && i == |d.outcomes| - 1 && i < |answers|
            && GivenUp(d.rows, PrimaryKey(j), d.outcomes[i].error, answers[i].base)
    decreases |answers|
  {
    assert answers != [];
    var o, next, rest := GroupStep(ctx, cfg, j, rows, c, answers);
    var d, a := Decide(cfg, j.opts.retryPolicy, true, c, o), answers[0].base;
    if i == 0 {
      FailureDecision(cfg, j.opts.retryPolicy, true, c, o.error, a);
      ArmGivesUp(GroupCall(ctx, j, cfg.maxRecipients, rows, answers[0]).rows, PrimaryKey(j), d, o, a);
    } else {
      assert rest.outcomes[i - 1] == ([o] + rest.outcomes)[i];
      HopelessGroupFailureEnds(ctx, cfg, j, next, d.counters, answers[1..], i - 1);
    }
  }

  /** One failing iteration of the group loop. */
  lemma GroupFailureEndsIff(ctx: Context, cfg: Config, j: Job, rows: Table, c: Counters, a: GroupAnswers,
                            rest: seq<GroupAnswers>)
    requires j.opts.recipients != [] && GroupCall(ctx, j, cfg.maxRecipients, rows, a).outcome.Failure?
    ensures var d := DriveGroup(ctx, cfg, j, rows, c, [a] + rest);
            var e := GroupCall(ctx, j, cfg.maxRecipients, rows, a).outcome.error;
            if FailureEnds(cfg, j.opts.retryPolicy, c, e, a.base) then
              d.done && !d.fellBack && d.outcomes == [Failure(e)]
            else exists next :: d == GroupAfter(GroupCall(ctx, j, cfg.maxRecipients, rows, a),
                                                DriveGroup(ctx, cfg, j, next, Counted(c, e), rest))
  {
    var answers := [a] + rest;
    assert answers[1..] == rest;
    var o, next, tail := GroupStep(ctx, cfg, j, rows, c, answers);
    FailureDecision(cfg, j.opts.retryPolicy, true, c, o.error, a.base);
    assert [o] + [] == [o];
  }

  /** One iteration, as far as falling back goes. */
  lemma FallbackStep(ctx: Context, cfg: Config, j: Job, rows: Table, c: Counters, answers: seq<GroupAnswers>)
    returns (o: Outcome, next: Table, c': Counters, rest: GroupDrive, goesOn: bool)
    requires answers != [] && j.opts.recipients != []
    ensures var d := DriveGroup(ctx, cfg, j, rows, c, answers);
            d.fellBack == rest.fellBack && d.done == rest.done && d.outcomes == [o] + rest.outcomes
    ensures rest == if goesOn then DriveGroup(ctx, cfg, j, next, c', answers[1..])
                    else Ended(next, !o.GroupFailure?, o.GroupFailure?)
    ensures goesOn ==> !o.GroupFailure?
  {
    o, next, rest := GroupStep(ctx, cfg, j, rows, c, answers);
    var d := Decide(cfg, j.opts.retryPolicy, true, c, o);
    goesOn := GoesOn(d, answers[0].base);
    c' := if goesOn then d.counters else c;
  }

  lemma LastOf(o: Outcome, os: seq<Outcome>)
    ensures ([o] + os)[|os|] == if os == [] then o else os[|os| - 1]
  {
  }

  /** The group loop falls back exactly if its last attempt failed with a row for everyone. */
  lemma {:induction false} FallsBackIff(ctx: Context, cfg: Config, j: Job, rows: Table, c: Counters,
                                        answers: seq<GroupAnswers>)
    requires j.opts.recipients != []
    ensures var d := DriveGroup(ctx, cfg, j, rows, c, answers);
            && (d.fellBack <==> d.outcomes != [] && d.outcomes[|d.outcomes| - 1].GroupFailure?)
            && !(d.fellBack && d.done)
    decreases |answers|
  {
    if answers != [] {
      var o, next, c', rest, goesOn := FallbackStep(ctx, cfg, j, rows, c, answers);
      LastOf(o, rest.outcomes);
      if goesOn {
        FallsBackIff(ctx, cfg, j, next, c', answers[1..]);
      }
    }
  }
}
