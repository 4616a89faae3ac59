/** Which messages the loops of an event send, and how they show in the status table
    (crates/consumer/src/delivery.rs, crates/consumer/src/processor.rs). */
module Mailing {
  import opened Common
  import opened Event
  import opened NotificationLog
  import opened RetryLoop
  import opened Processor
  import opened GroupSend
  import opened Delivery
  import opened Attempts
  import opened LoopEnds

  // ── One recipient ─────────────────────────────────────────────────────────

  /** The message was made in this attempt, for `to`, and the attempt ended as the sender
      answered. */
  ghost predicate SentIn(j: Job, m: EmailMessage, to: seq<Recipient>, a: Answers, o: Outcome) {
    && a.token && a.rendered == Ok(m.body) && IsMail(j, m, to, m.body)
    && o == match a.send case Ok(_) => Delivered case Err(e) => Failure(e)
  }

  /** Attempt `i` of the loop sent the message. */
  ghost predicate SentAt(j: Job, m: EmailMessage, to: seq<Recipient>, answers: seq<Answers>, outcomes: seq<Outcome>,
                         i: nat) {
    i < |outcomes| <= |answers| && SentIn(j, m, to, answers[i], outcomes[i])
  }

  lemma AttemptMail(ctx: Context, j: Job, r: Recipient, rows: Table, a: Answers)
    ensures var c := RecipientCall(ctx, j, r, rows, a);
            && |c.sent| <= 1 && (c.sent != [] ==> SentIn(j, c.sent[0], [r], a, c.outcome))
            && (c.outcome.Delivered? ==> c.sent != [])
  {
    if StoppedBy(ctx, j, r, a).Some? {
      StoppedAttempt(ctx, j, r, rows, a);
    } else if KeyOf(j, r) in rows {
      AttemptOnRow(ctx, j, r, rows, a);
    } else {
      FreshAttempt(ctx, j, r, rows, a);
    }
  }

  /** Every message was made in one of the attempts. */
  ghost predicate AllSentIn(j: Job, sent: seq<EmailMessage>, to: seq<Recipient>, answers: seq<Answers>,
                            outcomes: seq<Outcome>) {
    forall m :: m in sent ==> exists i: nat :: SentAt(j, m, to, answers, outcomes, i)
  }

  lemma MailOfStep(j: Job, first: seq<EmailMessage>, later: seq<EmailMessage>, to: seq<Recipient>, answers: seq<Answers>,
                   o: Outcome, os: seq<Outcome>)
    requires answers != [] && |os| < |answers|
    requires forall m :: m in first ==> SentIn(j, m, to, answers[0], o)
    requires AllSentIn(j, later, to, answers[1..], os)
    ensures AllSentIn(j, first + later, to, answers, [o] + os)
  {
    forall m | m in first + later ensures exists i: nat :: SentAt(j, m, to, answers, [o] + os, i) {
      if m in first {
        assert SentAt(j, m, to, answers, [o] + os, 0);
      } else {
        var i: nat :| SentAt(j, m, to, answers[1..], os, i);
        assert SentAt(j, m, to, answers, [o] + os, i + 1);
      }
    }
  }

  /** Every message of a loop was made in one of its attempts, for its own recipient alone, with
      what that attempt rendered and the event's own fields. */
  lemma {:induction false} LoopMail(ctx: Context, cfg: Config, j: Job, r: Recipient, rows: Table, c: Counters,
                                    answers: seq<Answers>)
    ensures var d := Drive(ctx, cfg, j, r, rows, c, answers);
            |d.outcomes| <= |answers| && AllSentIn(j, d.sent, [r], answers, d.outcomes)
    decreases |answers|
  {
    if answers != [] {
      var o, next, rest := LoopStep(ctx, cfg, j, r, rows, c, answers);
      var d := Decide(cfg, j.opts.retryPolicy, false, c, o);
      AttemptMail(ctx, j, r, rows, answers[0]);
      if GoesOn(d, answers[0]) {
        LoopMail(ctx, cfg, j, r, next, d.counters, answers[1..]);
      }
      MailOfStep(j, RecipientCall(ctx, j, r, rows, answers[0]).sent, rest.sent, [r], answers, o, rest.outcomes);
    }
  }

  /** `k` was not SENT and is. */
  predicate TurnedSent(rows: Table, t: Table, k: Key) {
    k in t && t[k].status.Sent? && !(k in rows && rows[k].status.Sent?)
  }

  lemma AttemptTurnsSent(ctx: Context, j: Job, r: Recipient, rows: Table, a: Answers)
    ensures var c := RecipientCall(ctx, j, r, rows, a);
            && (TurnedSent(rows, c.rows, KeyOf(j, r)) <==> c.outcome.Delivered? && a.markUp)
  {
    if StoppedBy(ctx, j, r, a).Some? {
      StoppedAttempt(ctx, j, r, rows, a);
    } else if KeyOf(j, r) in rows {
      AttemptOnRow(ctx, j, r, rows, a);
    } else {
      FreshAttempt(ctx, j, r, rows, a);
    }
  }

  lemma ArmUnsends(rows: Table, k: Key, d: Decision, o: Outcome, a: Answers)
    ensures !TurnedSent(rows, AfterArm(rows, k, d, o, a), k)
    ensures d.Stop? ==> AfterArm(rows, k, d, o, a) == rows
  {
  }

  /** The loop's last attempt was delivered. */
  predicate EndsDelivered(outcomes: seq<Outcome>) {
    outcomes != [] && outcomes[|outcomes| - 1].Delivered?
  }

  lemma EndsDeliveredStep(o: Outcome, os: seq<Outcome>)
    ensures EndsDelivered([o] + os) <==> if os == [] then o.Delivered? else EndsDelivered(os)
  {
  }

  lemma SentBySomeone(rows: Table, t: Table, u: Table, k: Key)
    ensures TurnedSent(rows, u, k) ==> TurnedSent(rows, t, k) || TurnedSent(t, u, k)
  {
  }

  /** One iteration turns the row SENT exactly if its attempt is delivered and marked. */
  lemma StepTurnsSent(ctx: Context, cfg: Config, j: Job, r: Recipient, rows: Table, c: Counters, a: Answers)
    ensures var call, k := RecipientCall(ctx, j, r, rows, a), KeyOf(j, r);
            var d := Decide(cfg, j.opts.retryPolicy, false, c, call.outcome);
            var next := AfterArm(call.rows, k, d, call.outcome, a);
            && (TurnedSent(rows, next, k) ==> call.outcome.Delivered? && a.markUp)
            && (call.outcome.Delivered? ==> !GoesOn(d, a))
            && (call.outcome.Delivered? && a.markUp ==> k in next && next[k].status.Sent?)
  {
    var call, k := RecipientCall(ctx, j, r, rows, a), KeyOf(j, r);
    var d := Decide(cfg, j.opts.retryPolicy, false, c, call.outcome);
    AttemptTurnsSent(ctx, j, r, rows, a);
    ArmUnsends(call.rows, k, d, call.outcome, a);
    SentBySomeone(rows, call.rows, AfterArm(call.rows, k, d, call.outcome, a), k);
  }

  /** Attempts counted beyond failures: the deliveries. */
  function Surplus(rows: Table, k: Key): int {
    if k in rows then rows[k].totalAttempts - rows[k].retryCount else 0
  }

  lemma AttemptTally(ctx: Context, j: Job, r: Recipient, rows: Table, a: Answers)
    ensures var c, k := RecipientCall(ctx, j, r, rows, a), KeyOf(j, r);
            Surplus(c.rows, k) == Surplus(rows, k) + if c.outcome.Delivered? && a.markUp then 1 else 0
  {
    if StoppedBy(ctx, j, r, a).Some? {
      StoppedAttempt(ctx, j, r, rows, a);
    } else if KeyOf(j, r) in rows {
      AttemptOnRow(ctx, j, r, rows, a);
    } else {
      FreshAttempt(ctx, j, r, rows, a);
    }
  }

  lemma ArmTally(rows: Table, k: Key, d: Decision, o: Outcome, a: Answers)
    ensures Surplus(AfterArm(rows, k, d, o, a), k) == Surplus(rows, k)
  {
  }

  lemma StepTally(ctx: Context, cfg: Config, j: Job, r: Recipient, rows: Table, c: Counters, a: Answers)
    ensures var call, k := RecipientCall(ctx, j, r, rows, a), KeyOf(j, r);
            var d := Decide(cfg, j.opts.retryPolicy, false, c, call.outcome);
            Surplus(AfterArm(call.rows, k, d, call.outcome, a), k)
            == Surplus(rows, k) + if call.outcome.Delivered? && a.markUp then 1 else 0
    ensures RecipientCall(ctx, j, r, rows, a).outcome.Delivered? ==>
              !GoesOn(Decide(cfg, j.opts.retryPolicy, false, c, RecipientCall(ctx, j, r, rows, a).outcome), a)
  {
    var call := RecipientCall(ctx, j, r, rows, a);
    AttemptTally(ctx, j, r, rows, a);
    ArmTally(call.rows, KeyOf(j, r), Decide(cfg, j.opts.retryPolicy, false, c, call.outcome), call.outcome, a);
  }

  /** One iteration, as far as deliveries go: `delivered` says whether its attempt was one. */
  lemma DeliveryStep(ctx: Context, cfg: Config, j: Job, r: Recipient, rows: Table, c: Counters, answers: seq<Answers>)
    returns (delivered: bool, next: Table, c': Counters, rest: DriveResult, goesOn: bool)
    requires answers != []
    ensures var d := Drive(ctx, cfg, j, r, rows, c, answers);
            && d.rows == rest.rows && d.done == rest.done && |d.outcomes| == |rest.outcomes| + 1
            && (EndsDelivered(d.outcomes) <==> if rest.outcomes == [] then delivered else EndsDelivered(rest.outcomes))
            && (delivered ==> d.sent != [] && !goesOn) && |d.sent| <= 1 && (rest.sent != [] ==> d.sent != [])
    ensures rest == if goesOn then Drive(ctx, cfg, j, r, next, c', answers[1..]) else DriveResult(next, [], [], true)
    ensures var k, a := KeyOf(j, r), answers[0];
            && (TurnedSent(rows, next, k) ==> delivered && a.markUp)
            && (delivered && a.markUp ==> k in next && next[k].status.Sent?)
            && Surplus(next, k) == Surplus(rows, k) + if delivered && a.markUp then 1 else 0
  {
    var o;
    o, next, rest := LoopStep(ctx, cfg, j, r, rows, c, answers);
    var d := Decide(cfg, j.opts.retryPolicy, false, c, o);
    delivered, goesOn := o.Delivered?, GoesOn(d, answers[0]);
    c' := if goesOn then d.counters else c;
    AttemptMail(ctx, j, r, rows, answers[0]);
    StepTurnsSent(ctx, cfg, j, r, rows, c, answers[0]);
    StepTally(ctx, cfg, j, r, rows, c, answers[0]);
    EndsDeliveredStep(o, rest.outcomes);
    LoopSendsAtMostOnce(ctx, cfg, j, r, rows, c, answers);
  }

  /** A loop turns its row SENT only if its last attempt was delivered and the mark applied. */
  lemma {:induction false} LoopTurnsSent(ctx: Context, cfg: Config, j: Job, r: Recipient, rows: Table, c: Counters,
                                         answers: seq<Answers>)
    requires TurnedSent(rows, Drive(ctx, cfg, j, r, rows, c, answers).rows, KeyOf(j, r))
    ensures var d := Drive(ctx, cfg, j, r, rows, c, answers);
            EndsDelivered(d.outcomes) && |d.outcomes| <= |answers| && answers[|d.outcomes| - 1].markUp
    decreases |answers|
  {
    var delivered, next, c', rest, goesOn := DeliveryStep(ctx, cfg, j, r, rows, c, answers);
    if goesOn {
      SentBySomeone(rows, next, rest.rows, KeyOf(j, r));
      LoopTurnsSent(ctx, cfg, j, r, next, c', answers[1..]);
    }
  }

  /** And one whose last attempt was delivered has returned, has sent its message, and leaves
      the row SENT if the mark was applied. */
  lemma {:induction false} DeliveredLoop(ctx: Context, cfg: Config, j: Job, r: Recipient, rows: Table, c: Counters,
                                         answers: seq<Answers>)
    requires EndsDelivered(Drive(ctx, cfg, j, r, rows, c, answers).outcomes)
    ensures var d := Drive(ctx, cfg, j, r, rows, c, answers);
            && d.done && |d.sent| == 1 && |d.outcomes| <= |answers|
            && (answers[|d.outcomes| - 1].markUp ==> KeyOf(j, r) in d.rows && d.rows[KeyOf(j, r)].status.Sent?)
    decreases |answers|
  {
    var delivered, next, c', rest, goesOn := DeliveryStep(ctx, cfg, j, r, rows, c, answers);
    if goesOn {
      DeliveredLoop(ctx, cfg, j, r, next, c', answers[1..]);
    }
  }

  // ── The tally ─────────────────────────────────────────────────────────────

  /** The row's two counters stay in step: a failure raises both, and a recorded delivery raises
      the number of attempts alone. */
  lemma {:induction false} LoopTally(ctx: Context, cfg: Config, j: Job, r: Recipient, rows: Table, c: Counters,
                                     answers: seq<Answers>)
    ensures var d, k := Drive(ctx, cfg, j, r, rows, c, answers), KeyOf(j, r);
            var n := |d.outcomes|;
            && n <= |answers|
            && Surplus(d.rows, k) == Surplus(rows, k)
               + if EndsDelivered(d.outcomes) && answers[n - 1].markUp then 1 else 0
    decreases |answers|
  {
    if answers != [] {
      var delivered, next, c', rest, goesOn := DeliveryStep(ctx, cfg, j, r, rows, c, answers);
      if goesOn {
        LoopTally(ctx, cfg, j, r, next, c', answers[1..]);
      }
    }
  }

  // ── Individual dispatch ───────────────────────────────────────────────────

  /** How many of the messages go to the address. */
  function MailsTo(sent: seq<EmailMessage>, email: Email): nat {
    if sent == [] then 0
    else MailsTo(sent[..|sent| - 1], email) + if sent[|sent| - 1].To()[0].email == email then 1 else 0
  }

  lemma {:induction false} MailsToSplits(xs: seq<EmailMessage>, ys: seq<EmailMessage>, email: Email)
    ensures MailsTo(xs + ys, email) == MailsTo(xs, email) + MailsTo(ys, email)
  {
    if ys == [] {
      assert xs + ys == xs;
    } else {
      MailsToSplits(xs, ys[..|ys| - 1], email);
      assert (xs + ys)[..|xs + ys| - 1] == xs + ys[..|ys| - 1];
    }
  }

  lemma {:induction false} SendLeavesRow(ctx: Context, cfg: Config, j: Job, r: Recipient, rows: Table, c: Counters,
                                         answers: seq<Answers>)
    requires Drive(ctx, cfg, j, r, rows, c, answers).sent != []
    ensures KeyOf(j, r) in Drive(ctx, cfg, j, r, rows, c, answers).rows
    decreases |answers|
  {
    var o, next, rest := LoopStep(ctx, cfg, j, r, rows, c, answers);
    var d := Decide(cfg, j.opts.retryPolicy, false, c, o);
    var call := RecipientCall(ctx, j, r, rows, answers[0]);
    SendNeedsFreshRow(ctx, j, r, rows, answers[0]);
    ArmKeepsKeys(call.rows, KeyOf(j, r), d, o, answers[0]);
    assert KeyOf(j, r) in next.Keys <==> KeyOf(j, r) in call.rows.Keys;
    if GoesOn(d, answers[0]) {
      if call.sent != [] {
        OnlyOwnRow(ctx, cfg, j, r, next, d.counters, answers[1..]);
      } else {
        SendLeavesRow(ctx, cfg, j, r, next, d.counters, answers[1..]);
      }
    }
  }

  /** What a whole loop for `r` means for the mail of one address. */
  lemma LoopMailTo(ctx: Context, cfg: Config, j: Job, r: Recipient, rows: Table, answers: seq<Answers>, email: Email)
    ensures var d, k := Drive(ctx, cfg, j, r, rows, Counters(0, 0), answers), Key(j.event.id, email);
            && (k in rows ==> k in d.rows)
            && MailsTo(d.sent, email) <= (if email == r.email && k !in rows then 1 else 0)
            && (MailsTo(d.sent, email) > 0 ==> k in d.rows)
            && (TurnedSent(rows, d.rows, k) ==> MailsTo(d.sent, email) == 1)
  {
    var d, k := Drive(ctx, cfg, j, r, rows, Counters(0, 0), answers), Key(j.event.id, email);
    OnlyOwnRow(ctx, cfg, j, r, rows, Counters(0, 0), answers);
    LoopMail(ctx, cfg, j, r, rows, Counters(0, 0), answers);
    LoopSendsAtMostOnce(ctx, cfg, j, r, rows, Counters(0, 0), answers);
    if d.sent != [] {
      SendLeavesRow(ctx, cfg, j, r, rows, Counters(0, 0), answers);
      assert d.sent[0] in d.sent;
      OneMail(d.sent, email);
    }
    if TurnedSent(rows, d.rows, k) {
      assert k == KeyOf(j, r);
      LoopTurnsSent(ctx, cfg, j, r, rows, Counters(0, 0), answers);
      DeliveredLoop(ctx, cfg, j, r, rows, Counters(0, 0), answers);
    }
  }

  lemma OneMail(sent: seq<EmailMessage>, email: Email)
    requires |sent| == 1
    ensures MailsTo(sent, email) == if sent[0].To()[0].email == email then 1 else 0
  {
    assert sent[..0] == [];
  }

  /** Mail and row of one address, over several tasks. */
  ghost predicate MailFits(j: Job, rows: Table, t: Table, sent: seq<EmailMessage>, email: Email) {
    var k := Key(j.event.id, email);
    && (k in rows ==> k in t)
    && MailsTo(sent, email) <= (if k in rows then 0 else 1)
    && (MailsTo(sent, email) > 0 ==> k in t)
    && (TurnedSent(rows, t, k) ==> MailsTo(sent, email) == 1)
  }

  lemma TaskKeepsFit(ctx: Context, cfg: Config, j: Job, skip: set<Email>, answers: seq<seq<Answers>>, m: nat,
                     rows: Table, t: Table, sent: seq<EmailMessage>, email: Email)
    requires m < |answers| == |j.opts.recipients| && MailFits(j, rows, t, sent, email)
    ensures var d := TaskOf(ctx, cfg, j, skip, answers, m, t); MailFits(j, rows, d.rows, sent + d.sent, email)
  {
    var d, r := TaskOf(ctx, cfg, j, skip, answers, m, t), j.opts.recipients[m];
    MailsToSplits(sent, d.sent, email);
    if r.email !in skip {
      LoopMailTo(ctx, cfg, j, r, t, answers[m], email);
      SentBySomeone(rows, t, d.rows, Key(j.event.id, email));
    } else {
      assert sent + [] == sent;
    }
  }

  /** Individual dispatch writes to an address at most once, not at all if its row was there, and
      turns a row SENT only together with a message to exactly that address. */
  lemma DispatchMailsOnce(ctx: Context, cfg: Config, j: Job, skip: set<Email>, rows: Table, answers: seq<seq<Answers>>,
                          panicked: nat -> bool, email: Email)
    requires |answers| == |j.opts.recipients|
    ensures var ran, k := RunTasks(ctx, cfg, j, skip, rows, answers, panicked), Key(j.event.id, email);
            && MailsTo(ran.sent, email) <= (if k in rows then 0 else 1)
            && (TurnedSent(rows, ran.rows, k) ==> MailsTo(ran.sent, email) == 1)
  {
    var kept := (t: Table, sent: seq<EmailMessage>) => MailFits(j, rows, t, sent, email);
    var tasks := TasksOf(ctx, cfg, j, skip, answers);
    forall m: nat, t: Table, sent: seq<EmailMessage> | m < |answers| && kept(t, sent)
      ensures kept(tasks(m, t).rows, sent + tasks(m, t).sent)
    {
      TaskKeepsFit(ctx, cfg, j, skip, answers, m, rows, t, sent, email);
    }
    AllKeep(tasks, |answers|, rows, panicked, kept);
  }

  /** The message was made for recipient `i` in one of its attempts. */
  ghost predicate MadeInTask(j: Job, m: EmailMessage, answers: seq<seq<Answers>>, i: nat) {
    && i < |j.opts.recipients| && i < |answers|
    && exists n: nat :: MadeInAttempt(j, m, [j.opts.recipients[i]], answers[i], n)
  }

  ghost predicate MadeInAttempt(j: Job, m: EmailMessage, to: seq<Recipient>, answers: seq<Answers>, n: nat) {
    n < |answers| && answers[n].token && answers[n].rendered == Ok(m.body) && IsMail(j, m, to, m.body)
  }

  lemma TaskMail(ctx: Context, cfg: Config, j: Job, skip: set<Email>, answers: seq<seq<Answers>>, i: nat, t: Table)
    requires i < |answers| == |j.opts.recipients|
    ensures forall m :: m in TaskOf(ctx, cfg, j, skip, answers, i, t).sent ==> MadeInTask(j, m, answers, i)
  {
    var r := j.opts.recipients[i];
    var d := Drive(ctx, cfg, j, r, t, Counters(0, 0), answers[i]);
    LoopMail(ctx, cfg, j, r, t, Counters(0, 0), answers[i]);
    forall m | m in d.sent ensures MadeInTask(j, m, answers, i) {
      var n: nat :| SentAt(j, m, [r], answers[i], d.outcomes, n);
      assert MadeInAttempt(j, m, [r], answers[i], n);
    }
  }

  /** Every message of an individual dispatch is for one of its recipients alone, rendered in one
      of that recipient's attempts, with the event's own fields. */
  lemma DispatchMail(ctx: Context, cfg: Config, j: Job, skip: set<Email>, rows: Table, answers: seq<seq<Answers>>,
                     panicked: nat -> bool)
    requires |answers| == |j.opts.recipients|
    ensures forall m :: m in RunTasks(ctx, cfg, j, skip, rows, answers, panicked).sent ==>
              exists i: nat :: MadeInTask(j, m, answers, i)
  {
    var kept := (t: Table, sent: seq<EmailMessage>) =>
      forall m :: m in sent ==> exists i: nat :: MadeInTask(j, m, answers, i);
    var tasks := TasksOf(ctx, cfg, j, skip, answers);
    forall n: nat, t: Table, sent: seq<EmailMessage> | n < |answers| && kept(t, sent)
      ensures kept(tasks(n, t).rows, sent + tasks(n, t).sent)
    {
      TaskMail(ctx, cfg, j, skip, answers, n, t);
    }
    AllKeep(tasks, |answers|, rows, panicked, kept);
  }

  // ── Group messages ────────────────────────────────────────────────────────

  /** Every message of a group loop is the one of some attempt on the table the loop started
      with, so `GroupSend.ToHeaderExactlyIntended` says whom it is for. */
  lemma {:induction false} GroupLoopMail(ctx: Context, cfg: Config, j: Job, rows: Table, c: Counters,
                                         answers: seq<GroupAnswers>)
    requires j.opts.recipients != []
    ensures AllGroupMail(ctx, cfg, j, rows, DriveGroup(ctx, cfg, j, rows, c, answers).sent, answers)
    decreases |answers|
  {
    if answers != [] {
      var a := answers[0];
      var o, next, rest := GroupStep(ctx, cfg, j, rows, c, answers);
      var call := GroupCall(ctx, j, cfg.maxRecipients, rows, a);
      var d := Decide(cfg, j.opts.retryPolicy, true, c, o);
      GroupMailOfCall(ctx, cfg, j, rows, a);
      if rest.sent != [] && GoesOn(d, a.base) {
        GroupLoopSendsAtMostOnce(ctx, cfg, j, next, d.counters, answers[1..]);
        StoppedGroupKeeps(ctx, cfg, j, rows, a, d);
        GroupLoopMail(ctx, cfg, j, rows, d.counters, answers[1..]);
      }
      GroupMailOfStep(ctx, cfg, j, rows, call.sent, rest.sent, answers);
    }
  }

  ghost predicate AllGroupMail(ctx: Context, cfg: Config, j: Job, rows: Table, sent: seq<EmailMessage>,
                               answers: seq<GroupAnswers>) {
    forall m :: m in sent ==> exists i: nat :: GroupMailAt(ctx, cfg, j, rows, m, answers, i)
  }

  lemma GroupMailOfStep(ctx: Context, cfg: Config, j: Job, rows: Table, first: seq<EmailMessage>,
                        later: seq<EmailMessage>, answers: seq<GroupAnswers>)
    requires answers != [] && forall m :: m in first ==> GroupMailAt(ctx, cfg, j, rows, m, answers, 0)
    requires AllGroupMail(ctx, cfg, j, rows, later, answers[1..])
    ensures AllGroupMail(ctx, cfg, j, rows, first + later, answers)
  {
    forall m | m in first + later ensures exists i: nat :: GroupMailAt(ctx, cfg, j, rows, m, answers, i) {
      if m in first {
        assert GroupMailAt(ctx, cfg, j, rows, m, answers, 0);
      } else {
        var i: nat :| GroupMailAt(ctx, cfg, j, rows, m, answers[1..], i);
        assert GroupMailAt(ctx, cfg, j, rows, m, answers, i + 1);
      }
    }
  }

  ghost predicate GroupMailAt(ctx: Context, cfg: Config, j: Job, rows: Table, m: EmailMessage,
                              answers: seq<GroupAnswers>, i: nat) {
    && i < |answers| && GroupCall(ctx, j, cfg.maxRecipients, rows, answers[i]).sent == [m]
    && answers[i].base.token && answers[i].base.rendered == Ok(m.body) && IsMail(j, m, m.To(), m.body)
  }

  lemma GroupMailOfCall(ctx: Context, cfg: Config, j: Job, rows: Table, a: GroupAnswers)
    requires j.opts.recipients != []
    ensures var sent := GroupCall(ctx, j, cfg.maxRecipients, rows, a).sent;
            sent != [] ==>
              |sent| == 1 && a.base.token && a.base.rendered == Ok(sent[0].body)
              && IsMail(j, sent[0], sent[0].To(), sent[0].body)
  {
    if GroupStoppedBy(ctx, j, cfg.maxRecipients, a).Some? {
      StoppedGroupAttempt(ctx, j, cfg.maxRecipients, rows, a);
    } else if PrimaryKey(j) in rows {
      GroupAttemptOnRow(ctx, j, cfg.maxRecipients, rows, a);
    } else {
      FreshGroupAttempt(ctx, j, cfg.maxRecipients, rows, a);
    }
  }

  /** If the primary has no row after an iteration, the table is as before. */
  lemma StoppedGroupKeeps(ctx: Context, cfg: Config, j: Job, rows: Table, a: GroupAnswers, d: Decision)
    requires j.opts.recipients != []
    ensures var call := GroupCall(ctx, j, cfg.maxRecipients, rows, a);
            var next := AfterArm(call.rows, PrimaryKey(j), d, call.outcome, a.base);
            PrimaryKey(j) !in next ==> next == rows
  {
    var call := GroupCall(ctx, j, cfg.maxRecipients, rows, a);
    ArmKeepsKeys(call.rows, PrimaryKey(j), d, call.outcome, a.base);
    assert PrimaryKey(j) in AfterArm(call.rows, PrimaryKey(j), d, call.outcome, a.base).Keys
           <==> PrimaryKey(j) in call.rows.Keys;
    if GroupStoppedBy(ctx, j, cfg.maxRecipients, a).Some? {
      StoppedGroupAttempt(ctx, j, cfg.maxRecipients, rows, a);
    } else {
      GroupInsertLeavesPrimary(ctx, cfg, j, rows, a);
    }
  }

  lemma GroupInsertLeavesPrimary(ctx: Context, cfg: Config, j: Job, rows: Table, a: GroupAnswers)
    requires j.opts.recipients != [] && GroupStoppedBy(ctx, j, cfg.maxRecipients, a).None?
    ensures PrimaryKey(j) in GroupCall(ctx, j, cfg.maxRecipients, rows, a).rows
  {
    var results := BatchResults(rows, GroupArgs(j), a.base.now);
    var inserted := AfterInsertAll(rows, GroupArgs(j), a.base.now);
    GroupInserts(ctx, j, cfg.maxRecipients, rows, a);
    assert GroupArgs(j)[0].key == PrimaryKey(j);
    BatchRow(rows, GroupArgs(j), a.base.now, PrimaryKey(j));
    AttemptKeepsKeys(ctx, j, results, inserted, a);
    assert PrimaryKey(j) in inserted.Keys;
  }
}
