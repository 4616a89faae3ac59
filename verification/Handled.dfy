/** What an acknowledged delivery has done for the event's recipients
    (`handle_delivery`, crates/consumer/src/delivery.rs). */
module Handled {
  import opened Common
  import opened Event
  import opened NotificationLog
  import opened RetryLoop
  import opened Processor
  import opened GroupSend
  import opened Delivery
  import opened Attempts
  import opened LoopEnds
  import opened Mailing
  import opened HandleDelivery
  import Fetcher

  // ── Each recipient's loop ─────────────────────────────────────────────────

  /** The loop of recipient `i` run alone on its own answers. */
  function OwnLoop(ctx: Context, cfg: Config, j: Job, rows: Table, answers: nat -> seq<Answers>, i: nat): DriveResult
    requires i < |j.opts.recipients|
  {
    Drive(ctx, cfg, j, j.opts.recipients[i], rows, Counters(0, 0), answers(i))
  }

  /** The mail of the loops of the first `n` recipients, one after the other. */
  function OwnMail(ctx: Context, cfg: Config, j: Job, rows: Table, answers: nat -> seq<Answers>,
                   n: nat): seq<EmailMessage>
    requires n <= |j.opts.recipients|
  {
    if n == 0 then []
    else OwnMail(ctx, cfg, j, rows, answers, n - 1) + OwnLoop(ctx, cfg, j, rows, answers, n - 1).sent
  }

  lemma {:induction false} MailAlone(ctx: Context, cfg: Config, j: Job, rows: Table, answers: nat -> seq<Answers>,
                                     tasks: Tasks, n: nat)
    requires n <= |j.opts.recipients|
    requires forall i: nat :: i < n ==> tasks(i, rows) == OwnLoop(ctx, cfg, j, rows, answers, i)
    ensures SentAlone(tasks, n, rows) == OwnMail(ctx, cfg, j, rows, answers, n)
  {
    if n > 0 {
      MailAlone(ctx, cfg, j, rows, answers, tasks, n - 1);
      assert tasks(n - 1, rows) == OwnLoop(ctx, cfg, j, rows, answers, n - 1);
    }
  }

  /** Row, mail and end of every recipient are those of its own loop alone. */
  ghost predicate AsOwnLoops(ctx: Context, cfg: Config, j: Job, env: Env, rows: Table, d: Ran) {
    var n := |j.opts.recipients|;
    && (forall i: nat :: i < n ==>
          AgreeAt(OwnLoop(ctx, cfg, j, rows, env.individual, i).rows, d.rows, KeyOf(j, j.opts.recipients[i])))
    && d.sent == OwnMail(ctx, cfg, j, rows, env.individual, n)
    && (d.ended <==>
          forall i: nat :: i < n ==> env.panicked(i) || OwnLoop(ctx, cfg, j, rows, env.individual, i).done)
  }

  /** A dispatch to individual recipients with distinct addresses leaves each of them the row
      its own loop leaves when run alone, sends what the loops send, and comes to an end exactly
      if each loop does or its task panicked. */
  lemma EachOwnLoop(ctx: Context, cfg: Config, j: Job, env: Env, rows: Table)
    requires j.opts.sendMode.Individual? && DistinctAddresses(j.opts.recipients)
    ensures AsOwnLoops(ctx, cfg, j, env, rows, DispatchOf(ctx, cfg, j, env, rows))
  {
    var rs, answers := j.opts.recipients, Individually(env, |j.opts.recipients|);
    var tasks := TasksOf(ctx, cfg, j, {}, answers);
    TasksAreIndependent(ctx, cfg, j, {}, rows, answers, env.panicked);
    forall i: nat | i < |rs|
      ensures tasks(i, rows) == OwnLoop(ctx, cfg, j, rows, env.individual, i)
      ensures KeysOf(j)(i) == KeyOf(j, rs[i])
    {
    }
    MailAlone(ctx, cfg, j, rows, env.individual, tasks, |rs|);
  }

  // ── A recipient for whom all goes well ────────────────────────────────────

  /** Nothing stops the attempt, no list blocks the address, and sender and store answer. */
  predicate Smooth(ctx: Context, j: Job, r: Recipient, a: Answers) {
    StoppedBy(ctx, j, r, a).None? && !IsBlocked(ctx, r.email, a.blockList) && a.token && a.send.Ok? && a.markUp
  }

  /** If the first attempt for a recipient without a row goes well the loop ends with it: one
      message, for this recipient alone, and a SENT row. */
  lemma SmoothLoop(ctx: Context, cfg: Config, j: Job, r: Recipient, rows: Table, c: Counters, answers: seq<Answers>)
    requires answers != [] && Smooth(ctx, j, r, answers[0]) && KeyOf(j, r) !in rows
    ensures answers[0].rendered.Ok?
    ensures var d, k := Drive(ctx, cfg, j, r, rows, c, answers), KeyOf(j, r);
            && d.done && d.outcomes == [Delivered]
            && |d.sent| == 1 && IsMail(j, d.sent[0], [r], answers[0].rendered.value)
            && k in d.rows && FreshlyWritten(d.rows[k], j, r, answers[0].now, Status.Sent)
  {
    FreshAttempt(ctx, j, r, rows, answers[0]);
    var o, next, rest := LoopStep(ctx, cfg, j, r, rows, c, answers);
    assert [o] + rest.outcomes == [o];
    var sent := RecipientCall(ctx, j, r, rows, answers[0]).sent;
    assert sent + rest.sent == sent;
  }

  /** A message with these To: addresses and this content, and everything else from the event:
      its id and sender, its copies as far as they are allowed, and its attachments as fetched,
      in their order. */
  ghost predicate EventMail(ctx: Context, ev: NotificationEvent, env: Env, m: EmailMessage, to: seq<Recipient>,
                            body: Rendered)
    requires ev.email.Some?
  {
    var opts := ev.email.value;
    && m.event == ev.id && m.To() == to && m.body == body && m.fromOverride == opts.fromOverride
    && m.cc == Kept(ctx, env.listed, opts.cc) && m.bcc == Kept(ctx, env.listed, opts.bcc)
    && |m.attachments| == |opts.attachments|
    && forall i :: 0 <= i < |opts.attachments| ==>
         Fetcher.Gets(opts.attachments[i], env.fetch.For(i), env.maxBytes, m.attachments[i])
  }

  lemma JobMail(ctx: Context, ev: NotificationEvent, env: Env, m: EmailMessage, to: seq<Recipient>, body: Rendered)
    requires ev.email.Some? && FetchError(ev, env).None? && IsMail(JobOf(ctx, ev, env), m, to, body)
    ensures EventMail(ctx, ev, env, m, to, body)
  {
    var refs := ev.email.value.attachments;
    var r := FetchOutcome(ev, env);
    Fetcher.FetchSucceedsIff(refs, ev.timestamp, env.maxBytes, env.fetch, r);
  }

  lemma {:induction false} OwnMailHas(ctx: Context, cfg: Config, j: Job, rows: Table, answers: nat -> seq<Answers>,
                                      n: nat, i: nat, m: EmailMessage)
    requires i < n <= |j.opts.recipients| && m in OwnLoop(ctx, cfg, j, rows, answers, i).sent
    ensures m in OwnMail(ctx, cfg, j, rows, answers, n)
  {
    if i < n - 1 {
      OwnMailHas(ctx, cfg, j, rows, answers, n - 1, i, m);
    }
  }

  /** When a due event is dispatched to individual recipients with distinct addresses, a
      recipient without a row whose first attempt goes well gets exactly one message, with the
      event's content, and a SENT row; whatever becomes of the others. */
  lemma FreshRecipientIsServed(ctx: Context, cfg: Config, ev: NotificationEvent, env: Env, rows: Table, i: nat)
    requires ev.email.Some? && FetchError(ev, env).None?
    requires ev.email.value.sendMode.Individual? && DistinctAddresses(ev.email.value.recipients)
    requires i < |ev.email.value.recipients| && Key(ev.id, ev.email.value.recipients[i].email) !in rows
    requires env.individual(i) != []
    requires Smooth(ctx, JobOf(ctx, ev, env), ev.email.value.recipients[i], env.individual(i)[0])
    ensures env.individual(i)[0].rendered.Ok?
    ensures var r, a := ev.email.value.recipients[i], env.individual(i)[0];
            var d, k := DispatchOf(ctx, cfg, JobOf(ctx, ev, env), env, rows), Key(ev.id, r.email);
            && k in d.rows && d.rows[k].status.Sent? && d.rows[k].totalAttempts == 1
            && MailsTo(d.sent, r.email) == 1
            && exists m :: m in d.sent && EventMail(ctx, ev, env, m, [r], a.rendered.value)
  {
    var j, rs := JobOf(ctx, ev, env), ev.email.value.recipients;
    var r, n := rs[i], |rs|;
    var d, own := DispatchOf(ctx, cfg, j, env, rows), OwnLoop(ctx, cfg, j, rows, env.individual, i);
    EachOwnLoop(ctx, cfg, j, env, rows);
    SmoothLoop(ctx, cfg, j, r, rows, Counters(0, 0), env.individual(i));
    assert AgreeAt(own.rows, d.rows, KeyOf(j, r));
    DispatchMailsOnce(ctx, cfg, j, {}, rows, Individually(env, n), env.panicked, r.email);
    assert own.sent[0] in own.sent;
    OwnMailHas(ctx, cfg, j, rows, env.individual, n, i, own.sent[0]);
    JobMail(ctx, ev, env, own.sent[0], [r], env.individual(i)[0].rendered.value);
  }

  // ── A group ───────────────────────────────────────────────────────────────

  /** The fallback passes over recipient `i`: its row is read, and terminal. */
  predicate PassedOver(j: Job, env: Env, rows: Table, i: nat) {
    i < |j.opts.recipients| && env.readUp(i) && Done(j, rows, j.opts.recipients[i])
  }

  /** After the group loop has left `rows`, those not passed over get what their own loops leave. */
  ghost predicate AsFallenBack(ctx: Context, cfg: Config, j: Job, env: Env, rows: Table, d: Ran) {
    var n := |j.opts.recipients|;
    && (forall i: nat :: i < n ==>
          AgreeAt(if PassedOver(j, env, rows, i) then rows else OwnLoop(ctx, cfg, j, rows, env.fallback, i).rows, d.rows,
                  KeyOf(j, j.opts.recipients[i])))
    && (d.ended <==>
          forall i: nat :: i < n ==>
            PassedOver(j, env, rows, i) || env.panicked(i) || OwnLoop(ctx, cfg, j, rows, env.fallback, i).done)
  }

  lemma FallsBackToOwnLoops(ctx: Context, cfg: Config, j: Job, env: Env, rows: Table)
    requires DistinctAddresses(j.opts.recipients)
    ensures AsFallenBack(ctx, cfg, j, env, rows,
                         RunTasks(ctx, cfg, j, AlreadyTerminal(j, rows, env.readUp), rows,
                                  Fallback(env, |j.opts.recipients|), env.panicked))
  {
    var rs, skip := j.opts.recipients, AlreadyTerminal(j, rows, env.readUp);
    var answers := Fallback(env, |rs|);
    var tasks := TasksOf(ctx, cfg, j, skip, answers);
    TasksAreIndependent(ctx, cfg, j, skip, rows, answers, env.panicked);
    forall i: nat | i < |rs|
      ensures tasks(i, rows) == if PassedOver(j, env, rows, i) then DriveResult(rows, [], [], true)
                                else OwnLoop(ctx, cfg, j, rows, env.fallback, i)
      ensures KeysOf(j)(i) == KeyOf(j, rs[i])
    {
      assert rs[i].email in skip <==> PassedOver(j, env, rows, i);
    }
  }

  /** A dispatch to a group does what the group loop does; if that falls back, and addresses are
      distinct, every recipient whose row is not read as terminal gets what its own loop leaves,
      and nothing more is sent. */
  lemma GroupThenOwnLoops(ctx: Context, cfg: Config, j: Job, env: Env, rows: Table)
    requires j.opts.sendMode.Group?
    ensures var d, g := DispatchOf(ctx, cfg, j, env, rows), DriveGroup(ctx, cfg, j, rows, Counters(0, 0), env.group);
            && d.sent == g.sent
            && (!g.fellBack ==> d.rows == g.rows && d.ended == g.done)
            && (g.fellBack && DistinctAddresses(j.opts.recipients) ==> AsFallenBack(ctx, cfg, j, env, g.rows, d))
  {
    var g := DriveGroup(ctx, cfg, j, rows, Counters(0, 0), env.group);
    if g.fellBack && DistinctAddresses(j.opts.recipients) {
      FallsBackToOwnLoops(ctx, cfg, j, env, g.rows);
    }
  }

  /** Nothing stops the attempt, the configuration admits the first recipient, and sender and
      store answer. */
  ghost predicate SmoothGroup(ctx: Context, cfg: Config, j: Job, a: GroupAnswers) {
    && GroupStoppedBy(ctx, j, cfg.maxRecipients, a).None? && j.opts.recipients != []
    && ctx.filter.Check(j.opts.recipients[0].email).Ok? && a.base.token && a.base.send.Ok? && a.StoreUp()
  }

  lemma SmoothGroupCall(ctx: Context, cfg: Config, j: Job, rows: Table, a: GroupAnswers)
    requires SmoothGroup(ctx, cfg, j, a) && PrimaryKey(j) !in rows
    ensures a.base.rendered.Ok?
    ensures var c := GroupCall(ctx, j, cfg.maxRecipients, rows, a);
            && c.outcome == Delivered && |c.sent| == 1
            && IsMail(j, c.sent[0], Intended(ctx, j, rows, j.opts.recipients), a.base.rendered.value)
            && PrimaryKey(j) in c.rows && c.rows[PrimaryKey(j)].status.Sent?
            && (j.opts.groupRetryMode.RetryIndividually? ==> AllRowsTerminal(j, c.rows))
  {
    FreshGroupAttempt(ctx, j, cfg.maxRecipients, rows, a);
    assert j.opts.recipients[0] in j.opts.recipients;
    ToHeaderExactlyIntended(ctx, j, cfg.maxRecipients, rows, a);
    PrimaryRowFollows(ctx, j, cfg.maxRecipients, rows, a);
    if j.opts.groupRetryMode.RetryIndividually? {
      GroupPartition(ctx, j, cfg.maxRecipients, rows, a);
    }
  }

  /** If the first attempt for a group whose first recipient has no row goes well the loop ends
      with it: one message to the recipients still to be written to, in order, a SENT row for
      the first and, where each has a row, a terminal one for all. */
  lemma SmoothGroupLoop(ctx: Context, cfg: Config, j: Job, rows: Table, c: Counters, answers: seq<GroupAnswers>)
    requires answers != [] && SmoothGroup(ctx, cfg, j, answers[0]) && PrimaryKey(j) !in rows
    ensures answers[0].base.rendered.Ok?
    ensures var d := DriveGroup(ctx, cfg, j, rows, c, answers);
            && d.done && !d.fellBack && d.outcomes == [Delivered] && |d.sent| == 1
            && IsMail(j, d.sent[0], Intended(ctx, j, rows, j.opts.recipients), answers[0].base.rendered.value)
            && PrimaryKey(j) in d.rows && d.rows[PrimaryKey(j)].status.Sent?
            && (j.opts.groupRetryMode.RetryIndividually? ==> AllRowsTerminal(j, d.rows))
  {
    SmoothGroupCall(ctx, cfg, j, rows, answers[0]);
    var o, next, rest := GroupStep(ctx, cfg, j, rows, c, answers);
    assert [o] + rest.outcomes == [o];
    var sent := GroupCall(ctx, j, cfg.maxRecipients, rows, answers[0]).sent;
    assert sent + rest.sent == sent;
  }

  /** So it is when a due event is dispatched to a group. */
  lemma FreshGroupIsServed(ctx: Context, cfg: Config, ev: NotificationEvent, env: Env, rows: Table)
    requires ev.email.Some? && FetchError(ev, env).None? && ev.email.value.sendMode.Group? && env.group != []
    requires SmoothGroup(ctx, cfg, JobOf(ctx, ev, env), env.group[0])
    requires Key(ev.id, ev.email.value.recipients[0].email) !in rows
    ensures env.group[0].base.rendered.Ok?
    ensures var j, rs := JobOf(ctx, ev, env), ev.email.value.recipients;
            var d, k := DispatchOf(ctx, cfg, j, env, rows), Key(ev.id, rs[0].email);
            && d.ended && k in d.rows && d.rows[k].status.Sent?
            && |d.sent| == 1
            && EventMail(ctx, ev, env, d.sent[0], Intended(ctx, j, rows, rs), env.group[0].base.rendered.value)
            && (ev.email.value.groupRetryMode.RetryIndividually? ==> AllRowsTerminal(j, d.rows))
  {
    var j := JobOf(ctx, ev, env);
    SmoothGroupLoop(ctx, cfg, j, rows, Counters(0, 0), env.group);
    GroupThenOwnLoops(ctx, cfg, j, env, rows);
    var g := DriveGroup(ctx, cfg, j, rows, Counters(0, 0), env.group);
    JobMail(ctx, ev, env, g.sent[0], Intended(ctx, j, rows, ev.email.value.recipients),
            env.group[0].base.rendered.value);
  }
}
