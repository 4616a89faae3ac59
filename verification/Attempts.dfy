/** What one delivery attempt does, told from the answers it gets: where it stops, what it
    hands the sender and what row it leaves (crates/consumer/src/processor.rs). */
module Attempts {
  import opened Common
  import opened Event
  import opened NotificationLog
  import opened RecipientFilter
  import opened RetryLoop
  import opened Processor
  import opened GroupSend
  import opened Delivery

  // ── Where an attempt stops ────────────────────────────────────────────────

  function Or(x: Option<AppError>, y: Option<AppError>): Option<AppError> {
    match x case Some(_) => x case None => y
  }

  function Unless(ok: bool, e: AppError): Option<AppError> {
    if ok then None else Some(e)
  }

  function ErrorOf<T>(r: Result<T, AppError>): Option<AppError> {
    match r case Ok(_) => None case Err(e) => Some(e)
  }

  /** The first error of template, sender address, rendering and serialisation. */
  function Unprepared(ctx: Context, j: Job, a: Answers): Option<AppError> {
    var badSender := j.opts.fromOverride.Some? && !ctx.validEmail(j.opts.fromOverride.value.email);
    Or(a.template,
       Or(Unless(!badSender, MailerError("invalid from_override email address", Permanent)),
          Or(ErrorOf(a.rendered), a.serialized)))
  }

  /** What stops an attempt at or before its insert: the address, then the preparation, then
      the database. */
  function StoppedBy(ctx: Context, j: Job, r: Recipient, a: Answers): Option<AppError> {
    Or(Unless(ctx.validEmail(r.email), MailerError("invalid recipient email address", Permanent)),
       Or(Unprepared(ctx, j, a), Unless(a.insertUp, DatabaseError("database unavailable"))))
  }

  lemma PreparedWhenClear(ctx: Context, j: Job, a: Answers)
    ensures Unprepared(ctx, j, a) == PrepareError(ctx, j, a)
    ensures Unprepared(ctx, j, a).None? ==> a.rendered.Ok?
  {
  }

  lemma ReachesInsertIff(ctx: Context, j: Job, r: Recipient, a: Answers)
    ensures StoppedBy(ctx, j, r, a).None? <==> ReachesInsert(ctx, j, r, a)
    ensures StoppedBy(ctx, j, r, a).None? ==> a.rendered.Ok?
  {
    PreparedWhenClear(ctx, j, a);
  }

  /** An attempt that is stopped fails with the first error and leaves everything alone. */
  lemma StoppedAttempt(ctx: Context, j: Job, r: Recipient, rows: Table, a: Answers)
    requires StoppedBy(ctx, j, r, a).Some?
    ensures RecipientCall(ctx, j, r, rows, a) == CallResult(rows, Failure(StoppedBy(ctx, j, r, a).value), [])
  {
    PreparedWhenClear(ctx, j, a);
  }

  /** One that finds a row reports it and leaves everything alone. */
  lemma AttemptOnRow(ctx: Context, j: Job, r: Recipient, rows: Table, a: Answers)
    requires StoppedBy(ctx, j, r, a).None? && KeyOf(j, r) in rows
    ensures var c, row := RecipientCall(ctx, j, r, rows, a), rows[KeyOf(j, r)];
            && c.rows == rows && c.sent == []
            && (c.outcome == AlreadyDone <==> row.status.Sent? || row.status.Blocked?)
            && (c.outcome == StillPending(row.retryCount) <==>
                  row.status.Pending? || row.status.Failed? || row.status.Skipped?)
            && (row.status.Unrecognised? ==> c.outcome == Failure(UnknownStatusError(row.status.text)))
  {
    PreparedWhenClear(ctx, j, a);
  }

  // ── What a fresh attempt sends and writes ─────────────────────────────────

  /** The message has these To: addresses and this content, and all else from the event. */
  ghost predicate IsMail(j: Job, m: EmailMessage, to: seq<Recipient>, body: Rendered) {
    && m.To() == to && m.body == body
    && m.event == j.event.id && m.fromOverride == j.opts.fromOverride && m.attachments == j.attachments
    && m.cc == j.ccBcc.cc && m.bcc == j.ccBcc.bcc
  }

  /** The configuration or the database list blocks the address. */
  predicate IsBlocked(ctx: Context, email: Email, listed: Result<(), AppError>) {
    ctx.filter.Check(email).Err? || (listed.Err? && listed.error.BlockedError?)
  }

  lemma BlockedIff(ctx: Context, email: Email, a: Answers)
    ensures Refusal(ctx, email, a).Some? <==> IsBlocked(ctx, email, a.blockList)
    ensures Refusal(ctx, email, a).Some? ==>
              Refusal(ctx, email, a).value ==
              if ctx.filter.Check(email).Err? then ctx.filter.Check(email).error.message else a.blockList.error.message
  {
  }

  /** The row of a fresh attempt: new, and with the status its end calls for. */
  ghost predicate FreshlyWritten(row: Row, j: Job, r: Recipient, now: Time, status: Status) {
    && row.status == status && row.retryCount == 0 && row.createdAt == now && row.updatedAt == now
    && row.totalAttempts == (if status.Sent? then 1 else 0)
    && row.eventType == j.event.eventType && row.payload == j.event.payload && row.eventTimestamp == j.event.timestamp
    && row.detail.Some? && row.detail.value.recipientName == r.name
    && (!status.Blocked? ==> row.lastError.None?)
  }

  /** A fresh attempt is refused exactly if a list blocks the address.  Otherwise it fails at
      shutdown, or hands the sender one message, made for this recipient alone with what was
      rendered, and ends as the sender answers. */
  lemma FreshAttempt(ctx: Context, j: Job, r: Recipient, rows: Table, a: Answers)
    requires StoppedBy(ctx, j, r, a).None? && KeyOf(j, r) !in rows
    ensures var c, blocked := RecipientCall(ctx, j, r, rows, a), IsBlocked(ctx, r.email, a.blockList);
            && (c.outcome.Refused? <==> blocked)
            && (c.sent != [] <==> !blocked && a.token)
            && (!blocked && !a.token ==> c.outcome == Failure(QueueError("service shutdown during rate-limit wait")))
            && (!blocked && a.token ==>
                  && |c.sent| == 1 && a.rendered.Ok? && IsMail(j, c.sent[0], [r], a.rendered.value)
                  && c.outcome == match a.send case Ok(_) => Delivered case Err(e) => Failure(e))
    ensures var c, k := RecipientCall(ctx, j, r, rows, a), KeyOf(j, r);
            var status := if c.outcome.Refused? && a.markUp then Status.Blocked
                          else if c.outcome.Delivered? && a.markUp then Status.Sent else Status.Pending;
            && k in c.rows && FreshlyWritten(c.rows[k], j, r, a.now, status)
            && (status.Blocked? ==> c.rows[k].lastError == Some(c.outcome.reason))
  {
    ReachesInsertIff(ctx, j, r, a);
    BlockedIff(ctx, r.email, a);
    assert Recipient(r.email, r.name) == r;
  }

  // ── Group attempts ────────────────────────────────────────────────────────

  /** What stops a group attempt at or before its insert. */
  function GroupStoppedBy(ctx: Context, j: Job, maxRecipients: nat, a: GroupAnswers): Option<AppError> {
    var rs := j.opts.recipients;
    var invalid := exists r :: r in rs && !ctx.validEmail(r.email);
    var statements := if j.opts.groupRetryMode.RetryIndividually? then |rs| else 1;
    Or(Unless(rs != [], MailerError("group send: recipients list is empty", Permanent)),
       Or(Unless(|rs| <= maxRecipients, MailerError("group send: too many recipients", Permanent)),
          Or(Unless(!invalid, MailerError("invalid recipient email address", Permanent)),
             Or(Unprepared(ctx, j, a.base),
                Unless(a.insertFailAt.None? || a.insertFailAt.value > statements,
                       DatabaseError("database unavailable"))))))
  }

  lemma GroupPrepared(ctx: Context, j: Job, maxRecipients: nat, a: GroupAnswers)
    ensures GroupStoppedBy(ctx, j, maxRecipients, a).None? ==>
              && j.opts.recipients != [] && a.base.rendered.Ok?
              && GroupPreInsertError(ctx, j, maxRecipients, a.base).None?
              && !(a.insertFailAt.Some? && a.insertFailAt.value <= |GroupArgs(j)|)
  {
    PreparedWhenClear(ctx, j, a.base);
  }

  lemma StoppedGroupAttempt(ctx: Context, j: Job, maxRecipients: nat, rows: Table, a: GroupAnswers)
    requires GroupStoppedBy(ctx, j, maxRecipients, a).Some?
    ensures GroupCall(ctx, j, maxRecipients, rows, a)
            == CallResult(rows, Failure(GroupStoppedBy(ctx, j, maxRecipients, a).value), [])
  {
    PreparedWhenClear(ctx, j, a.base);
  }

  /** Otherwise it inserts, and its first result tells whether the primary's row was there. */
  lemma GroupInserts(ctx: Context, j: Job, maxRecipients: nat, rows: Table, a: GroupAnswers)
    requires GroupStoppedBy(ctx, j, maxRecipients, a).None?
    ensures j.opts.recipients != []
    ensures var k, results := PrimaryKey(j), BatchResults(rows, GroupArgs(j), a.base.now);
            var inserted := AfterInsertAll(rows, GroupArgs(j), a.base.now);
            GroupCall(ctx, j, maxRecipients, rows, a) ==
            if k in rows then CallResult(inserted, ExistingOutcome(rows[k].retryCount, rows[k].status), [])
            else GroupAttempt(ctx, j, results, inserted, a)
  {
    GroupPrepared(ctx, j, maxRecipients, a);
    assert GroupArgs(j)[0].key == PrimaryKey(j);
    BatchAlignment(rows, GroupArgs(j), a.base.now, 0);
  }

  /** A group attempt that finds the primary's row reports that one and sends nothing. */
  lemma GroupAttemptOnRow(ctx: Context, j: Job, maxRecipients: nat, rows: Table, a: GroupAnswers)
    requires GroupStoppedBy(ctx, j, maxRecipients, a).None?
    requires j.opts.recipients != [] && PrimaryKey(j) in rows
    ensures var c, row := GroupCall(ctx, j, maxRecipients, rows, a), rows[PrimaryKey(j)];
            && c.sent == []
            && (c.outcome == AlreadyDone <==> row.status.Sent? || row.status.Blocked?)
            && (c.outcome == StillPending(row.retryCount) <==>
                  row.status.Pending? || row.status.Failed? || row.status.Skipped?)
            && (row.status.Unrecognised? ==> c.outcome == Failure(UnknownStatusError(row.status.text)))
  {
    GroupInserts(ctx, j, maxRecipients, rows, a);
  }

  /** How a group attempt that created the primary's row ends. */
  ghost predicate EndsAsAnswered(ctx: Context, j: Job, a: GroupAnswers, c: CallResult) {
    var blocked := forall r :: r in j.opts.recipients ==> ctx.filter.Check(r.email).Err?;
    && (c.outcome.Refused? <==> blocked)
    && (c.sent != [] <==> !blocked && a.base.token)
    && (!blocked && !a.base.token ==> c.outcome == Failure(QueueError("service shutdown during rate-limit wait")))
    && (!blocked && a.base.token ==>
          && |c.sent| == 1 && a.base.rendered.Ok?
          && IsMail(j, c.sent[0], c.sent[0].To(), a.base.rendered.value)
          && c.outcome == match a.base.send
                          case Ok(_) => Delivered
                          case Err(e) =>
                            if j.opts.groupRetryMode.RetryIndividually? then GroupFailure(e) else Failure(e))
  }

  lemma NobodyLeftIff(ctx: Context, rs: seq<Recipient>)
    ensures AdmittedOnly(ctx, rs) == [] <==> forall r :: r in rs ==> ctx.filter.Check(r.email).Err?
  {
    NobodyAdmitted(ctx, rs);
    forall r | r in rs ensures !Admitted(ctx, r) <==> ctx.filter.Check(r.email).Err? {}
  }

  lemma GroupAttemptEnds(ctx: Context, j: Job, results: seq<InsertResult>, inserted: Table, a: GroupAnswers)
    requires j.opts.recipients != [] && a.base.rendered.Ok?
    requires j.opts.groupRetryMode.RetryIndividually? ==> |results| == |j.opts.recipients|
    ensures EndsAsAnswered(ctx, j, a, GroupAttempt(ctx, j, results, inserted, a))
  {
    NobodyLeftIff(ctx, j.opts.recipients);
  }

  /** A group attempt that creates the primary's row is refused exactly if the configuration
      blocks everyone.  Otherwise it fails at shutdown, or hands the sender one message with
      what was rendered, and ends as the sender answers; a failed send falls back exactly if
      every recipient has a row. */
  lemma FreshGroupAttempt(ctx: Context, j: Job, maxRecipients: nat, rows: Table, a: GroupAnswers)
    requires GroupStoppedBy(ctx, j, maxRecipients, a).None?
    requires j.opts.recipients != [] && PrimaryKey(j) !in rows
    ensures EndsAsAnswered(ctx, j, a, GroupCall(ctx, j, maxRecipients, rows, a))
  {
    GroupPrepared(ctx, j, maxRecipients, a);
    GroupInserts(ctx, j, maxRecipients, rows, a);
    GroupAttemptEnds(ctx, j, BatchResults(rows, GroupArgs(j), a.base.now),
                     AfterInsertAll(rows, GroupArgs(j), a.base.now), a);
  }

  /** With a store that answers, the primary's row is then SENT or BLOCKED as the outcome says. */
  lemma PrimaryRowFollows(ctx: Context, j: Job, maxRecipients: nat, rows: Table, a: GroupAnswers)
    requires j.opts.recipients != [] && PrimaryKey(j) !in rows && a.StoreUp()
    ensures var c, k := GroupCall(ctx, j, maxRecipients, rows, a), PrimaryKey(j);
            && (c.outcome.Delivered? ==> k in c.rows && c.rows[k].status.Sent?)
            && (c.outcome.Refused? ==> k in c.rows && c.rows[k].status.Blocked?)
  {
    var c, k := GroupCall(ctx, j, maxRecipients, rows, a), PrimaryKey(j);
    if c.outcome.Delivered? || c.outcome.Refused? {
      ReachesAttempt(ctx, j, maxRecipients, rows, a);
      assert GroupArgs(j)[0].key == k;
      BatchRow(rows, GroupArgs(j), a.base.now, k);
      PrimaryRowOf(ctx, j, BatchResults(rows, GroupArgs(j), a.base.now),
                   AfterInsertAll(rows, GroupArgs(j), a.base.now), a);
    }
  }

  lemma PrimaryRowOf(ctx: Context, j: Job, results: seq<InsertResult>, inserted: Table, a: GroupAnswers)
    requires j.opts.recipients != [] && a.StoreUp() && PrimaryKey(j) in inserted
    requires j.opts.groupRetryMode.RetryIndividually? ==> |results| == |j.opts.recipients|
    ensures var c, k := GroupAttempt(ctx, j, results, inserted, a), PrimaryKey(j);
            && (c.outcome.Delivered? ==> k in c.rows && c.rows[k].status.Sent?)
            && (c.outcome.Refused? ==> k in c.rows && c.rows[k].status.Blocked?)
  {
    var k, rs := PrimaryKey(j), j.opts.recipients;
    var filtered := AfterFilter(ctx, j, rs, inserted, a.blockUp, a.base.now);
    FilterRow(ctx, j, rs, inserted, a.blockUp, a.base.now, k);
    NobodyAdmitted(ctx, rs);
    var extra := if j.opts.groupRetryMode.RetryIndividually? then Keys(j, Rest(Unsent(ctx, j, results))) else [];
    assert ([k] + extra)[0] == k;
    MarkAllRow(filtered, [k] + extra, a.sentUp, a.base.now, k);
  }
}
