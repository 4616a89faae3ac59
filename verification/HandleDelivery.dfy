/** One message from the main queue, from delivery to settlement
    (`handle_delivery`, crates/consumer/src/delivery.rs). */
module HandleDelivery {
  import opened Common
  import opened Event
  import opened NotificationLog
  import opened RecipientFilter
  import opened RetryLoop
  import opened Processor
  import opened GroupSend
  import opened Delivery
  import opened Backoff
  import Fetcher

  /** A message body: an event, if the bytes decode as one. */
  datatype Message = Undecodable(id: nat) | Decodable(id: nat, event: NotificationEvent)

  datatype Settlement = Ack | Requeue | DeadLetter

  /** What the broker holds, as the consumer sees it: what waits, what was handed out and not
      settled, and the settlements the consumer has asked for. */
  datatype Queues = Queues(main: multiset<Message>, delayed: multiset<Message>, dead: multiset<Message>,
                           unsettled: multiset<Message>, settlements: seq<(Message, Settlement)>)
  {
    /** How many copies of the message may still be handed to a consumer. */
    function Alive(m: Message): nat {
      main[m] + delayed[m] + unsettled[m]
    }
  }

  /** `up` says whether the settlement reaches the broker; the consumer does not look.  If it
      does not, the broker still holds the message and will hand it out again. */
  function AfterSettle(q: Queues, m: Message, how: Settlement, up: bool): Queues {
    var asked := q.(settlements := q.settlements + [(m, how)]);
    if !up then asked
    else
      var taken := asked.(unsettled := q.unsettled - multiset{m});
      match how
      case Ack => taken
      case Requeue => taken.(main := q.main + multiset{m})
      case DeadLetter => taken.(dead := q.dead + multiset{m})
  }

  /** The broker may store a publish without confirming it. */
  predicate Stored(answer: PublishAnswer) {
    answer.Confirmed? || (answer.Unconfirmed? && answer.stored)
  }

  function AfterPublish(q: Queues, m: Message, answer: PublishAnswer): Queues {
    if Stored(answer) then q.(delayed := q.delayed + multiset{m}) else q
  }

  class Broker {
    var queues: Queues

    constructor ()
      ensures queues == Queues(multiset{}, multiset{}, multiset{}, multiset{}, [])
    {
      queues := Queues(multiset{}, multiset{}, multiset{}, multiset{}, []);
    }

    method Settle(m: Message, how: Settlement, up: bool)
      requires m in queues.unsettled
      modifies this
      ensures queues == AfterSettle(old(queues), m, how, up)
    {
      queues := queues.(settlements := queues.settlements + [(m, how)]);
      if !up {
        return;
      }
      queues := queues.(unsettled := queues.unsettled - multiset{m});
      match how {
        case Ack =>
        case Requeue => queues := queues.(main := queues.main + multiset{m});
        case DeadLetter => queues := queues.(dead := queues.dead + multiset{m});
      }
    }

    /** Returns whether the broker confirmed the publish. */
    method PublishDelayed(m: Message, answer: PublishAnswer) returns (confirmed: bool)
      modifies this
      ensures confirmed == answer.Confirmed? && queues == AfterPublish(old(queues), m, answer)
    {
      match answer {
        case Confirmed =>
          queues := queues.(delayed := queues.delayed + multiset{m});
          return true;
        case Unconfirmed(stored) =>
          if stored {
            queues := queues.(delayed := queues.delayed + multiset{m});
          }
          return false;
        case Refused =>
          return false;
      }
    }
  }

  datatype PublishAnswer = Confirmed | Unconfirmed(stored: bool) | Refused

  /** What the world answers while one message is handled. */
  datatype Env = Env(
    now: Time, publish: PublishAnswer, settleUp: bool, skipUp: bool, sentinelUp: bool, sentinelFailUp: bool,
    fetch: Fetcher.FetchAnswers, maxBytes: nat, listed: Email -> Result<(), AppError>,
    individual: nat -> seq<Answers>, group: seq<GroupAnswers>, readUp: nat -> bool, fallback: nat -> seq<Answers>,
    panicked: nat -> bool)

  // ── Copy recipients ───────────────────────────────────────────────────────

  /** A copy address is kept unless it is invalid or a list blocks it; other errors of the
      lists let it pass. */
  predicate CopyAllowed(ctx: Context, listed: Email -> Result<(), AppError>, r: Recipient) {
    && ctx.validEmail(r.email) && BlockReason(ctx.filter.Check(r.email)).None? && BlockReason(listed(r.email)).None?
  }

  function Kept(ctx: Context, listed: Email -> Result<(), AppError>, rs: seq<Recipient>): seq<Recipient> {
    if rs == [] then []
    else Kept(ctx, listed, rs[..|rs| - 1]) + if CopyAllowed(ctx, listed, rs[|rs| - 1]) then [rs[|rs| - 1]] else []
  }

  /** Filtering works address by address. */
  lemma {:induction false} KeptSplits(ctx: Context, listed: Email -> Result<(), AppError>, xs: seq<Recipient>,
                                      ys: seq<Recipient>)
    ensures Kept(ctx, listed, xs + ys) == Kept(ctx, listed, xs) + Kept(ctx, listed, ys)
  {
    if ys == [] {
      assert xs + ys == xs;
    } else {
      KeptSplits(ctx, listed, xs, ys[..|ys| - 1]);
      assert (xs + ys)[..|xs + ys| - 1] == xs + ys[..|ys| - 1];
    }
  }

  /** The copies kept are exactly the allowed ones, as often as they were given; and since
      filtering splits over the list, in the order given. */
  lemma {:induction false} KeptAreTheAllowed(ctx: Context, listed: Email -> Result<(), AppError>, rs: seq<Recipient>,
                                             r: Recipient)
    ensures var blocked := listed(r.email).Err? && listed(r.email).error.BlockedError?;
            var allowed := ctx.validEmail(r.email) && ctx.filter.Check(r.email).Ok? && !blocked;
            && multiset(Kept(ctx, listed, rs))[r] == (if allowed then multiset(rs)[r] else 0)
            && (r in Kept(ctx, listed, rs) <==> r in rs && allowed)
  {
    if rs != [] {
      KeptAreTheAllowed(ctx, listed, rs[..|rs| - 1], r);
      assert rs == rs[..|rs| - 1] + [rs[|rs| - 1]];
    }
  }

  method FilterCopies(ctx: Context, listed: Email -> Result<(), AppError>,
                      rs: seq<Recipient>)
    returns (kept: seq<Recipient>)
    ensures kept == Kept(ctx, listed, rs)
  {
    kept := [];
    for i := 0 to |rs|
      invariant kept == Kept(ctx, listed, rs[..i])
    {
      assert rs[..i + 1][..i] == rs[..i];
      if !ctx.validEmail(rs[i].email) {
        continue;
      }
      var configured := ctx.filter.Check(rs[i].email);
      if configured.Err? && configured.error.BlockedError? {
        continue;
      }
      var verdict := listed(rs[i].email);
      if verdict.Err? && verdict.error.BlockedError? {
        continue;
      }
      kept := kept + [rs[i]];
    }
    assert rs[..|rs|] == rs;
  }

  // ── Branches ──────────────────────────────────────────────────────────────

  datatype Branch = Malformed | NothingToSend | TooMany | Deferred | Deliver

  /** The event-level checks, in order. */
  function BranchOf(m: Message, maxRecipients: nat, now: Time): Branch {
    if m.Undecodable? then Malformed
    else if m.event.email.None? || m.event.email.value.recipients == [] then NothingToSend
    else if |m.event.email.value.recipients| > maxRecipients then TooMany
    else if m.event.email.value.sendAt.Some? && m.event.email.value.sendAt.value > now then Deferred
    else Deliver
  }

  /** The row that makes a skipped event visible; it stands for no recipient. */
  function SentinelKey(e: EventId): Key {
    Key(e, "event:")
  }

  /** It is SKIPPED with the reason, carries the event's columns, and has no email half. */
  lemma SkippedMeans(ev: NotificationEvent, now: Time)
    ensures var row := SkippedRow(ev.eventType, NO_RECIPIENT, ev.timestamp, ev.payload, now);
            && row.status.Skipped? && row.lastError == Some(NO_RECIPIENT) && row.detail.None?
            && row.eventType == ev.eventType && row.payload == ev.payload && row.eventTimestamp == ev.timestamp
            && row.createdAt == now
  {
  }

  /** The row written for an event with too many recipients. */
  function SentinelArgs(ev: NotificationEvent, primary: Recipient): InsertArgs {
    InsertArgs(Key(ev.id, primary.email), ev.eventType, ev.payload, ev.timestamp,
               EmailDetail(primary.name, None, None, None, None, None, Some("individual"), None, None))
  }

  function AfterSentinel(rows: Table, ev: NotificationEvent, env: Env): Table
    requires ev.email.Some? && ev.email.value.recipients != []
  {
    var primary := ev.email.value.recipients[0];
    var k := Key(ev.id, primary.email);
    var inserted := AfterInsert(rows, SentinelArgs(ev, primary), env.now);
    if !env.sentinelUp then rows
    else if !inserted[k].status.IsTerminal() && env.sentinelFailUp then
      AfterMarkFailed(inserted, k, TOO_MANY, true, env.now)
    else inserted
  }

  /** If both statements are applied the first recipient's row ends FAILED with the reason, unless
      it was terminal; no other row is touched, and a new one carries the event's columns. */
  lemma SentinelFails(rows: Table, ev: NotificationEvent, env: Env)
    requires ev.email.Some? && ev.email.value.recipients != []
    ensures var primary, t := ev.email.value.recipients[0], AfterSentinel(rows, ev, env);
            var k := Key(ev.id, primary.email);
            var terminal := k in rows && (rows[k].status.Sent? || rows[k].status.Blocked?);
            && SameElsewhere(rows, t, k)
            && (!env.sentinelUp || terminal ==> t == rows)
            && (env.sentinelUp && env.sentinelFailUp && !terminal ==>
                  k in t && t[k].status.Failed? && t[k].lastError == Some(TOO_MANY))
            && (env.sentinelUp && !env.sentinelFailUp && !terminal && k in rows ==> t == rows)
            && (k !in rows && k in t ==>
                  && t[k].eventType == ev.eventType && t[k].payload == ev.payload && t[k].eventTimestamp == ev.timestamp
                  && t[k].createdAt == env.now && t[k].detail.Some? && t[k].detail.value.recipientName == primary.name)
  {
  }

  /** One row stands for the event, and a terminal row is left alone. */
  method InsertSentinelFailedRow(store: NotificationStore, ev: NotificationEvent, env: Env)
    requires ev.email.Some? && ev.email.value.recipients != []
    modifies store
    ensures store.rows == AfterSentinel(old(store.rows), ev, env)
  {
    var primary := ev.email.value.recipients[0];
    var inserted := store.InsertPending(SentinelArgs(ev, primary), env.now, env.sentinelUp);
    if inserted.Err? {
      return;
    }
    if inserted.value.Duplicate? && inserted.value.status.IsTerminal() {
      return;
    }
    var _ := store.MarkFailed(Key(ev.id, primary.email), TOO_MANY, true, env.now, env.sentinelFailUp);
  }

  const NO_RECIPIENT := "no email channel or recipient: publisher must re-publish with corrected data"
  const TOO_MANY := "recipient count exceeds max_recipients_per_event"

  /** The time to live given to a deferred message, in whole milliseconds. */
  function TtlMs(sendAt: Time, now: Time): int
    requires sendAt > now
  {
    var ms := (sendAt - now) / NANOS_PER_MILLI;
    if ms >= 1 then ms else 1
  }

  // ── How a message is settled ──────────────────────────────────────────────

  /** The error attachment fetching ends in, if any. */
  function FetchError(ev: NotificationEvent, env: Env): Option<AppError>
    requires ev.email.Some?
  {
    var refs := ev.email.value.attachments;
    var v := Fetcher.Validation(refs, ev.timestamp, env.fetch, 0);
    var errors := Fetcher.Errors(refs, env.maxBytes, env.fetch, |refs|);
    if refs == [] then None
    else if v.Err? then Some(v.error)
    else if errors != [] then Some(Fetcher.Representative(errors))
    else None
  }

  lemma FetchIsDetermined(refs: seq<AttachmentRef>, eventTime: Time, maxBytes: nat, a: Fetcher.FetchAnswers,
                          r: Result<seq<ResolvedAttachment>, AppError>)
    requires Fetcher.IsFetchOutcome(refs, eventTime, maxBytes, a, r)
    ensures var v, errors := Fetcher.Validation(refs, eventTime, a, 0), Fetcher.Errors(refs, maxBytes, a, |refs|);
            && (r.Ok? <==> v.Ok? && errors == [])
            && (r.Err? ==> r.error == if v.Err? then v.error else Fetcher.Representative(errors))
  {
  }

  function HowSettled(cfg: Config, m: Message, env: Env): Settlement {
    match BranchOf(m, cfg.maxRecipients, env.now)
    case Malformed => DeadLetter
    case NothingToSend => Ack
    case TooMany => Ack
    case Deferred => if env.publish.Confirmed? then Ack else Requeue
    case Deliver => DueSettled(m.event, env)
  }

  function DueSettled(ev: NotificationEvent, env: Env): Settlement
    requires ev.email.Some?
  {
    var error := FetchError(ev, env);
    if error.None? then Ack else if error.value.IsPermanentMailer() then DeadLetter else Requeue
  }

  /** Fetching the event's attachments, were it to happen, ends in that error or else in the
      attachments of `ResolvedOf`. */
  lemma FetchOutcome(ev: NotificationEvent, env: Env) returns (r: Result<seq<ResolvedAttachment>, AppError>)
    requires ev.email.Some?
    ensures Fetcher.IsFetchOutcome(ev.email.value.attachments, ev.timestamp, env.maxBytes, env.fetch, r)
    ensures match FetchError(ev, env) case Some(e) => r == Err(e) case None => r == Ok(ResolvedOf(ev, env))
  {
    var refs := ev.email.value.attachments;
    match FetchError(ev, env)
    case Some(e) => r := Err(e);
    case None =>
      Fetcher.NoErrors(refs, env.maxBytes, env.fetch, |refs|);
      r := Ok(ResolvedOf(ev, env));
  }

  /** The message is an event with recipients, not too many. */
  predicate Deliverable(cfg: Config, m: Message) {
    m.Decodable? && m.event.email.Some? && 0 < |m.event.email.value.recipients| <= cfg.maxRecipients
  }

  /** It is scheduled, and its time has not come. */
  predicate Early(m: Message, now: Time) {
    && m.Decodable? && m.event.email.Some?
    && match m.event.email.value.sendAt case None => false case Some(t) => now < t
  }

  lemma BranchMeans(cfg: Config, m: Message, now: Time)
    ensures var b := BranchOf(m, cfg.maxRecipients, now);
            && (b == Malformed <==> m.Undecodable?)
            && (b == Deferred <==> Deliverable(cfg, m) && Early(m, now))
            && (b == Deliver <==> Deliverable(cfg, m) && !Early(m, now))
            && (b == TooMany ==> m.event.email.Some? && |m.event.email.value.recipients| > cfg.maxRecipients)
            && (b == NothingToSend <==>
                  m.Decodable? && (m.event.email.None? || m.event.email.value.recipients == []))
  {
  }

  /** Every attachment of the event is valid and delivered; with none there is nothing to fetch. */
  ghost predicate HasAttachments(ev: NotificationEvent, env: Env)
    requires ev.email.Some?
  {
    var refs := ev.email.value.attachments;
    || refs == []
    || (Fetcher.PassesValidation(refs, ev.timestamp, env.fetch)
        && forall i: nat :: i < |refs| ==> Fetcher.GetsAttachment(refs, env.maxBytes, env.fetch, i))
  }

  /** The attachments of the event cannot be had, however often one asks. */
  ghost predicate LacksAttachments(ev: NotificationEvent, env: Env)
    requires ev.email.Some?
  {
    var refs := ev.email.value.attachments;
    refs != [] && Fetcher.BeyondRetrying(refs, ev.timestamp, env.maxBytes, env.fetch)
  }

  lemma DueSettledIff(ev: NotificationEvent, env: Env)
    requires ev.email.Some?
    ensures DueSettled(ev, env) == DeadLetter <==> LacksAttachments(ev, env)
    ensures DueSettled(ev, env) == Ack <==> HasAttachments(ev, env)
  {
    var refs := ev.email.value.attachments;
    if refs != [] {
      var r := FetchOutcome(ev, env);
      Fetcher.FailsForGoodIff(refs, ev.timestamp, env.maxBytes, env.fetch, r);
      Fetcher.FetchSucceedsIff(refs, ev.timestamp, env.maxBytes, env.fetch, r);
    }
  }

  /** A message goes to the dead-letter queue exactly if it does not decode, or it is due and
      its attachments are beyond retrying: one is invalid, or some are lost and the rest are
      there.  It is acknowledged exactly if it decodes and there is nothing to deliver, or it is
      early and its deferral is confirmed, or it is due and has its attachments. */
  lemma SettledIff(cfg: Config, m: Message, env: Env)
    ensures var due := Deliverable(cfg, m) && !Early(m, env.now);
            && (HowSettled(cfg, m, env) == DeadLetter <==>
                  m.Undecodable? || (due && LacksAttachments(m.event, env)))
            && (HowSettled(cfg, m, env) == Ack <==>
                  m.Decodable?
                  && (|| !Deliverable(cfg, m)
                      || (Early(m, env.now) && env.publish == Confirmed)
                      || (due && HasAttachments(m.event, env))))
  {
    BranchMeans(cfg, m, env.now);
    if Deliverable(cfg, m) && !Early(m, env.now) {
      DueSettledIff(m.event, env);
    }
  }

  // ── The handler ───────────────────────────────────────────────────────────

  /** Every recipient of the event whose task did not panic has a settled row, or none. */
  ghost predicate AllSettled(rows: Table, ev: NotificationEvent, panicked: nat -> bool)
    requires ev.email.Some?
  {
    var rs := ev.email.value.recipients;
    forall m :: 0 <= m < |rs| ==> panicked(m) || Settled(rows, Key(ev.id, rs[m].email))
  }

  ghost predicate StoreAnswers(env: Env) {
    forall i: nat, a :: a in env.individual(i) ==> a.StoreUp()
  }

  /** What the deliveries of a due event have in common: copies after both filters, and the
      attachments in the order of their references. */
  function JobOf(ctx: Context, ev: NotificationEvent, env: Env): Job
    requires ev.email.Some? && FetchError(ev, env).None?
  {
    var opts := ev.email.value;
    Job(ev, opts, EffectiveCcBcc(Kept(ctx, env.listed, opts.cc), Kept(ctx, env.listed, opts.bcc)), ResolvedOf(ev, env))
  }

  function ResolvedOf(ev: NotificationEvent, env: Env): seq<ResolvedAttachment>
    requires ev.email.Some? && FetchError(ev, env).None?
  {
    var refs := ev.email.value.attachments;
    Fetcher.NoErrors(refs, env.maxBytes, env.fetch, |refs|);
    seq(|refs|, i requires 0 <= i < |refs| => Fetcher.Fetched(refs, env.maxBytes, env.fetch, i).value)
  }

  function Individually(env: Env, n: nat): seq<seq<Answers>> {
    seq(n, i requires 0 <= i < n => env.individual(i))
  }

  function Fallback(env: Env, n: nat): seq<seq<Answers>> {
    seq(n, i requires 0 <= i < n => env.fallback(i))
  }

  /** One loop per recipient, or the group loop and, if it falls back, one per recipient that is
      not terminal. */
  function DispatchOf(ctx: Context, cfg: Config, j: Job, env: Env, rows: Table): Ran {
    var n := |j.opts.recipients|;
    if j.opts.sendMode.Individual? then RunTasks(ctx, cfg, j, {}, rows, Individually(env, n), env.panicked)
    else
      var d := DriveGroup(ctx, cfg, j, rows, Counters(0, 0), env.group);
      if !d.fellBack then Ran(d.rows, d.sent, d.done)
      else RunTasks(ctx, cfg, j, AlreadyTerminal(j, d.rows, env.readUp), d.rows, Fallback(env, n), env.panicked).(sent := d.sent)
  }

  /** The broker once the message has been dealt with. */
  function AfterHandling(q: Queues, cfg: Config, m: Message, env: Env): Queues {
    var published := if BranchOf(m, cfg.maxRecipients, env.now) == Deferred then AfterPublish(q, m, env.publish) else q;
    AfterSettle(published, m, HowSettled(cfg, m, env), env.settleUp)
  }

  /** What that means for the message: it leaves the broker only if its settlement arrives, and
      then only acknowledged or dead-lettered; a deferred one never leaves, whatever the broker
      answers to the publish; and other messages are not touched. */
  lemma NeverLostUnlessDone(q: Queues, cfg: Config, m: Message, env: Env, o: Message)
    requires m in q.unsettled
    ensures var t, how := AfterHandling(q, cfg, m, env), HowSettled(cfg, m, env);
            var branch := BranchOf(m, cfg.maxRecipients, env.now);
            && t.settlements == q.settlements + [(m, how)]
            && (t.Alive(m) < q.Alive(m) <==> env.settleUp && branch != Deferred && how != Requeue)
            && (t.dead[m] > q.dead[m] <==> env.settleUp && how == DeadLetter)
            && (branch == Deferred && env.settleUp ==> t.main[m] + t.delayed[m] > q.main[m] + q.delayed[m])
            && (t.unsettled[m] < q.unsettled[m] <==> env.settleUp)
            && (o != m ==> t.Alive(o) == q.Alive(o) && t.dead[o] == q.dead[o])
  {
    var published := if BranchOf(m, cfg.maxRecipients, env.now) == Deferred then AfterPublish(q, m, env.publish) else q;
    DeferredSettles(cfg, m, env);
    PublishAdds(q, m, env.publish, o);
    SettleMoves(published, m, HowSettled(cfg, m, env), env.settleUp, m);
    SettleMoves(published, m, HowSettled(cfg, m, env), env.settleUp, o);
  }

  lemma SettleMoves(q: Queues, m: Message, how: Settlement, up: bool, o: Message)
    requires m in q.unsettled
    ensures var t := AfterSettle(q, m, how, up);
            && t.settlements == q.settlements + [(m, how)]
            && t.unsettled[o] == q.unsettled[o] - (if o == m && up then 1 else 0)
            && t.main[o] == q.main[o] + (if o == m && up && how == Requeue then 1 else 0)
            && t.dead[o] == q.dead[o] + (if o == m && up && how == DeadLetter then 1 else 0)
            && t.delayed[o] == q.delayed[o]
  {
  }

  lemma PublishAdds(q: Queues, m: Message, answer: PublishAnswer, o: Message)
    ensures var t := AfterPublish(q, m, answer);
            && t == q.(delayed := t.delayed)
            && t.delayed[m] >= q.delayed[m] + (if answer.Confirmed? then 1 else 0)
            && (o != m ==> t.delayed[o] == q.delayed[o])
  {
  }

  lemma DeferredSettles(cfg: Config, m: Message, env: Env)
    ensures BranchOf(m, cfg.maxRecipients, env.now) == Deferred ==>
              HowSettled(cfg, m, env) == if env.publish.Confirmed? then Ack else Requeue
  {
  }

  /** What handling the message does to table and sender, and whether it comes to an end. */
  function HandledAs(ctx: Context, cfg: Config, m: Message, env: Env, rows: Table): Ran {
    match BranchOf(m, cfg.maxRecipients, env.now)
    case NothingToSend =>
      var k, ev := SentinelKey(m.event.id), m.event;
      var skipped := SkippedRow(ev.eventType, NO_RECIPIENT, ev.timestamp, ev.payload, env.now);
      Ran(if !env.skipUp || k in rows then rows else rows[k := skipped], [], true)
    case TooMany => Ran(AfterSentinel(rows, m.event, env), [], true)
    case Deliver =>
      if DueSettled(m.event, env) == Ack then DispatchOf(ctx, cfg, JobOf(ctx, m.event, env), env, rows)
      else Ran(rows, [], true)
    case _ => Ran(rows, [], true)
  }

  /** What that means for a due event that is dispatched. */
  lemma DispatchMeans(ctx: Context, cfg: Config, ev: NotificationEvent, env: Env, rows: Table)
    requires ev.email.Some? && ev.email.value.recipients != [] && FetchError(ev, env).None?
    ensures var j := JobOf(ctx, ev, env);
            var d := DispatchOf(ctx, cfg, j, env, rows);
            && Evolves(rows, d.rows) && (forall m :: m in d.sent ==> MadeFor(j, m))
            && (d.ended && StoreAnswers(env) && ev.email.value.sendMode.Individual?
                && DistinctAddresses(ev.email.value.recipients) ==>
                  AllSettled(d.rows, ev, env.panicked))
  {
    var j := JobOf(ctx, ev, env);
    var n := |j.opts.recipients|;
    if j.opts.sendMode.Individual? {
      TasksKeep(ctx, cfg, j, {}, rows, Individually(env, n), env.panicked);
      TasksMade(ctx, cfg, j, {}, rows, Individually(env, n), env.panicked);
      if DispatchOf(ctx, cfg, j, env, rows).ended && StoreAnswers(env) && DistinctAddresses(j.opts.recipients) {
        TasksSettle(ctx, cfg, j, rows, Individually(env, n), env.panicked);
      }
    } else {
      var d := DriveGroup(ctx, cfg, j, rows, Counters(0, 0), env.group);
      GroupLoopFacts(ctx, cfg, j, rows, Counters(0, 0), env.group);
      if d.fellBack {
        var skip := AlreadyTerminal(j, d.rows, env.readUp);
        TasksKeep(ctx, cfg, j, skip, d.rows, Fallback(env, n), env.panicked);
        EvolvesTransitive(rows, d.rows, DispatchOf(ctx, cfg, j, env, rows).rows);
      }
    }
  }

  /** Unless its recipients' loops are still running, the message is settled: once, and in
      the one way `HowSettled` says.  A deferred message reaches neither store nor sender. */
  method Handle(broker: Broker, ctx: Context, cfg: Config, store: NotificationStore, sender: Sender, m: Message,
                env: Env)
    returns (completed: bool)
    requires m in broker.queues.unsettled
    modifies broker, store, sender
    ensures broker.queues == if completed then AfterHandling(old(broker.queues), cfg, m, env) else old(broker.queues)
    ensures var branch := BranchOf(m, cfg.maxRecipients, env.now);
            && (branch != Deliver ==> completed && sender.sent == old(sender.sent))
            && (branch == Deferred ==> store.rows == old(store.rows))
            && (branch == NothingToSend ==>
                  var k, ev := SentinelKey(m.event.id), m.event;
                  var skipped := SkippedRow(ev.eventType, NO_RECIPIENT, ev.timestamp, ev.payload, env.now);
                  store.rows == if !env.skipUp || k in old(store.rows) then old(store.rows)
                                else old(store.rows)[k := skipped])
            && (branch == TooMany ==> store.rows == AfterSentinel(old(store.rows), m.event, env))
            && (branch == Deliver ==> Evolves(old(store.rows), store.rows))
            && (branch == Deliver && HowSettled(cfg, m, env) != Ack ==>
                  store.rows == old(store.rows) && sender.sent == old(sender.sent))
            && (branch == Deliver && HowSettled(cfg, m, env) == Ack ==>
                  var d := DispatchOf(ctx, cfg, JobOf(ctx, m.event, env), env, old(store.rows));
                  && store.rows == d.rows && sender.sent == old(sender.sent) + d.sent && completed == d.ended
                  && SentFor(JobOf(ctx, m.event, env), old(sender.sent), sender.sent))
            && (branch == Deliver && completed && HowSettled(cfg, m, env) == Ack && StoreAnswers(env)
                && m.event.email.value.sendMode.Individual? && DistinctAddresses(m.event.email.value.recipients) ==>
                  AllSettled(store.rows, m.event, env.panicked))
  {
    completed := HandleBranches(broker, ctx, cfg, store, sender, m, env);
    if BranchOf(m, cfg.maxRecipients, env.now) == Deliver && HowSettled(cfg, m, env) == Ack {
      DispatchMeans(ctx, cfg, m.event, env, old(store.rows));
    }
  }

  method HandleBranches(broker: Broker, ctx: Context, cfg: Config, store: NotificationStore, sender: Sender, m: Message,
                        env: Env)
    returns (completed: bool)
    requires m in broker.queues.unsettled
    modifies broker, store, sender
    ensures broker.queues == if completed then AfterHandling(old(broker.queues), cfg, m, env) else old(broker.queues)
    ensures var h := HandledAs(ctx, cfg, m, env, old(store.rows));
            store.rows == h.rows && sender.sent == old(sender.sent) + h.sent && completed == h.ended
  {
    if m.Undecodable? {
      Finish(broker, cfg, m, env, DeadLetter);
      return true;
    }
    var ev := m.event;
    if ev.email.None? || ev.email.value.recipients == [] {
      var _ := store.MarkSkipped(SentinelKey(ev.id), ev.eventType, NO_RECIPIENT,
                                 ev.timestamp, ev.payload, env.now, env.skipUp);
      Finish(broker, cfg, m, env, Ack);
      return true;
    }
    var opts := ev.email.value;
    if |opts.recipients| > cfg.maxRecipients {
      InsertSentinelFailedRow(store, ev, env);
      Finish(broker, cfg, m, env, Ack);
      return true;
    }
    if opts.sendAt.Some? && opts.sendAt.value > env.now {
      Defer(broker, cfg, m, env);
      return true;
    }
    var how;
    completed, how := DeliverDue(ctx, cfg, store, sender, ev, env);
    if completed {
      Finish(broker, cfg, m, env, how);
    }
  }

  /** The message is settled, and nothing else happens to the broker. */
  method Finish(broker: Broker, cfg: Config, m: Message, env: Env, how: Settlement)
    requires m in broker.queues.unsettled
    requires BranchOf(m, cfg.maxRecipients, env.now) != Deferred && how == HowSettled(cfg, m, env)
    modifies broker
    ensures broker.queues == AfterHandling(old(broker.queues), cfg, m, env)
  {
    broker.Settle(m, how, env.settleUp);
  }

  /** A message that is not due goes to the delayed queue, or back to the main one. */
  method Defer(broker: Broker, cfg: Config, m: Message, env: Env)
    requires m in broker.queues.unsettled && BranchOf(m, cfg.maxRecipients, env.now) == Deferred
    modifies broker
    ensures broker.queues == AfterHandling(old(broker.queues), cfg, m, env)
  {
    var confirmed := broker.PublishDelayed(m, env.publish);
    broker.Settle(m, if confirmed then Ack else Requeue, env.settleUp);
  }

  /** A due event: fetch once, filter copies, dispatch. */
  method DeliverDue(ctx: Context, cfg: Config, store: NotificationStore, sender: Sender, ev: NotificationEvent,
                    env: Env)
    returns (completed: bool, how: Settlement)
    requires ev.email.Some? && ev.email.value.recipients != []
    modifies store, sender
    ensures how == DueSettled(ev, env)
    ensures how == Ack ==>
              var d := DispatchOf(ctx, cfg, JobOf(ctx, ev, env), env, old(store.rows));
              store.rows == d.rows && sender.sent == old(sender.sent) + d.sent && completed == d.ended
    ensures how != Ack ==> completed && store.rows == old(store.rows) && sender.sent == old(sender.sent)
  {
    var opts := ev.email.value;
    var attachments: seq<ResolvedAttachment> := [];
    if opts.attachments != [] {
      var fetched := Fetcher.FetchAttachments(opts.attachments, ev.timestamp, env.maxBytes, env.fetch);
      FetchIsDetermined(opts.attachments, ev.timestamp, env.maxBytes, env.fetch, fetched);
      if fetched.Err? {
        return true, if fetched.error.IsPermanentMailer() then DeadLetter else Requeue;
      }
      attachments := fetched.value;
    }
    assert attachments == ResolvedOf(ev, env);
    completed := Dispatch(ctx, cfg, store, sender, ev, attachments, env);
    return completed, Ack;
  }

  method Dispatch(ctx: Context, cfg: Config, store: NotificationStore, sender: Sender, ev: NotificationEvent,
                  attachments: seq<ResolvedAttachment>, env: Env)
    returns (completed: bool)
    requires ev.email.Some? && ev.email.value.recipients != []
    requires FetchError(ev, env).None? && attachments == ResolvedOf(ev, env)
    modifies store, sender
    ensures var d := DispatchOf(ctx, cfg, JobOf(ctx, ev, env), env, old(store.rows));
            store.rows == d.rows && sender.sent == old(sender.sent) + d.sent && completed == d.ended
  {
    var opts := ev.email.value;
    var cc := FilterCopies(ctx, env.listed, opts.cc);
    var bcc := FilterCopies(ctx, env.listed, opts.bcc);
    var j := Job(ev, opts, EffectiveCcBcc(cc, bcc), attachments);
    var n := |opts.recipients|;
    if opts.sendMode.Group? {
      ghost var outcomes;
      completed, outcomes := ProcessOneGroup(ctx, cfg, store, sender, j, env.group, env.readUp, Fallback(env, n),
                                             env.panicked);
    } else {
      completed := DispatchIndividually(ctx, cfg, store, sender, j, Individually(env, n), env.panicked);
    }
  }
}
