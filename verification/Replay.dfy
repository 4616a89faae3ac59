/** Manual retry: resetting rows, rebuilding the event from them and undoing the reset when
    the re-enqueue fails (crates/api/src/handlers.rs, with the queries of
    crates/store/src/notification_log.rs). */
module Replay {
  import opened Common
  import opened Event
  import opened NotificationLog
  import opened RecipientFilter
  import opened Processor
  import opened GroupSend
  import opened RetryLoop
  import opened Delivery

  const ROW_LIMIT: nat := 500

  // ── The two queries ───────────────────────────────────────────────────────

  ghost predicate Wanted(t: Table, e: EventId, emails: set<Email>, k: Key) {
    k in t && k.event == e && k.recipient in emails
  }

  ghost function WantedKeys(t: Table, e: EventId, emails: set<Email>): set<Key> {
    set k | k in t && k.event == e && k.recipient in emails
  }

  /** A possible answer of the recipients query: wanted rows by creation time, ties in any
      order, cut off at the limit. */
  ghost predicate IsListing(t: Table, e: EventId, emails: set<Email>, listing: seq<Key>) {
    && Distinct(listing)
    && (forall i :: 0 <= i < |listing| ==> Wanted(t, e, emails, listing[i]))
    && (forall i, j :: 0 <= i < j < |listing| ==> t[listing[i]].createdAt <= t[listing[j]].createdAt)
    && |listing| <= ROW_LIMIT
    && (forall k :: Wanted(t, e, emails, k) && k !in listing ==>
          |listing| == ROW_LIMIT && forall i :: 0 <= i < |listing| ==> t[listing[i]].createdAt <= t[k].createdAt)
  }

  /** The row the detail query reads: the oldest with an email half. */
  ghost predicate IsFirst(t: Table, e: EventId, first: Option<Key>) {
    if first.Some? then
      && first.value in t && first.value.event == e && t[first.value].detail.Some?
      && forall k :: k in t && k.event == e && t[k].detail.Some? ==> t[first.value].createdAt <= t[k].createdAt
    else forall k :: k in t && k.event == e ==> t[k].detail.None?
  }

  // ── Rebuilding the event ──────────────────────────────────────────────────

  /** Whole seconds since `since`, never negative. */
  function AgeSecs(now: Time, since: Time): nat {
    if now <= since then 0 else (now - since) / NANOS_PER_SEC
  }

  function MaxAge(j: Json): Option<nat> {
    if j.JObject? && "max_age_secs" in j.fields && j.fields["max_age_secs"].JNumber?
      && j.fields["max_age_secs"].number >= 0
    then Some(j.fields["max_age_secs"].number) else None
  }

  predicate HasExpired(attachments: Json, age: nat) {
    attachments.JArray? && exists r :: r in attachments.items && MaxAge(r).Some? && age > MaxAge(r).value
                                       && TextField(r, "filename").Some?
  }

  function RecipientName(r: Row): Option<string> {
    if r.detail.Some? then r.detail.value.recipientName else None
  }

  /** The listed rows a message can be rebuilt for. */
  function ListedRecipients(t: Table, listing: seq<Key>): seq<Recipient>
    requires forall k :: k in listing ==> k in t
  {
    if listing == [] then []
    else
      var k := listing[|listing| - 1];
      ListedRecipients(t, listing[..|listing| - 1])
      + if t[k].status.Skipped? then [] else [Recipient(k.recipient, RecipientName(t[k]))]
  }

  function OptionalRecipients(o: Option<Json>): Result<seq<Recipient>, string> {
    if o.None? then Ok([]) else DecodeRecipients(o.value)
  }

  function OptionalOverride(o: Option<Json>): Result<Option<FromOverride>, string> {
    if o.None? then Ok(None)
    else if DecodeFromOverride(o.value).Ok? then Ok(Some(DecodeFromOverride(o.value).value))
    else Err("from_override")
  }

  function ParseSendMode(o: Option<string>): Result<SendMode, string> {
    if o == Some("group") then Ok(Group)
    else if o == Some("individual") || o.None? then Ok(Individual)
    else Err("send_mode")
  }

  function ParseGroupRetryMode(o: Option<string>): Result<GroupRetryMode, string> {
    if o == Some("individual") then Ok(RetryIndividually)
    else if o == Some("whole") || o.None? then Ok(RetryWhole)
    else Err("group_retry_mode")
  }

  predicate AnyBlocked(filter: Filter, rs: seq<Recipient>) {
    exists r :: r in rs && BlockReason(filter.Check(r.email)).Some?
  }

  /** The typed fields of the detail row. */
  function Options(d: EmailDetail, recipients: seq<Recipient>): Result<EmailOptions, string> {
    match (OptionalOverride(d.fromOverride), DecodeAttachments(Attachments(d)), OptionalRecipients(d.cc),
           OptionalRecipients(d.bcc), ParseSendMode(d.sendMode), ParseGroupRetryMode(d.groupRetryMode))
    case (Ok(o), Ok(a), Ok(cc), Ok(bcc), Ok(m), Ok(g)) =>
      Ok(EmailOptions(m, g, Retry, recipients, cc, bcc, o, a, d.senderAccount, None))
    case _ => Err("stored value is malformed")
  }

  function Attachments(d: EmailDetail): Json {
    if d.attachments.Some? then d.attachments.value else JArray([])
  }

  /** The stored override names an address that is not one. */
  predicate BadOverride(ctx: Context, d: EmailDetail) {
    d.fromOverride.Some? && TextField(d.fromOverride.value, "email").Some?
    && !ctx.validEmail(TextField(d.fromOverride.value, "email").value)
  }

  /** `republish_event` up to its publish. */
  function Rebuild(ctx: Context, t: Table, e: EventId, listing: seq<Key>, first: Option<Key>, now: Time)
    : Result<NotificationEvent, AppError>
    requires forall k :: k in listing ==> k in t
    requires first.Some? ==> first.value in t && t[first.value].detail.Some?
  {
    if listing == [] then Err(NotFoundError("event"))
    else if exists k :: k in listing && t[k].status.Unrecognised? then Err(UnknownStatusError("status"))
    else if first.None? then Err(NotFoundError("event"))
    else
      var row, d := t[first.value], t[first.value].detail.value;
      if BadOverride(ctx, d) then Err(PermanentMailer("stored from_override email address is invalid"))
      else if HasExpired(Attachments(d), AgeSecs(now, row.eventTimestamp)) then
        Err(PermanentMailer("attachment URLs have expired"))
      else
        var recipients := ListedRecipients(t, listing);
        if recipients == [] then Err(PermanentMailer("event was skipped at validation time"))
        else
          var opts := Options(d, recipients);
          if opts.Err? then Err(PermanentMailer(opts.error))
          else if AnyBlocked(ctx.filter, opts.value.cc + opts.value.bcc) then
            Err(PermanentMailer("cc/bcc address is blocked"))
          else if row.payload.JNull? then Err(PermanentMailer("stored payload is null"))
          else Ok(NotificationEvent(e, row.eventTimestamp, row.eventType, row.payload, Some(opts.value)))
  }

  // ── What a rebuild reads ──────────────────────────────────────────────────

  lemma AgeWithin(now: Time, since: Time, maxAge: nat)
    ensures AgeSecs(now, since) <= maxAge <==> now < since + (maxAge + 1) * NANOS_PER_SEC
  {
  }

  predicate OverrideStored(ctx: Context, o: Option<Json>, v: Option<FromOverride>) {
    match o
    case None => v.None?
    case Some(x) => v.Some? && DecodeFromOverride(x) == Ok(v.value) && ctx.validEmail(v.value.email)
  }

  /** The references are those stored, and less than a second more than each one's maximum age
      has passed. */
  predicate AttachmentsStored(o: Option<Json>, refs: seq<AttachmentRef>, since: Time, now: Time) {
    && (match o case None => refs == [] case Some(x) => DecodeAttachments(x) == Ok(refs))
    && forall a :: a in refs && a.maxAgeSecs.Some? ==> now < since + (a.maxAgeSecs.value + 1) * NANOS_PER_SEC
  }

  predicate CopiesStored(ctx: Context, o: Option<Json>, rs: seq<Recipient>) {
    && (match o case None => rs == [] case Some(x) => DecodeRecipients(x) == Ok(rs))
    && forall r :: r in rs ==> ctx.filter.Check(r.email).Ok?
  }

  predicate ModesStored(d: EmailDetail, mode: SendMode, retryMode: GroupRetryMode) {
    && (match d.sendMode
        case None => mode.Individual?
        case Some(text) => (text == "group" && mode.Group?) || (text == "individual" && mode.Individual?))
    && (match d.groupRetryMode
        case None => retryMode.RetryWhole?
        case Some(text) =>
          (text == "individual" && retryMode.RetryIndividually?) || (text == "whole" && retryMode.RetryWhole?))
  }

  /** `ev` is what the rows ask to be sent again, and may be: event-level fields from the first
      row, recipients from the listed ones. */
  ghost predicate IsReplay(ctx: Context, t: Table, e: EventId, listing: seq<Key>, first: Option<Key>, now: Time,
                           ev: NotificationEvent)
    requires forall k :: k in listing ==> k in t
    requires first.Some? ==> first.value in t && t[first.value].detail.Some?
  {
    && (forall k :: k in listing ==> !t[k].status.Unrecognised?)
    && first.Some? && ev.email.Some?
    && var row, d, opts := t[first.value], t[first.value].detail.value, ev.email.value;
       && ev.id == e && ev.timestamp == row.eventTimestamp && ev.eventType == row.eventType
       && ev.payload == row.payload && !row.payload.JNull?
       && opts.recipients == ListedRecipients(t, listing) && opts.recipients != []
       && OverrideStored(ctx, d.fromOverride, opts.fromOverride)
       && AttachmentsStored(d.attachments, opts.attachments, row.eventTimestamp, now)
       && CopiesStored(ctx, d.cc, opts.cc) && CopiesStored(ctx, d.bcc, opts.bcc)
       && ModesStored(d, opts.sendMode, opts.groupRetryMode) && opts.senderAccount == d.senderAccount
       && opts.retryPolicy.Retry? && opts.sendAt.None?
  }

  lemma ExpiryIsDecoded(x: Json, age: nat)
    requires DecodeAttachments(x).Ok?
    ensures HasExpired(x, age) <==>
              exists a :: a in DecodeAttachments(x).value && a.maxAgeSecs.Some? && age > a.maxAgeSecs.value
  {
    var refs := DecodeAttachments(x).value;
    forall i | 0 <= i < |refs|
      ensures MaxAge(x.items[i]) == refs[i].maxAgeSecs && TextField(x.items[i], "filename").Some?
    {
      assert x.items[i] in x.items;
    }
    if HasExpired(x, age) {
      var y :| y in x.items && MaxAge(y).Some? && age > MaxAge(y).value;
      var i :| 0 <= i < |x.items| && x.items[i] == y;
      assert refs[i] in refs;
    }
    if a :| a in refs && a.maxAgeSecs.Some? && age > a.maxAgeSecs.value {
      var i :| 0 <= i < |refs| && refs[i] == a;
      assert x.items[i] in x.items;
    }
  }

  lemma AttachmentsStoredIff(d: EmailDetail, refs: seq<AttachmentRef>, since: Time, now: Time)
    ensures AttachmentsStored(d.attachments, refs, since, now) <==>
              DecodeAttachments(Attachments(d)) == Ok(refs) && !HasExpired(Attachments(d), AgeSecs(now, since))
  {
    forall a | a in refs && a.maxAgeSecs.Some?
      ensures AgeSecs(now, since) <= a.maxAgeSecs.value <==> now < since + (a.maxAgeSecs.value + 1) * NANOS_PER_SEC
    {
      AgeWithin(now, since, a.maxAgeSecs.value);
    }
    assert DecodeAttachments(JArray([])).value == [];
    if DecodeAttachments(Attachments(d)) == Ok(refs) {
      ExpiryIsDecoded(Attachments(d), AgeSecs(now, since));
    }
  }

  lemma OptionsStoredIff(ctx: Context, d: EmailDetail, opts: EmailOptions)
    ensures OverrideStored(ctx, d.fromOverride, opts.fromOverride) <==>
              OptionalOverride(d.fromOverride) == Ok(opts.fromOverride) && !BadOverride(ctx, d)
    ensures CopiesStored(ctx, d.cc, opts.cc) && CopiesStored(ctx, d.bcc, opts.bcc) <==>
              && OptionalRecipients(d.cc) == Ok(opts.cc) && OptionalRecipients(d.bcc) == Ok(opts.bcc)
              && !AnyBlocked(ctx.filter, opts.cc + opts.bcc)
    ensures ModesStored(d, opts.sendMode, opts.groupRetryMode) <==>
              ParseSendMode(d.sendMode) == Ok(opts.sendMode)
              && ParseGroupRetryMode(d.groupRetryMode) == Ok(opts.groupRetryMode)
  {
    NobodyBlocked(ctx, opts.cc, opts.bcc);
  }

  lemma NobodyBlocked(ctx: Context, cc: seq<Recipient>, bcc: seq<Recipient>)
    ensures !AnyBlocked(ctx.filter, cc + bcc) <==>
              && (forall r :: r in cc ==> ctx.filter.Check(r.email).Ok?)
              && forall r :: r in bcc ==> ctx.filter.Check(r.email).Ok?
  {
    if !AnyBlocked(ctx.filter, cc + bcc) {
      forall r | r in cc || r in bcc ensures ctx.filter.Check(r.email).Ok? {
        assert r in cc + bcc;
      }
    }
  }

  /** A rebuild succeeds exactly with the event the rows ask for. */
  lemma RebuildIff(ctx: Context, t: Table, e: EventId, listing: seq<Key>, first: Option<Key>, now: Time,
                   ev: NotificationEvent)
    requires forall k :: k in listing ==> k in t
    requires first.Some? ==> first.value in t && t[first.value].detail.Some?
    ensures Rebuild(ctx, t, e, listing, first, now) == Ok(ev) <==> IsReplay(ctx, t, e, listing, first, now, ev)
  {
    if first.Some? {
      var row, d := t[first.value], t[first.value].detail.value;
      var opts := Options(d, ListedRecipients(t, listing));
      if opts.Ok? {
        OptionsStoredIff(ctx, d, opts.value);
        AttachmentsStoredIff(d, opts.value.attachments, row.eventTimestamp, now);
      }
      if ev.email.Some? {
        OptionsStoredIff(ctx, d, ev.email.value);
        AttachmentsStoredIff(d, ev.email.value.attachments, row.eventTimestamp, now);
      }
    }
  }

  // ── Rows the consumer wrote ───────────────────────────────────────────────

  /** The inserts the consumer makes for an event. */
  function ConsumerArgs(j: Job): seq<InsertArgs>
    requires j.opts.recipients != []
  {
    if j.opts.sendMode.Group? then GroupArgs(j)
    else
      var rs := j.opts.recipients;
      seq(|rs|, i requires 0 <= i < |rs| => ArgsFor(j, rs[i], None, None))
  }

  /** The event's rows carry what some insert of the consumer put there. */
  ghost predicate WrittenFor(j: Job, t: Table)
    requires j.opts.recipients != []
  {
    forall k :: k in t && k.event == j.event.id ==> WrittenBy(j, t, k)
  }

  ghost predicate WrittenBy(j: Job, t: Table, k: Key)
    requires j.opts.recipients != [] && k in t
  {
    exists i :: 0 <= i < |ConsumerArgs(j)| && ConsumerArgs(j)[i].key == k
                && SameReplayColumns(t[k], FreshRow(ConsumerArgs(j)[i], t[k].createdAt))
  }

  /** Statements that add no row of the event keep that. */
  lemma EvolvingKeepsWritten(j: Job, t: Table, u: Table)
    requires j.opts.recipients != [] && WrittenFor(j, t) && Evolves(t, u)
    requires forall k :: k in u && k.event == j.event.id ==> k in t
    ensures WrittenFor(j, u)
  {
    forall k | k in u && k.event == j.event.id ensures WrittenBy(j, u, k) {
      assert k in t && WrittenBy(j, t, k);
    }
  }

  /** Individual attempts write such rows. */
  lemma RecipientCallWrites(ctx: Context, j: Job, r: Recipient, t: Table, a: Answers)
    requires r in j.opts.recipients && j.opts.sendMode.Individual? && WrittenFor(j, t)
    ensures WrittenFor(j, RecipientCall(ctx, j, r, t, a).rows)
  {
    var u := RecipientCall(ctx, j, r, t, a).rows;
    CallTouchesOneRow(ctx, j, r, t, a);
    var i :| 0 <= i < |j.opts.recipients| && j.opts.recipients[i] == r;
    assert ConsumerArgs(j)[i] == ArgsFor(j, r, None, None);
    forall k | k in u && k.event == j.event.id ensures WrittenBy(j, u, k) {
      if k in t {
        assert WrittenBy(j, t, k);
      } else {
        assert k == KeyOf(j, r);
        assert SameReplayColumns(u[k], FreshRow(ConsumerArgs(j)[i], u[k].createdAt));
      }
    }
  }

  lemma BatchWrites(j: Job, t: Table, now: Time)
    requires j.opts.recipients != [] && j.opts.sendMode.Group? && WrittenFor(j, t)
    ensures WrittenFor(j, AfterInsertAll(t, GroupArgs(j), now))
  {
    var u := AfterInsertAll(t, GroupArgs(j), now);
    forall k | k in u && k.event == j.event.id ensures WrittenBy(j, u, k) {
      BatchRow(t, GroupArgs(j), now, k);
      if k in t {
        assert WrittenBy(j, t, k);
      } else {
        var i :| 0 <= i < |GroupArgs(j)| && GroupArgs(j)[i].key == k && u[k] == FreshRow(GroupArgs(j)[i], now);
        assert ConsumerArgs(j)[i].key == k;
      }
    }
  }

  /** A whole individual loop keeps the event's rows replayable. */
  lemma {:induction false} LoopWrites(ctx: Context, cfg: Config, j: Job, r: Recipient, t: Table, c: Counters,
                                      answers: seq<Answers>)
    requires r in j.opts.recipients && j.opts.sendMode.Individual? && WrittenFor(j, t)
    ensures WrittenFor(j, Drive(ctx, cfg, j, r, t, c, answers).rows)
    decreases |answers|
  {
    if answers != [] {
      var a := answers[0];
      var call := RecipientCall(ctx, j, r, t, a);
      RecipientCallWrites(ctx, j, r, t, a);
      var d := Decide(cfg, j.opts.retryPolicy, false, c, call.outcome);
      var next := AfterArm(call.rows, KeyOf(j, r), d, call.outcome, a);
      ArmAddsNoRow(call.rows, KeyOf(j, r), d, call.outcome, a);
      assert forall k :: k in next ==> k in call.rows.Keys;
      EvolvingKeepsWritten(j, call.rows, next);
      if GoesOn(d, a) {
        LoopWrites(ctx, cfg, j, r, next, d.counters, answers[1..]);
      }
    }
  }

  lemma GroupAttemptWrites(ctx: Context, j: Job, results: seq<InsertResult>, inserted: Table, a: GroupAnswers)
    requires j.opts.recipients != [] && WrittenFor(j, inserted)
    requires j.opts.groupRetryMode.RetryIndividually? ==> |results| == |j.opts.recipients|
    ensures WrittenFor(j, GroupAttempt(ctx, j, results, inserted, a).rows)
  {
    AttemptEvolves(ctx, j, results, inserted, a);
    AttemptKeepsKeys(ctx, j, results, inserted, a);
    var after := GroupAttempt(ctx, j, results, inserted, a).rows;
    assert forall k :: k in after ==> k in inserted.Keys;
    EvolvingKeepsWritten(j, inserted, after);
  }

  /** Group attempts write such rows as well, whatever they end in. */
  lemma GroupCallWrites(ctx: Context, j: Job, maxRecipients: nat, t: Table, a: GroupAnswers)
    requires j.opts.recipients != [] && j.opts.sendMode.Group? && WrittenFor(j, t)
    ensures WrittenFor(j, GroupCall(ctx, j, maxRecipients, t, a).rows)
  {
    BatchWrites(j, t, a.base.now);
    GroupAttemptWrites(ctx, j, BatchResults(t, GroupArgs(j), a.base.now), AfterInsertAll(t, GroupArgs(j), a.base.now),
                       a);
  }

  /** So does a whole group loop. */
  lemma {:induction false} GroupLoopWrites(ctx: Context, cfg: Config, j: Job, t: Table, c: Counters,
                                           answers: seq<GroupAnswers>)
    requires j.opts.recipients != [] && j.opts.sendMode.Group? && WrittenFor(j, t)
    ensures WrittenFor(j, DriveGroup(ctx, cfg, j, t, c, answers).rows)
    decreases |answers|
  {
    if answers != [] {
      var a := answers[0];
      var call := GroupCall(ctx, j, cfg.maxRecipients, t, a);
      GroupCallWrites(ctx, j, cfg.maxRecipients, t, a);
      var d := Decide(cfg, j.opts.retryPolicy, true, c, call.outcome);
      var next := AfterArm(call.rows, PrimaryKey(j), d, call.outcome, a.base);
      ArmAddsNoRow(call.rows, PrimaryKey(j), d, call.outcome, a.base);
      assert forall k :: k in next ==> k in call.rows.Keys;
      EvolvingKeepsWritten(j, call.rows, next);
      if GoesOn(d, a.base) {
        GroupLoopWrites(ctx, cfg, j, next, d.counters, answers[1..]);
      }
    }
  }

  /** And so does the fallback, which adds no row. */
  lemma FallbackWrites(ctx: Context, cfg: Config, j: Job, skip: set<Email>, t: Table, answers: seq<seq<Answers>>,
                       panicked: nat -> bool)
    requires j.opts.recipients != [] && |j.opts.recipients| == |answers| && AllPresent(j, t) && WrittenFor(j, t)
    ensures WrittenFor(j, RunTasks(ctx, cfg, j, skip, t, answers, panicked).rows)
  {
    var u := RunTasks(ctx, cfg, j, skip, t, answers, panicked).rows;
    TasksKeep(ctx, cfg, j, skip, t, answers, panicked);
    assert forall k :: k in u ==> k in t.Keys;
    EvolvingKeepsWritten(j, t, u);
  }

  // ── The round trip ────────────────────────────────────────────────────────

  /** What the stored event must offer for a rebuild to go through. */
  ghost predicate Replayable(ctx: Context, j: Job, now: Time) {
    && (j.opts.fromOverride.Some? ==> ctx.validEmail(j.opts.fromOverride.value.email))
    && (forall a :: a in j.opts.attachments && a.maxAgeSecs.Some? ==>
         now < j.event.timestamp + (a.maxAgeSecs.value + 1) * NANOS_PER_SEC)
    && (forall r :: r in j.ccBcc.cc ==> ctx.filter.Check(r.email).Ok?)
    && (forall r :: r in j.ccBcc.bcc ==> ctx.filter.Check(r.email).Ok?)
    && !j.event.payload.JNull?
  }

  function ReplayedRetryMode(j: Job): GroupRetryMode {
    if j.opts.sendMode.Group? then j.opts.groupRetryMode else RetryWhole
  }

  /** The event a retry should enqueue: everything as published, except the retry policy,
      the schedule and, outside group mode, the group retry mode, which are not stored. */
  function Replayed(j: Job, recipients: seq<Recipient>): NotificationEvent {
    NotificationEvent(j.event.id, j.event.timestamp, j.event.eventType, j.event.payload,
                      Some(EmailOptions(j.opts.sendMode, ReplayedRetryMode(j), Retry, recipients, j.ccBcc.cc,
                                        j.ccBcc.bcc,
                                        j.opts.fromOverride, j.opts.attachments, j.opts.senderAccount, None)))
  }

  lemma OptionalRecipientsRoundTrip(rs: seq<Recipient>)
    ensures OptionalRecipients(NonEmptyList(rs)) == Ok(rs)
  {
    RecipientsRoundTrip(rs);
  }

  /** The replay columns of any one of the event's rows give the options back. */
  lemma OptionsRoundTrip(j: Job, r: Recipient, recipients: seq<Recipient>)
    ensures Options(DetailFor(j, r, ModeColumn(j), ToColumn(j)), recipients) == Ok(Replayed(j, recipients).email.value)
  {
    OptionalRecipientsRoundTrip(j.ccBcc.cc);
    OptionalRecipientsRoundTrip(j.ccBcc.bcc);
    AttachmentsRoundTrip(j.opts.attachments);
    AttachmentsRoundTrip([]);
    assert EncodeAttachments([]) == JArray([]);
    if j.opts.fromOverride.Some? {
      FromOverrideRoundTrip(j.opts.fromOverride.value);
    }
  }

  lemma ExpiryRoundTrip(refs: seq<AttachmentRef>, age: nat)
    ensures HasExpired(EncodeAttachments(refs), age) <==>
              exists a :: a in refs && a.maxAgeSecs.Some? && age > a.maxAgeSecs.value
  {
    var items := EncodeAttachments(refs).items;
    forall i | 0 <= i < |refs| ensures MaxAge(items[i]) == refs[i].maxAgeSecs && TextField(items[i], "filename").Some? {
      assert items[i] == EncodeAttachment(refs[i]);
    }
    if HasExpired(EncodeAttachments(refs), age) {
      var x :| x in items && MaxAge(x).Some? && age > MaxAge(x).value;
      var i :| 0 <= i < |items| && items[i] == x;
      assert refs[i] in refs;
    }
    if a :| a in refs && a.maxAgeSecs.Some? && age > a.maxAgeSecs.value {
      var i :| 0 <= i < |refs| && refs[i] == a;
      assert items[i] in items;
    }
  }

  function ModeColumn(j: Job): Option<string> {
    if j.opts.sendMode.Group? then Some(GroupRetryModeText(j.opts.groupRetryMode)) else None
  }

  function ToColumn(j: Job): Option<Json> {
    if j.opts.sendMode.Group? && j.opts.groupRetryMode.RetryWhole? then Some(EncodeRecipients(j.opts.recipients))
    else None
  }

  /** All of an event's rows carry the same event-level columns. */
  lemma ConsumerDetail(j: Job, i: nat)
    requires j.opts.recipients != [] && i < |ConsumerArgs(j)|
    ensures i < |j.opts.recipients|
    ensures ConsumerArgs(j)[i] == ArgsFor(j, j.opts.recipients[i], ModeColumn(j), ToColumn(j))
  {
  }

  /** The recipient a row was written for. */
  lemma RowsRecipient(j: Job, t: Table, k: Key) returns (r: Recipient)
    requires j.opts.recipients != [] && k in t && WrittenBy(j, t, k)
    ensures r in j.opts.recipients && KeyOf(j, r) == k
    ensures t[k].detail == Some(DetailFor(j, r, ModeColumn(j), ToColumn(j)))
    ensures t[k].eventType == j.event.eventType && t[k].payload == j.event.payload
    ensures t[k].eventTimestamp == j.event.timestamp
  {
    var i :| 0 <= i < |ConsumerArgs(j)| && ConsumerArgs(j)[i].key == k
             && SameReplayColumns(t[k], FreshRow(ConsumerArgs(j)[i], t[k].createdAt));
    ConsumerDetail(j, i);
    r := j.opts.recipients[i];
  }

  lemma AgeAgrees(ctx: Context, j: Job, now: Time, d: EmailDetail)
    requires d.fromOverride ==
             if j.opts.fromOverride.Some? then Some(EncodeFromOverride(j.opts.fromOverride.value)) else None
    requires d.attachments == if j.opts.attachments == [] then None else Some(EncodeAttachments(j.opts.attachments))
    ensures Replayable(ctx, j, now) <==>
              && !BadOverride(ctx, d) && !HasExpired(Attachments(d), AgeSecs(now, j.event.timestamp))
              && !AnyBlocked(ctx.filter, j.ccBcc.cc + j.ccBcc.bcc) && !j.event.payload.JNull?
  {
    ExpiryRoundTrip(j.opts.attachments, AgeSecs(now, j.event.timestamp));
    forall a | a in j.opts.attachments && a.maxAgeSecs.Some?
      ensures AgeSecs(now, j.event.timestamp) <= a.maxAgeSecs.value <==>
                now < j.event.timestamp + (a.maxAgeSecs.value + 1) * NANOS_PER_SEC
    {
      AgeWithin(now, j.event.timestamp, a.maxAgeSecs.value);
    }
    NobodyBlocked(ctx, j.ccBcc.cc, j.ccBcc.bcc);
    if j.opts.fromOverride.Some? {
      FromOverrideRoundTrip(j.opts.fromOverride.value);
    }
  }

  /** Every listed row has a known status, and some row stands for a recipient. */
  predicate Listable(t: Table, listing: seq<Key>)
    requires forall k :: k in listing ==> k in t
  {
    && (forall k :: k in listing ==> !t[k].status.Unrecognised?)
    && exists k :: k in listing && !t[k].status.Skipped?
  }

  /** From rows the consumer wrote, a rebuild goes through exactly when the listed rows allow it
      and the stored event is still replayable, and then it gives the event back, addressed to
      the listed rows. */
  lemma RebuildRoundTrip(ctx: Context, j: Job, t: Table, emails: set<Email>, listing: seq<Key>, first: Option<Key>,
                         now: Time)
    requires j.opts.recipients != [] && WrittenFor(j, t)
    requires IsListing(t, j.event.id, emails, listing) && IsFirst(t, j.event.id, first)
    ensures listing != [] ==> first.Some?
    ensures var rebuilt := Rebuild(ctx, t, j.event.id, listing, first, now);
            && (rebuilt.Ok? <==> Listable(t, listing) && Replayable(ctx, j, now))
            && (rebuilt.Ok? ==> rebuilt == Ok(Replayed(j, ListedRecipients(t, listing))))
  {
    if listing != [] {
      assert listing[0] in listing && Wanted(t, j.event.id, emails, listing[0]);
      assert WrittenBy(j, t, listing[0]);
      assert t[listing[0]].detail.Some?;
      assert WrittenBy(j, t, first.value);
      var r := RowsRecipient(j, t, first.value);
      OptionsRoundTrip(j, r, ListedRecipients(t, listing));
      AgeAgrees(ctx, j, now, t[first.value].detail.value);
      SomebodyListed(t, listing);
    }
  }

  lemma {:induction false} SomebodyListed(t: Table, listing: seq<Key>)
    requires forall k :: k in listing ==> k in t
    ensures ListedRecipients(t, listing) != [] <==> exists k :: k in listing && !t[k].status.Skipped?
  {
    if listing != [] {
      SomebodyListed(t, listing[..|listing| - 1]);
      assert listing == listing[..|listing| - 1] + [listing[|listing| - 1]];
    }
  }

  lemma {:induction false} NobodySkipped(t: Table, listing: seq<Key>)
    requires forall k :: k in listing ==> k in t && !t[k].status.Skipped?
    ensures |ListedRecipients(t, listing)| == |listing|
    ensures forall i :: 0 <= i < |listing| ==>
              ListedRecipients(t, listing)[i] == Recipient(listing[i].recipient, RecipientName(t[listing[i]]))
  {
    if listing != [] {
      NobodySkipped(t, listing[..|listing| - 1]);
    }
  }

  /** Who the rebuilt event is addressed to: the event's own recipients, with their names,
      whose rows the caller asked for. */
  lemma RebuiltRecipients(j: Job, t: Table, emails: set<Email>, listing: seq<Key>)
    requires j.opts.recipients != [] && WrittenFor(j, t) && DistinctAddresses(j.opts.recipients)
    requires IsListing(t, j.event.id, emails, listing)
    requires forall k :: k in listing ==> !t[k].status.Skipped?
    requires |WantedKeys(t, j.event.id, emails)| <= ROW_LIMIT
    ensures forall r :: r in ListedRecipients(t, listing) <==>
              r in j.opts.recipients && KeyOf(j, r) in t && r.email in emails
    ensures |ListedRecipients(t, listing)| == |WantedKeys(t, j.event.id, emails)|
  {
    NobodySkipped(t, listing);
    ListingIsComplete(t, j.event.id, emails, listing);
    var rs := ListedRecipients(t, listing);
    forall r | r in rs ensures r in j.opts.recipients && KeyOf(j, r) in t && r.email in emails {
      var i :| 0 <= i < |rs| && rs[i] == r;
      assert Wanted(t, j.event.id, emails, listing[i]) && WrittenBy(j, t, listing[i]);
      var q := RowsRecipient(j, t, listing[i]);
    }
    forall r | r in j.opts.recipients && KeyOf(j, r) in t && r.email in emails ensures r in rs {
      var k := KeyOf(j, r);
      assert k in WantedKeys(t, j.event.id, emails) && k in KeySet(listing);
      assert WrittenBy(j, t, k);
      var q := RowsRecipient(j, t, k);
      SameAddressSameRecipient(j.opts.recipients, q, r);
      var i :| 0 <= i < |listing| && listing[i] == k;
      assert rs[i] == r;
    }
  }

  lemma SameAddressSameRecipient(rs: seq<Recipient>, q: Recipient, r: Recipient)
    requires DistinctAddresses(rs) && q in rs && r in rs && q.email == r.email
    ensures q == r
  {
    var x :| 0 <= x < |rs| && rs[x] == q;
    var y :| 0 <= y < |rs| && rs[y] == r;
  }

  function KeySet(s: seq<Key>): set<Key> {
    set k | k in s
  }

  lemma {:induction false} DistinctSize(s: seq<Key>)
    requires Distinct(s)
    ensures |KeySet(s)| == |s|
  {
    if s != [] {
      var init := s[..|s| - 1];
      DistinctSize(init);
      assert KeySet(s) == KeySet(init) + {s[|s| - 1]};
      assert s[|s| - 1] !in init;
    }
  }

  /** Up to the limit the listing is every wanted row; above it, exactly 500 of them. */
  lemma ListingIsComplete(t: Table, e: EventId, emails: set<Email>, listing: seq<Key>)
    requires IsListing(t, e, emails, listing)
    ensures |WantedKeys(t, e, emails)| <= ROW_LIMIT ==>
              KeySet(listing) == WantedKeys(t, e, emails) && |listing| == |WantedKeys(t, e, emails)|
    ensures |WantedKeys(t, e, emails)| > ROW_LIMIT ==> |listing| == ROW_LIMIT
  {
    DistinctSize(listing);
    var wanted := WantedKeys(t, e, emails);
    assert KeySet(listing) <= wanted;
    if KeySet(listing) != wanted {
      var k :| k in wanted && k !in KeySet(listing);
      assert Wanted(t, e, emails, k) && |listing| == ROW_LIMIT;
      SubsetSize(KeySet(listing) + {k}, wanted);
    }
  }

  lemma {:induction false} SubsetSize<T>(a: set<T>, b: set<T>)
    requires a <= b
    ensures |a| <= |b|
  {
    assert b == a + (b - a);
  }

  /** The replay round trip of a bulk retry: if the consumer wrote the event's rows and at
      most 500 of them are FAILED, then after the reset the rebuild succeeds exactly when the
      event is still replayable, and yields the event as published, addressed to exactly the
      recipients whose rows were FAILED, each once. */
  lemma BulkRetryReplaysTheFailed(ctx: Context, j: Job, t: Table, resetAt: Time, listing: seq<Key>, first: Option<Key>,
                                  now: Time)
    requires j.opts.recipients != [] && WrittenFor(j, t) && DistinctAddresses(j.opts.recipients)
    requires 0 < |FailedKeys(t, j.event.id)| <= ROW_LIMIT
    requires var u := AfterReset(t, FailedKeys(t, j.event.id), resetAt);
             && IsListing(u, j.event.id, EmailsOf(FailedKeys(t, j.event.id)), listing) && IsFirst(u, j.event.id, first)
    ensures first.Some?
    ensures var u := AfterReset(t, FailedKeys(t, j.event.id), resetAt);
            var rs := ListedRecipients(u, listing);
            && (Rebuild(ctx, u, j.event.id, listing, first, now).Ok? <==> Replayable(ctx, j, now))
            && (Replayable(ctx, j, now) ==> Rebuild(ctx, u, j.event.id, listing, first, now) == Ok(Replayed(j, rs)))
            && (forall r :: r in rs <==> r in j.opts.recipients && KeyOf(j, r) in t && t[KeyOf(j, r)].status.Failed?)
            && |rs| == |FailedKeys(t, j.event.id)|
  {
    var e := j.event.id;
    var keys := FailedKeys(t, e);
    var u := AfterReset(t, keys, resetAt);
    var emails := EmailsOf(keys);
    WantedAreTheReset(t, keys, e, resetAt);
    EvolvingKeepsWritten(j, t, u);
    ListingIsComplete(u, e, emails, listing);
    forall k | k in listing ensures u[k].status.Pending? {
      assert k in KeySet(listing) && k in keys;
    }
    RebuildRoundTrip(ctx, j, u, emails, listing, first, now);
    RebuiltRecipients(j, u, emails, listing);
    forall r | r in j.opts.recipients ensures KeyOf(j, r) in u && r.email in emails <==> KeyOf(j, r) in keys {
      assert KeyOf(j, r) in WantedKeys(u, e, emails) <==> KeyOf(j, r) in u && r.email in emails;
    }
  }

  lemma WantedAreTheReset(t: Table, keys: set<Key>, e: EventId, now: Time)
    requires forall k :: k in keys ==> k in t && k.event == e
    ensures WantedKeys(AfterReset(t, keys, now), e, EmailsOf(keys)) == keys
  {
    var wanted := WantedKeys(AfterReset(t, keys, now), e, EmailsOf(keys));
    forall k | k in wanted ensures k in keys {
      var l :| l in keys && l.recipient == k.recipient;
      assert l == k;
    }
    forall k | k in keys ensures k in wanted {
      assert k.recipient in EmailsOf(keys);
    }
  }

  /** With more than 500 reset rows the rebuilt event leaves some of them out: they are
      PENDING, and no message will drive them. */
  lemma CapLeavesRowsBehind(t: Table, e: EventId, emails: set<Email>, listing: seq<Key>)
    requires IsListing(t, e, emails, listing) && |WantedKeys(t, e, emails)| > ROW_LIMIT
    ensures exists k :: k in WantedKeys(t, e, emails)
                        && forall r :: r in ListedRecipients(t, listing) ==> r.email != k.recipient
  {
    ListingIsComplete(t, e, emails, listing);
    DistinctSize(listing);
    assert KeySet(listing) != WantedKeys(t, e, emails);
    assert KeySet(listing) <= WantedKeys(t, e, emails);
    var k :| k in WantedKeys(t, e, emails) && k !in KeySet(listing);
    ListedOnly(t, listing);
    forall r | r in ListedRecipients(t, listing) ensures r.email != k.recipient {
      var l :| l in listing && l.recipient == r.email;
      assert Wanted(t, e, emails, l);
    }
  }

  lemma {:induction false} ListedOnly(t: Table, listing: seq<Key>)
    requires forall k :: k in listing ==> k in t
    ensures forall r :: r in ListedRecipients(t, listing) ==> exists k :: k in listing && k.recipient == r.email
  {
    if listing != [] {
      ListedOnly(t, listing[..|listing| - 1]);
    }
  }

  /** A group stored as a whole has one row, so a rebuild is addressed to the primary alone:
      the stored To: list is not read.  It equals the event's recipients only for a group of
      one. */
  lemma WholeGroupShrinksToPrimary(j: Job, t: Table, emails: set<Email>, listing: seq<Key>)
    requires j.opts.recipients != [] && WrittenFor(j, t)
    requires j.opts.sendMode.Group? && j.opts.groupRetryMode.RetryWhole?
    requires IsListing(t, j.event.id, emails, listing) && listing != []
    requires forall k :: k in listing ==> !t[k].status.Skipped?
    ensures ListedRecipients(t, listing) == [j.opts.recipients[0]]
    ensures ListedRecipients(t, listing) == j.opts.recipients <==> |j.opts.recipients| == 1
  {
    var k := KeyOf(j, j.opts.recipients[0]);
    NobodySkipped(t, listing);
    DistinctSize(listing);
    forall i | 0 <= i < |listing| ensures listing[i] == k {
      assert Wanted(t, j.event.id, emails, listing[i]) && WrittenBy(j, t, listing[i]);
    }
    assert listing[0] == k && KeySet(listing) == {k};
    var q := RowsRecipient(j, t, k);
    assert t[k].detail.value.recipientName == j.opts.recipients[0].name by {
      assert WrittenBy(j, t, k);
      ConsumerDetail(j, 0);
    }
    assert ListedRecipients(t, listing) == [j.opts.recipients[0]];
  }

  // ── The retry endpoints ───────────────────────────────────────────────────

  /** The reason text also carries the error, which plays no part here. */
  const RETRY_ABORTED := "manual retry aborted: re-enqueue failed"

  function RetryableKeys(t: Table): set<Key> {
    set k | k in t && t[k].status.IsRetryableRow()
  }

  /** What database, clock and broker answer while an event is rebuilt and published.  Whether
      the broker `stored` the event is a matter of its own: a confirm may be lost, and a refusal
      by the broker counts as success. */
  datatype Answered = Answered(listing: Result<seq<Key>, AppError>, first: Result<Option<Key>, AppError>, now: Time,
                               published: Result<(), AppError>, stored: bool, revertUp: bool, revertedAt: Time)

  /** The database answers are possible for table `t`. */
  ghost predicate Consistent(t: Table, e: EventId, emails: set<Email>, a: Answered) {
    && (a.listing.Ok? ==> IsListing(t, e, emails, a.listing.value))
    && (a.first.Ok? ==> IsFirst(t, e, a.first.value))
  }

  /** The event is rebuilt, and so handed to the broker. */
  ghost predicate Offered(ctx: Context, t: Table, e: EventId, emails: set<Email>, a: Answered)
    requires Consistent(t, e, emails, a)
  {
    a.listing.Ok? && a.first.Ok? && Rebuild(ctx, t, e, a.listing.value, a.first.value, a.now).Ok?
  }

  /** What the broker has afterwards that it had not before. */
  ghost function Emitted(ctx: Context, t: Table, e: EventId, emails: set<Email>, a: Answered): seq<NotificationEvent>
    requires Consistent(t, e, emails, a)
  {
    if Offered(ctx, t, e, emails, a) && a.stored then
      [Rebuild(ctx, t, e, a.listing.value, a.first.value, a.now).value]
    else []
  }

  /** `published` has the events the broker stored. */
  class RetryApi {
    const store: NotificationStore
    var published: seq<NotificationEvent>

    constructor (store: NotificationStore)
      ensures this.store == store && published == []
    {
      this.store := store;
      published := [];
    }

    /** Stores and reports independently: an event whose confirm is lost is there although the
        call fails, and one the broker refuses is not although the call succeeds. */
    method Publish(event: NotificationEvent, a: Answered) returns (r: Result<(), AppError>)
      modifies this`published
      ensures r == a.published && published == old(published) + if a.stored then [event] else []
    {
      if a.stored {
        published := published + [event];
      }
      return a.published;
    }

    method RepublishEvent(ctx: Context, e: EventId, ghost emails: set<Email>, a: Answered)
      returns (r: Result<(), AppError>)
      requires Consistent(store.rows, e, emails, a)
      modifies this`published
      ensures r.Ok? <==> Offered(ctx, store.rows, e, emails, a) && a.published.Ok?
      ensures published == old(published) + Emitted(ctx, store.rows, e, emails, a)
    {
      if a.listing.Err? {
        return Err(a.listing.error);
      }
      if a.first.Err? {
        return Err(a.first.error);
      }
      var event := Rebuild(ctx, store.rows, e, a.listing.value, a.first.value, a.now);
      if event.Err? {
        return Err(event.error);
      }
      r := Publish(event.value, a);
    }

    /** On any failure the rows go back to FAILED, if the database lets them. */
    method RepublishOrRevert(ctx: Context, e: EventId, emails: set<Email>, a: Answered)
      returns (r: Result<(), AppError>)
      requires Consistent(store.rows, e, emails, a)
      modifies this`published, store
      ensures r.Ok? <==> Offered(ctx, old(store.rows), e, emails, a) && a.published.Ok?
      ensures published == old(published) + Emitted(ctx, old(store.rows), e, emails, a)
      ensures store.rows == if r.Err? && a.revertUp
                then AfterRevert(old(store.rows), KeysFor(e, emails), RETRY_ABORTED, a.revertedAt) else old(store.rows)
    {
      r := RepublishEvent(ctx, e, emails, a);
      if r.Err? {
        var _ := store.RevertToFailed(KeysFor(e, emails), RETRY_ABORTED, a.revertedAt, a.revertUp);
      }
    }

    /** One recipient.  `resetUp` and `resetAt` answer the reset. */
    method RetryRecipient(ctx: Context, k: Key, resetUp: bool, resetAt: Time, a: Answered)
      returns (r: Result<(), AppError>)
      requires k in store.rows ==> Consistent(AfterReset(store.rows, {k}, resetAt), k.event, {k.recipient}, a)
      modifies this`published, store
      ensures var was, t := old(store.rows), AfterReset(old(store.rows), {k}, resetAt);
              if ctx.validEmail(k.recipient) && resetUp && k in was && was[k].status.IsRetryableRow() then
                && (r.Ok? <==> Offered(ctx, t, k.event, {k.recipient}, a) && a.published.Ok?)
                && published == old(published) + Emitted(ctx, t, k.event, {k.recipient}, a)
                && store.rows == if r.Err? && a.revertUp then AfterRevert(t, {k}, RETRY_ABORTED, a.revertedAt) else t
              else r.Err? && published == old(published) && store.rows == was
      ensures r.Err? && a.revertUp ==> RetryableKeys(store.rows) == RetryableKeys(old(store.rows))
      ensures Evolves(old(store.rows), store.rows)
    {
      if !ctx.validEmail(k.recipient) {
        return Err(PermanentMailer("not a valid email address"));
      }
      var reset := store.ResetForRetry(k, resetAt, resetUp);
      if reset.Err? {
        return Err(reset.error);
      }
      r := RepublishOrRevert(ctx, k.event, {k.recipient}, a);
      assert KeysFor(k.event, {k.recipient}) == {k};
      if r.Err? && a.revertUp {
        RevertUndoesReset(old(store.rows), {k}, RETRY_ABORTED, resetAt, a.revertedAt);
      }
    }

    /** Every FAILED recipient of the event.  `logsUp` answers the query that tells a
        skipped event from an unknown one. */
    method RetryEvent(ctx: Context, e: EventId, resetUp: bool, resetAt: Time, logsUp: bool, a: Answered)
      returns (r: Result<set<Email>, AppError>)
      requires Consistent(AfterReset(store.rows, FailedKeys(store.rows, e), resetAt), e,
                          EmailsOf(FailedKeys(store.rows, e)), a)
      modifies this`published, store
      ensures var failed := FailedKeys(old(store.rows), e);
              var t := AfterReset(old(store.rows), failed, resetAt);
              if resetUp && failed != {} then
                && (r.Ok? <==> Offered(ctx, t, e, EmailsOf(failed), a) && a.published.Ok?)
                && published == old(published) + Emitted(ctx, t, e, EmailsOf(failed), a)
                && (r.Ok? ==> r.value == EmailsOf(failed) && r.value != {})
                && store.rows == if r.Err? && a.revertUp then AfterRevert(t, failed, RETRY_ABORTED, a.revertedAt) else t
              else r.Err? && published == old(published) && store.rows == old(store.rows)
      ensures r.Err? && a.revertUp ==> RetryableKeys(store.rows) == RetryableKeys(old(store.rows))
      ensures Evolves(old(store.rows), store.rows)
    {
      ghost var before := store.rows;
      var reset := store.ResetAllFailedForEvent(e, resetAt, resetUp);
      if reset.Err? {
        return Err(reset.error);
      }
      if reset.value == {} {
        assert store.rows == before;
        if logsUp && exists k :: k in store.rows && k.event == e && store.rows[k].status.Skipped? {
          return Err(PermanentMailer("event was skipped at validation time"));
        }
        return Err(NotFoundError("no FAILED recipients"));
      }
      var emails := EmailsOf(reset.value);
      var done := RepublishOrRevert(ctx, e, emails, a);
      KeysForEmails(FailedKeys(before, e), e);
      if done.Err? {
        if a.revertUp {
          RevertUndoesReset(before, FailedKeys(before, e), RETRY_ABORTED, resetAt, a.revertedAt);
        }
        return Err(done.error);
      }
      assert exists k :: k in reset.value;
      return Ok(emails);
    }
  }

  function EmailsOf(keys: set<Key>): set<Email> {
    set k | k in keys :: k.recipient
  }

  function KeysFor(e: EventId, emails: set<Email>): set<Key> {
    set m | m in emails :: Key(e, m)
  }

  lemma KeysForEmails(keys: set<Key>, e: EventId)
    requires forall k :: k in keys ==> k.event == e
    ensures KeysFor(e, EmailsOf(keys)) == keys
  {
    forall k | k in keys ensures k in KeysFor(e, EmailsOf(keys)) {
      assert k.recipient in EmailsOf(keys) && k == Key(e, k.recipient);
    }
  }

  /** Compensation: reverting what was just reset leaves the set of retryable rows, and all
      rows outside it, as they were; only FAILED and BLOCKED become one. */
  lemma RevertUndoesReset(t: Table, keys: set<Key>, reason: string, resetAt: Time, revertedAt: Time)
    requires forall k :: k in keys && k in t ==> t[k].status.IsRetryableRow()
    ensures var u := AfterRevert(AfterReset(t, keys, resetAt), keys, reason, revertedAt);
            && u.Keys == t.Keys && RetryableKeys(u) == RetryableKeys(t) && Evolves(t, u)
            && forall k :: k in t ==> u[k] == if k in keys
                   then t[k].(status := Status.Failed, retryCount := 0, lastError := Some(reason),
                               updatedAt := revertedAt)
                   else t[k]
  {
  }
}
