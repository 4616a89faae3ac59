/** One delivery attempt, for a single recipient or for a group
    (crates/consumer/src/processor.rs). */
module Processor {
  import opened Common
  import opened Event
  import opened NotificationLog
  import opened RecipientFilter
  import opened RetryLoop

  datatype Rendered = Rendered(subject: string, html: string, text: string)

  datatype EmailMessage = EmailMessage(
    event: EventId, toEmail: Email, toName: Option<string>, toExtra: seq<Recipient>,
    body: Rendered, fromOverride: Option<FromOverride>, attachments: seq<ResolvedAttachment>,
    cc: seq<Recipient>, bcc: seq<Recipient>)
  {
    /** The addresses of the To: header. */
    function To(): seq<Recipient> {
      [Recipient(toEmail, toName)] + toExtra
    }
  }

  /** The mail sender; `sent` logs every message it was handed. */
  class Sender {
    var sent: seq<EmailMessage>

    constructor ()
      ensures sent == []
    {
      sent := [];
    }

    method Send(m: EmailMessage, answer: Result<(), AppError>) returns (r: Result<(), AppError>)
      modifies this
      ensures sent == old(sent) + [m] && r == answer
    {
      sent := sent + [m];
      return answer;
    }
  }

  /** What every call shares: address validity and the static filter. */
  datatype Context = Context(validEmail: Email -> bool, filter: Filter)

  /** One event on its way to its recipients. */
  datatype Job = Job(event: NotificationEvent, opts: EmailOptions, ccBcc: EffectiveCcBcc,
                     attachments: seq<ResolvedAttachment>)

  /** What the outside world answers during one attempt, at `now`, and the loop steps after
      it; a shutdown during the sleep comes at `shutdownAt`. */
  datatype Answers = Answers(
    template: Option<AppError>, rendered: Result<Rendered, AppError>, serialized: Option<AppError>,
    insertUp: bool, blockList: Result<(), AppError>, token: bool, send: Result<(), AppError>,
    markUp: bool, failUp: bool, shutdown: bool, shutdownUp: bool, now: Time, shutdownAt: Time)
  {
    predicate StoreUp() {
      insertUp && markUp && failUp && shutdownUp
    }
  }

  datatype CallResult = CallResult(rows: Table, outcome: Outcome, sent: seq<EmailMessage>)

  // ── Individual attempts ───────────────────────────────────────────────────

  function KeyOf(j: Job, r: Recipient): Key {
    Key(j.event.id, r.email)
  }

  function NonEmptyList(rs: seq<Recipient>): Option<Json> {
    if rs == [] then None else Some(EncodeRecipients(rs))
  }

  /** The replay columns written for one recipient. */
  function DetailFor(j: Job, r: Recipient, groupRetryMode: Option<string>, toRecipients: Option<Json>): EmailDetail {
    EmailDetail(
      r.name,
      if j.opts.fromOverride.Some? then Some(EncodeFromOverride(j.opts.fromOverride.value)) else None,
      if j.opts.attachments == [] then None else Some(EncodeAttachments(j.opts.attachments)),
      j.opts.senderAccount,
      NonEmptyList(j.ccBcc.cc), NonEmptyList(j.ccBcc.bcc),
      Some(SendModeText(j.opts.sendMode)), groupRetryMode, toRecipients)
  }

  function ArgsFor(j: Job, r: Recipient, groupRetryMode: Option<string>, toRecipients: Option<Json>): InsertArgs {
    InsertArgs(KeyOf(j, r), j.event.eventType, j.event.payload, j.event.timestamp,
               DetailFor(j, r, groupRetryMode, toRecipients))
  }

  function MessageFor(j: Job, primary: Recipient, extra: seq<Recipient>, body: Rendered): EmailMessage {
    EmailMessage(j.event.id, primary.email, primary.name, extra, body, j.opts.fromOverride, j.attachments,
                 j.ccBcc.cc, j.ccBcc.bcc)
  }

  /** The steps before the idempotency insert that do not concern the recipient address. */
  function PrepareError(ctx: Context, j: Job, a: Answers): Option<AppError> {
    if a.template.Some? then a.template
    else if j.opts.fromOverride.Some? && !ctx.validEmail(j.opts.fromOverride.value.email) then
      Some(PermanentMailer("invalid from_override email address"))
    else if a.rendered.Err? then Some(a.rendered.error)
    else a.serialized
  }

  function PreInsertError(ctx: Context, j: Job, r: Recipient, a: Answers): Option<AppError> {
    if !ctx.validEmail(r.email) then Some(PermanentMailer("invalid recipient email address"))
    else PrepareError(ctx, j, a)
  }

  /** How a call answers for a row that was there before it. */
  function ExistingOutcome(retryCount: nat, status: Status): Outcome {
    match status
    case Sent => AlreadyDone
    case Blocked => AlreadyDone
    case Unrecognised(text) => Failure(UnknownStatusError(text))
    case _ => StillPending(retryCount)
  }

  function BlockReason(r: Result<(), AppError>): Option<string> {
    if r.Err? && r.error.BlockedError? then Some(r.error.message) else None
  }

  /** The static filter decides first; any other error of the database list lets mail pass. */
  function Refusal(ctx: Context, email: Email, a: Answers): Option<string> {
    if BlockReason(ctx.filter.Check(email)).Some? then BlockReason(ctx.filter.Check(email))
    else BlockReason(a.blockList)
  }

  const SHUTDOWN_WAITING := QueueError("service shutdown during rate-limit wait")

  function RecipientCall(ctx: Context, j: Job, r: Recipient, rows: Table, a: Answers): CallResult {
    var k := KeyOf(j, r);
    var early := PreInsertError(ctx, j, r, a);
    if early.Some? then CallResult(rows, Failure(early.value), [])
    else if !a.insertUp then CallResult(rows, Failure(DatabaseError("database unavailable")), [])
    else if k in rows then CallResult(rows, ExistingOutcome(rows[k].retryCount, rows[k].status), [])
    else FirstAttempt(ctx, j, r, AfterInsert(rows, ArgsFor(j, r, None, None), a.now), a)
  }

  /** The rest of the call that created the row. */
  function FirstAttempt(ctx: Context, j: Job, r: Recipient, rows: Table, a: Answers): CallResult {
    var k := KeyOf(j, r);
    var refusal := Refusal(ctx, r.email, a);
    if refusal.Some? then
      CallResult(if a.markUp then AfterMarkBlocked(rows, k, refusal.value, a.now) else rows, Refused(refusal.value), [])
    else if !a.token then CallResult(rows, Failure(SHUTDOWN_WAITING), [])
    else
      var message := MessageFor(j, r, [], if a.rendered.Ok? then a.rendered.value else Rendered("", "", ""));
      if a.send.Err? then CallResult(rows, Failure(a.send.error), [message])
      else CallResult(if a.markUp then AfterMarkSent(rows, k, a.now) else rows, Delivered, [message])
  }

  method ProcessRecipient(ctx: Context, store: NotificationStore, sender: Sender, j: Job, r: Recipient, a: Answers)
    returns (outcome: Outcome)
    modifies store, sender
    ensures var c := RecipientCall(ctx, j, r, old(store.rows), a);
            store.rows == c.rows && outcome == c.outcome && sender.sent == old(sender.sent) + c.sent
  {
    if !ctx.validEmail(r.email) {
      return Failure(PermanentMailer("invalid recipient email address"));
    }
    if a.template.Some? {
      return Failure(a.template.value);
    }
    if j.opts.fromOverride.Some? {
      if !ctx.validEmail(j.opts.fromOverride.value.email) {
        return Failure(PermanentMailer("invalid from_override email address"));
      }
    }
    if a.rendered.Err? {
      return Failure(a.rendered.error);
    }
    if a.serialized.Some? {
      return Failure(a.serialized.value);
    }
    var inserted := store.InsertPending(ArgsFor(j, r, None, None), a.now, a.insertUp);
    if inserted.Err? {
      return Failure(inserted.error);
    }
    if inserted.value.Duplicate? {
      match inserted.value.status {
        case Sent => return AlreadyDone;
        case Blocked => return AlreadyDone;
        case Unrecognised(text) => return Failure(UnknownStatusError(text));
        case _ => return StillPending(inserted.value.retryCount);
      }
    }
    outcome := SendToRecipient(ctx, store, sender, j, r, a);
  }

  /** The steps of `process_recipient` after the insert that created the row. */
  method SendToRecipient(ctx: Context, store: NotificationStore, sender: Sender, j: Job, r: Recipient, a: Answers)
    returns (outcome: Outcome)
    requires a.rendered.Ok?
    modifies store, sender
    ensures var c := FirstAttempt(ctx, j, r, old(store.rows), a);
            store.rows == c.rows && outcome == c.outcome && sender.sent == old(sender.sent) + c.sent
  {
    if !ctx.filter.IsPassthrough() {
      var verdict := ctx.filter.Check(r.email);
      if verdict.Err? && verdict.error.BlockedError? {
        var _ := store.MarkBlocked(KeyOf(j, r), verdict.error.message, a.now, a.markUp);
        return Refused(verdict.error.message);
      }
    } else {
      PassthroughAdmits(ctx.filter, r.email);
    }
    if a.blockList.Err? && a.blockList.error.BlockedError? {
      var _ := store.MarkBlocked(KeyOf(j, r), a.blockList.error.message, a.now, a.markUp);
      return Refused(a.blockList.error.message);
    }
    var message := MessageFor(j, r, [], a.rendered.value);
    outcome := ExecuteSend(store, sender, message, a.token, a.send, [KeyOf(j, r)], _ => a.markUp, a.now, false);
  }

  /** Token, send, then one `mark_sent` per target in order; a failed write is only logged. */
  method ExecuteSend(store: NotificationStore, sender: Sender, message: EmailMessage, token: bool,
                     answer: Result<(), AppError>, targets: seq<Key>, markUp: nat -> bool, now: Time,
                     individualRows: bool)
    returns (outcome: Outcome)
    modifies store, sender
    ensures !token ==> outcome == Failure(SHUTDOWN_WAITING)
    ensures !token ==> store.rows == old(store.rows) && sender.sent == old(sender.sent)
    ensures token ==> sender.sent == old(sender.sent) + [message]
    ensures token && answer.Ok? ==>
              outcome == Delivered && store.rows == AfterMarkAll(old(store.rows), targets, markUp, now)
    ensures token && answer.Err? ==> store.rows == old(store.rows)
    ensures token && answer.Err? ==>
              outcome == if individualRows then GroupFailure(answer.error) else Failure(answer.error)
  {
    if !token {
      return Failure(SHUTDOWN_WAITING);
    }
    var sent := sender.Send(message, answer);
    if sent.Err? {
      return if individualRows then GroupFailure(sent.error) else Failure(sent.error);
    }
    for i := 0 to |targets|
      invariant store.rows == AfterMarkAll(old(store.rows), targets[..i], markUp, now)
      invariant sender.sent == old(sender.sent) + [message]
    {
      assert targets[..i + 1][..i] == targets[..i];
      var _ := store.MarkSent(targets[i], now, markUp(i));
    }
    assert targets[..|targets|] == targets;
    return Delivered;
  }

  function AfterMarkAll(rows: Table, targets: seq<Key>, markUp: nat -> bool, now: Time): Table {
    if targets == [] then rows
    else
      var n := |targets| - 1;
      var before := AfterMarkAll(rows, targets[..n], markUp, now);
      if markUp(n) then AfterMarkSent(before, targets[n], now) else before
  }

  // ── What one individual attempt does ──────────────────────────────────────

  /** A message goes out only on the call that creates the recipient's row. */
  lemma SendNeedsFreshRow(ctx: Context, j: Job, r: Recipient, rows: Table, a: Answers)
    ensures var c := RecipientCall(ctx, j, r, rows, a);
            && (c.sent != [] ==> KeyOf(j, r) !in rows && KeyOf(j, r) in c.rows)
            && (KeyOf(j, r) in rows ==> c == CallResult(rows, c.outcome, []))
            && |c.sent| <= 1
  {
  }

  /** One attempt touches no other recipient and never removes or rewrites replay data. */
  lemma CallTouchesOneRow(ctx: Context, j: Job, r: Recipient, rows: Table, a: Answers)
    ensures var c := RecipientCall(ctx, j, r, rows, a);
            && Evolves(rows, c.rows)
            && (forall k :: k != KeyOf(j, r) ==> (k in c.rows <==> k in rows) && (k in rows ==> c.rows[k] == rows[k]))
  {
    var inserted := AfterInsert(rows, ArgsFor(j, r, None, None), a.now);
    FirstAttemptTouchesOneRow(ctx, j, r, inserted, a);
    assert forall k :: k != KeyOf(j, r) ==> (k in inserted <==> k in rows) && (k in rows ==> inserted[k] == rows[k]);
  }

  lemma FirstAttemptTouchesOneRow(ctx: Context, j: Job, r: Recipient, rows: Table, a: Answers)
    ensures var c := FirstAttempt(ctx, j, r, rows, a);
            && Evolves(rows, c.rows)
            && (forall k :: k != KeyOf(j, r) ==> (k in c.rows <==> k in rows) && (k in rows ==> c.rows[k] == rows[k]))
  {
  }

  // ── Group attempts ────────────────────────────────────────────────────────

  /** Answers for a group attempt: `insertFailAt` is the refused batch statement, and
      `blockUp`/`sentUp` answer the writes for the n-th recipient or target. */
  datatype GroupAnswers = GroupAnswers(
    base: Answers, insertFailAt: Option<nat>, blockUp: nat -> bool, sentUp: nat -> bool)
  {
    ghost predicate StoreUp() {
      insertFailAt.None? && (forall n: nat :: blockUp(n)) && (forall n: nat :: sentUp(n)) && base.StoreUp()
    }
  }

  function InvalidRecipient(ctx: Context, rs: seq<Recipient>): bool {
    exists r :: r in rs && !ctx.validEmail(r.email)
  }

  function GroupPreInsertError(ctx: Context, j: Job, maxRecipients: nat, a: Answers): Option<AppError> {
    if j.opts.recipients == [] then Some(PermanentMailer("group send: recipients list is empty"))
    else if |j.opts.recipients| > maxRecipients then Some(PermanentMailer("group send: too many recipients"))
    else if InvalidRecipient(ctx, j.opts.recipients) then Some(PermanentMailer("invalid recipient email address"))
    else PrepareError(ctx, j, a)
  }

  /** One row per recipient, or only the primary's with the whole To: list in it. */
  function GroupArgs(j: Job): seq<InsertArgs>
    requires j.opts.recipients != []
  {
    var rs := j.opts.recipients;
    if j.opts.groupRetryMode.RetryIndividually? then
      seq(|rs|, i requires 0 <= i < |rs| => ArgsFor(j, rs[i], Some("individual"), None))
    else [ArgsFor(j, rs[0], Some("whole"), Some(EncodeRecipients(rs)))]
  }

  predicate Admitted(ctx: Context, r: Recipient) {
    BlockReason(ctx.filter.Check(r.email)).None?
  }

  function AdmittedOnly(ctx: Context, rs: seq<Recipient>): seq<Recipient> {
    if rs == [] then []
    else AdmittedOnly(ctx, rs[..|rs| - 1]) + if Admitted(ctx, rs[|rs| - 1]) then [rs[|rs| - 1]] else []
  }

  /** The table after the filter loop has marked the refused recipients. */
  function AfterFilter(ctx: Context, j: Job, rs: seq<Recipient>, rows: Table, up: nat -> bool, now: Time): Table {
    if rs == [] then rows
    else
      var n := |rs| - 1;
      var before := AfterFilter(ctx, j, rs[..n], rows, up, now);
      var reason := BlockReason(ctx.filter.Check(rs[n].email));
      if reason.Some? && up(n) then AfterMarkBlocked(before, KeyOf(j, rs[n]), reason.value, now) else before
  }

  function Without(rs: seq<Recipient>, emails: set<Email>): seq<Recipient> {
    if rs == [] then []
    else (if rs[0].email in emails then [] else [rs[0]]) + Without(rs[1..], emails)
  }

  /** Addresses whose row was SENT or BLOCKED before the batch; the primary is not looked at. */
  function AlreadySent(rs: seq<Recipient>, results: seq<InsertResult>): set<Email>
    requires |rs| == |results|
  {
    set i | 1 <= i < |rs| && results[i].Duplicate? && results[i].status.IsTerminal() :: rs[i].email
  }

  function BatchResults(rows: Table, args: seq<InsertArgs>, now: Time): seq<InsertResult> {
    seq(|args|, i requires 0 <= i < |args| => InsertOutcome(AfterInsertAll(rows, args[..i], now), args[i]))
  }

  function GroupCall(ctx: Context, j: Job, maxRecipients: nat, rows: Table, a: GroupAnswers): CallResult {
    var early := GroupPreInsertError(ctx, j, maxRecipients, a.base);
    if early.Some? then CallResult(rows, Failure(early.value), [])
    else
      var args := GroupArgs(j);
      if a.insertFailAt.Some? && a.insertFailAt.value <= |args| then
        CallResult(rows, Failure(DatabaseError("database unavailable")), [])
      else
        var results := BatchResults(rows, args, a.base.now);
        var inserted := AfterInsertAll(rows, args, a.base.now);
        if results[0].Duplicate? then
          CallResult(inserted, ExistingOutcome(results[0].retryCount, results[0].status), [])
        else GroupAttempt(ctx, j, results, inserted, a)
  }

  /** Who the group message goes to after filtering and stripping. */
  function Unsent(ctx: Context, j: Job, results: seq<InsertResult>): seq<Recipient>
    requires j.opts.groupRetryMode.RetryIndividually? ==> |results| == |j.opts.recipients|
  {
    if j.opts.groupRetryMode.RetryIndividually? then
      Without(AdmittedOnly(ctx, j.opts.recipients), AlreadySent(j.opts.recipients, results))
    else AdmittedOnly(ctx, j.opts.recipients)
  }

  function Rest(rs: seq<Recipient>): seq<Recipient> {
    if rs == [] then [] else rs[1..]
  }

  function Keys(j: Job, rs: seq<Recipient>): seq<Key> {
    seq(|rs|, i requires 0 <= i < |rs| => KeyOf(j, rs[i]))
  }

  /** The rest of the group call that created the primary row.  The primary is always the
      first To: address, and `Rest` drops whoever comes first among the unsent. */
  function GroupAttempt(ctx: Context, j: Job, results: seq<InsertResult>, inserted: Table, a: GroupAnswers): CallResult
    requires j.opts.recipients != []
    requires j.opts.groupRetryMode.RetryIndividually? ==> |results| == |j.opts.recipients|
  {
    var rs, primary := j.opts.recipients, j.opts.recipients[0];
    var filtered := AfterFilter(ctx, j, rs, inserted, a.blockUp, a.base.now);
    if AdmittedOnly(ctx, rs) == [] then CallResult(filtered, Refused("all TO recipients blocked by filter"), [])
    else
      var extra := Rest(Unsent(ctx, j, results));
      var individually := j.opts.groupRetryMode.RetryIndividually?;
      var body := if a.base.rendered.Ok? then a.base.rendered.value else Rendered("", "", "");
      var message := MessageFor(j, primary, extra, body);
      var targets := [KeyOf(j, primary)] + if individually then Keys(j, extra) else [];
      if !a.base.token then CallResult(filtered, Failure(SHUTDOWN_WAITING), [])
      else if a.base.send.Err? then
        CallResult(filtered, if individually then GroupFailure(a.base.send.error) else Failure(a.base.send.error),
                   [message])
      else CallResult(AfterMarkAll(filtered, targets, a.sentUp, a.base.now), Delivered, [message])
  }

  lemma WithoutSplit(rs: seq<Recipient>, n: nat, emails: set<Email>)
    requires n < |rs|
    ensures Without(rs[..n + 1], emails) == Without(rs[..n], emails) + if rs[n].email in emails then [] else [rs[n]]
  {
    if n > 0 {
      WithoutSplit(rs[1..], n - 1, emails);
      assert rs[..n + 1][1..] == rs[1..][..n];
      assert rs[..n][1..] == rs[1..][..n - 1];
    } else {
      assert rs[..1] == [rs[0]];
      assert [rs[0]][1..] == [];
    }
  }

  lemma {:induction false} WithoutNobody(rs: seq<Recipient>)
    ensures Without(rs, {}) == rs
  {
    if rs != [] {
      WithoutNobody(rs[1..]);
    }
  }

  method ProcessGroup(ctx: Context, store: NotificationStore, sender: Sender, j: Job, maxRecipients: nat,
                      a: GroupAnswers)
    returns (outcome: Outcome)
    modifies store, sender
    ensures var c := GroupCall(ctx, j, maxRecipients, old(store.rows), a);
            store.rows == c.rows && outcome == c.outcome && sender.sent == old(sender.sent) + c.sent
  {
    var rs := j.opts.recipients;
    if rs == [] {
      return Failure(PermanentMailer("group send: recipients list is empty"));
    }
    var primary := rs[0];
    if |rs| > maxRecipients {
      return Failure(PermanentMailer("group send: too many recipients"));
    }
    for i := 0 to |rs|
      invariant forall k :: 0 <= k < i ==> ctx.validEmail(rs[k].email)
    {
      if !ctx.validEmail(rs[i].email) {
        assert InvalidRecipient(ctx, rs);
        return Failure(PermanentMailer("invalid recipient email address"));
      }
    }
    var early := PrepareError(ctx, j, a.base);
    if early.Some? {
      return Failure(early.value);
    }
    var args := GroupArgs(j);
    var inserted := store.InsertPendingBatch(args, a.base.now, a.insertFailAt);
    if inserted.Err? {
      return Failure(inserted.error);
    }
    var results := inserted.value;
    assert results == BatchResults(old(store.rows), args, a.base.now);
    if results[0].Duplicate? {
      match results[0].status {
        case Sent => return AlreadyDone;
        case Blocked => return AlreadyDone;
        case Unrecognised(text) => return Failure(UnknownStatusError(text));
        case _ => return StillPending(results[0].retryCount);
      }
    }
    outcome := SendToGroup(ctx, store, sender, j, results, a);
  }

  /** Step 3c: the secondary results, at the same index as their recipients. */
  method CollectAlreadySent(rs: seq<Recipient>, results: seq<InsertResult>) returns (already: set<Email>)
    requires |rs| == |results| > 0
    ensures already == AlreadySent(rs, results)
  {
    already := {};
    for i := 1 to |rs|
      invariant already == set k | 1 <= k < i && results[k].Duplicate? && results[k].status.IsTerminal() :: rs[k].email
    {
      if results[i].Duplicate? && results[i].status.IsTerminal() {
        already := already + {rs[i].email};
      }
    }
  }

  /** Step 4: the static filter, marking refused recipients on the way. */
  method FilterGroup(ctx: Context, store: NotificationStore, j: Job, up: nat -> bool, now: Time)
    returns (allowed: seq<Recipient>)
    modifies store
    ensures allowed == AdmittedOnly(ctx, j.opts.recipients)
    ensures store.rows == AfterFilter(ctx, j, j.opts.recipients, old(store.rows), up, now)
  {
    var rs := j.opts.recipients;
    allowed := [];
    for i := 0 to |rs|
      invariant allowed == AdmittedOnly(ctx, rs[..i])
      invariant store.rows == AfterFilter(ctx, j, rs[..i], old(store.rows), up, now)
    {
      assert rs[..i + 1][..i] == rs[..i];
      var verdict := ctx.filter.Check(rs[i].email);
      if verdict.Err? && verdict.error.BlockedError? {
        var _ := store.MarkBlocked(KeyOf(j, rs[i]), verdict.error.message, now, up(i));
      } else {
        allowed := allowed + [rs[i]];
      }
    }
    assert rs[..|rs|] == rs;
  }

  /** Step 4b. */
  method StripSent(allowed: seq<Recipient>, already: set<Email>) returns (unsent: seq<Recipient>)
    ensures unsent == Without(allowed, already)
  {
    if already == {} {
      WithoutNobody(allowed);
      return allowed;
    }
    unsent := [];
    for i := 0 to |allowed|
      invariant unsent == Without(allowed[..i], already)
    {
      WithoutSplit(allowed, i, already);
      if allowed[i].email !in already {
        unsent := unsent + [allowed[i]];
      }
    }
    assert allowed[..|allowed|] == allowed;
  }

  /** Steps 3c to 7 of `process_group`. */
  method SendToGroup(ctx: Context, store: NotificationStore, sender: Sender, j: Job, results: seq<InsertResult>,
                     a: GroupAnswers)
    returns (outcome: Outcome)
    requires j.opts.recipients != [] && a.base.rendered.Ok?
    requires j.opts.groupRetryMode.RetryIndividually? ==> |results| == |j.opts.recipients|
    modifies store, sender
    ensures var c := GroupAttempt(ctx, j, results, old(store.rows), a);
            store.rows == c.rows && outcome == c.outcome && sender.sent == old(sender.sent) + c.sent
  {
    var primary := j.opts.recipients[0];
    var individually := j.opts.groupRetryMode.RetryIndividually?;
    var already: set<Email> := {};
    if individually {
      already := CollectAlreadySent(j.opts.recipients, results);
    }
    var allowed := FilterGroup(ctx, store, j, a.blockUp, a.base.now);
    if allowed == [] {
      return Refused("all TO recipients blocked by filter");
    }
    var unsent := StripSent(allowed, already);
    WithoutNobody(allowed);
    var extra := Rest(unsent);
    var message := MessageFor(j, primary, extra, a.base.rendered.value);
    var targets := [KeyOf(j, primary)] + if individually then Keys(j, extra) else [];
    outcome := ExecuteSend(store, sender, message, a.base.token, a.base.send, targets, a.sentUp, a.base.now,
                           individually);
  }
}
