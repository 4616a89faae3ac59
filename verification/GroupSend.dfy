/** Who a group message reaches and what it leaves in the status table
    (`process_group`, crates/consumer/src/processor.rs). */
module GroupSend {
  import opened Common
  import opened Event
  import opened NotificationLog
  import opened RetryLoop
  import opened Processor

  /** The recipient already has a SENT or BLOCKED row. */
  predicate Done(j: Job, rows: Table, r: Recipient) {
    KeyOf(j, r) in rows && rows[KeyOf(j, r)].status.IsTerminal()
  }

  /** Who the message is for: the admitted recipients, in order, and with a row per
      recipient only those not already terminal. */
  function Intended(ctx: Context, j: Job, rows: Table, rs: seq<Recipient>): seq<Recipient> {
    if rs == [] then []
    else
      var last := rs[|rs| - 1];
      var skip := !Admitted(ctx, last) || (j.opts.groupRetryMode.RetryIndividually? && Done(j, rows, last));
      Intended(ctx, j, rows, rs[..|rs| - 1]) + if skip then [] else [last]
  }

  lemma {:induction false} WithoutConcat(a: seq<Recipient>, b: seq<Recipient>, emails: set<Email>)
    ensures Without(a + b, emails) == Without(a, emails) + Without(b, emails)
  {
    if a == [] {
      assert a + b == b;
    } else {
      WithoutConcat(a[1..], b, emails);
      var head := if a[0].email in emails then [] else [a[0]];
      assert (a + b)[0] == a[0] && (a + b)[1..] == a[1..] + b;
      assert head + (Without(a[1..], emails) + Without(b, emails)) ==
        (head + Without(a[1..], emails)) + Without(b, emails);
    }
  }

  /** Filtering then stripping, as the code does, keeps the intended recipients. */
  lemma {:induction false} StripIsIntended(ctx: Context, j: Job, rows: Table, rs: seq<Recipient>, already: set<Email>)
    requires j.opts.groupRetryMode.RetryIndividually?
    requires forall r :: r in rs ==> (r.email in already <==> Done(j, rows, r))
    ensures Without(AdmittedOnly(ctx, rs), already) == Intended(ctx, j, rows, rs)
  {
    if rs != [] {
      var init, last := rs[..|rs| - 1], rs[|rs| - 1];
      StripIsIntended(ctx, j, rows, init, already);
      WithoutConcat(AdmittedOnly(ctx, init), [last], already);
      assert [last][1..] == [];
      assert Without([last], already) == if last.email in already then [] else [last];
      assert AdmittedOnly(ctx, init) + [] == AdmittedOnly(ctx, init);
    }
  }

  lemma {:induction false} WholeIsIntended(ctx: Context, j: Job, rows: Table, rs: seq<Recipient>)
    requires j.opts.groupRetryMode.RetryWhole?
    ensures AdmittedOnly(ctx, rs) == Intended(ctx, j, rows, rs)
  {
    if rs != [] {
      WholeIsIntended(ctx, j, rows, rs[..|rs| - 1]);
    }
  }

  /** The batch created the primary row, so the primary was not there; and the stripped
      addresses are exactly those with a terminal row. */
  lemma AlreadySentMeansDone(j: Job, rows: Table, now: Time)
    requires j.opts.recipients != [] && j.opts.groupRetryMode.RetryIndividually?
    requires BatchResults(rows, GroupArgs(j), now)[0].Inserted?
    ensures var rs := j.opts.recipients;
            forall r :: r in rs ==>
              (r.email in AlreadySent(rs, BatchResults(rows, GroupArgs(j), now)) <==> Done(j, rows, r))
  {
    var rs, args := j.opts.recipients, GroupArgs(j);
    var results := BatchResults(rows, args, now);
    forall i: nat | i < |rs|
      ensures results[i].Duplicate? && results[i].status.IsTerminal() <==> Done(j, rows, rs[i])
    {
      BatchAlignment(rows, args, now, i);
      assert args[i].key == KeyOf(j, rs[i]);
    }
    forall r | r in rs && Done(j, rows, r) ensures r.email in AlreadySent(rs, results) {
      var i :| 0 <= i < |rs| && rs[i] == r;
      assert i != 0;
    }
    forall r | r in rs && r.email in AlreadySent(rs, results) ensures Done(j, rows, r) {
      var i :| 1 <= i < |rs| && results[i].Duplicate? && results[i].status.IsTerminal() && rs[i].email == r.email;
      assert Done(j, rows, rs[i]);
    }
  }

  /** The values a group call that reaches the sender goes through. */
  datatype Stage = Stage(results: seq<InsertResult>, inserted: Table, filtered: Table, unsent: seq<Recipient>)

  function StageOf(ctx: Context, j: Job, rows: Table, a: GroupAnswers): Stage
    requires j.opts.recipients != []
  {
    var results := BatchResults(rows, GroupArgs(j), a.base.now);
    var inserted := AfterInsertAll(rows, GroupArgs(j), a.base.now);
    Stage(results, inserted, AfterFilter(ctx, j, j.opts.recipients, inserted, a.blockUp, a.base.now),
          Unsent(ctx, j, results))
  }

  /** A call that reports more than an early failure or an existing row is one that got to
      `GroupAttempt`, because the batch created the primary's row. */
  lemma ReachesAttempt(ctx: Context, j: Job, maxRecipients: nat, rows: Table, a: GroupAnswers)
    requires var c := GroupCall(ctx, j, maxRecipients, rows, a);
             c.sent != [] || c.outcome.Delivered? || c.outcome.Refused? || c.outcome.GroupFailure?
    ensures j.opts.recipients != []
    ensures BatchResults(rows, GroupArgs(j), a.base.now)[0].Inserted?
    ensures GroupCall(ctx, j, maxRecipients, rows, a)
            == GroupAttempt(ctx, j, BatchResults(rows, GroupArgs(j), a.base.now),
                            AfterInsertAll(rows, GroupArgs(j), a.base.now), a)
  {
    assert GroupPreInsertError(ctx, j, maxRecipients, a.base).None?;
    assert !(a.insertFailAt.Some? && a.insertFailAt.value <= |GroupArgs(j)|);
  }

  lemma AttemptSends(ctx: Context, j: Job, results: seq<InsertResult>, inserted: Table, a: GroupAnswers)
    requires j.opts.recipients != []
    requires j.opts.groupRetryMode.RetryIndividually? ==> |results| == |j.opts.recipients|
    ensures var c := GroupAttempt(ctx, j, results, inserted, a);
            var primary, extra := j.opts.recipients[0], Rest(Unsent(ctx, j, results));
            var filtered := AfterFilter(ctx, j, j.opts.recipients, inserted, a.blockUp, a.base.now);
            && (c.outcome.Delivered? ==> c.sent != [])
            && (c.sent != [] ==> |c.sent| == 1 && c.sent[0].To() == [primary] + extra)
            && (c.outcome.Delivered? && j.opts.groupRetryMode.RetryIndividually? ==>
                  c.rows == AfterMarkAll(filtered, [KeyOf(j, primary)] + Keys(j, extra), a.sentUp, a.base.now))
  {
    var primary := j.opts.recipients[0];
    assert Recipient(primary.email, primary.name) == primary;
  }

  lemma SendStage(ctx: Context, j: Job, maxRecipients: nat, rows: Table, a: GroupAnswers)
    requires GroupCall(ctx, j, maxRecipients, rows, a).sent != []
    ensures var c := GroupCall(ctx, j, maxRecipients, rows, a);
            && j.opts.recipients != []
            && var g := StageOf(ctx, j, rows, a);
               && g.results[0].Inserted? && |c.sent| == 1
               && c.sent[0].To() == [j.opts.recipients[0]] + Rest(g.unsent)
               && (c.outcome == Delivered && j.opts.groupRetryMode.RetryIndividually? ==>
                     c.rows == AfterMarkAll(g.filtered, [KeyOf(j, j.opts.recipients[0])] + Keys(j, Rest(g.unsent)),
                                            a.sentUp, a.base.now))
  {
    ReachesAttempt(ctx, j, maxRecipients, rows, a);
    var g := StageOf(ctx, j, rows, a);
    AttemptSends(ctx, j, g.results, g.inserted, a);
  }

  lemma UnsentIsIntended(ctx: Context, j: Job, rows: Table, a: GroupAnswers)
    requires j.opts.recipients != [] && StageOf(ctx, j, rows, a).results[0].Inserted?
    ensures StageOf(ctx, j, rows, a).unsent == Intended(ctx, j, rows, j.opts.recipients)
    ensures j.opts.groupRetryMode.RetryIndividually? ==> KeyOf(j, j.opts.recipients[0]) !in rows
  {
    var rs := j.opts.recipients;
    if j.opts.groupRetryMode.RetryIndividually? {
      BatchAlignment(rows, GroupArgs(j), a.base.now, 0);
      AlreadySentMeansDone(j, rows, a.base.now);
      StripIsIntended(ctx, j, rows, rs, AlreadySent(rs, BatchResults(rows, GroupArgs(j), a.base.now)));
    } else {
      WholeIsIntended(ctx, j, rows, rs);
    }
  }

  lemma {:induction false} IntendedMembers(ctx: Context, j: Job, rows: Table, rs: seq<Recipient>)
    ensures forall r :: r in Intended(ctx, j, rows, rs) <==>
              r in rs && Admitted(ctx, r) && !(j.opts.groupRetryMode.RetryIndividually? && Done(j, rows, r))
  {
    if rs != [] {
      IntendedMembers(ctx, j, rows, rs[..|rs| - 1]);
      assert rs == rs[..|rs| - 1] + [rs[|rs| - 1]];
    }
  }

  lemma {:induction false} IntendedHead(ctx: Context, j: Job, rows: Table, rs: seq<Recipient>)
    requires rs != [] && Admitted(ctx, rs[0]) && !(j.opts.groupRetryMode.RetryIndividually? && Done(j, rows, rs[0]))
    ensures Intended(ctx, j, rows, rs) != [] && Intended(ctx, j, rows, rs)[0] == rs[0]
  {
    if |rs| > 1 {
      IntendedHead(ctx, j, rows, rs[..|rs| - 1]);
    } else {
      assert Intended(ctx, j, rows, rs[..0]) == [];
    }
  }

  /** The To: header of a group message is the intended list exactly when the filter
      admits the first recipient.  When it does not, a refused address is written to and
      the first admitted recipient is left out. */
  lemma ToHeaderExactlyIntended(ctx: Context, j: Job, maxRecipients: nat, rows: Table, a: GroupAnswers)
    requires GroupCall(ctx, j, maxRecipients, rows, a).sent != []
    ensures var to := GroupCall(ctx, j, maxRecipients, rows, a).sent[0].To();
            j.opts.recipients != []
            && (to == Intended(ctx, j, rows, j.opts.recipients) <==> Admitted(ctx, j.opts.recipients[0]))
  {
    var rs := j.opts.recipients;
    SendStage(ctx, j, maxRecipients, rows, a);
    UnsentIsIntended(ctx, j, rows, a);
    IntendedMembers(ctx, j, rows, rs);
    var intended := Intended(ctx, j, rows, rs);
    if Admitted(ctx, rs[0]) {
      IntendedHead(ctx, j, rows, rs);
      assert intended == [intended[0]] + intended[1..];
    } else {
      assert rs[0] !in intended;
      assert ([rs[0]] + Rest(intended))[0] == rs[0];
    }
  }

  // ── The rows a group call leaves ──────────────────────────────────────────

  /** If its writes are applied, the filter loop leaves the row of a refused recipient BLOCKED with
      the reason, and every other row as it was. */
  lemma {:induction false} FilterRow(ctx: Context, j: Job, rs: seq<Recipient>, rows: Table, up: nat -> bool, now: Time,
                                     k: Key)
    requires forall n: nat :: up(n)
    ensures AfterFilter(ctx, j, rs, rows, up, now).Keys == rows.Keys
    ensures k in rows && (exists r :: r in rs && KeyOf(j, r) == k && !Admitted(ctx, r)) ==>
              && AfterFilter(ctx, j, rs, rows, up, now)[k].status == Status.Blocked
              && ctx.filter.Check(k.recipient).Err?
              && AfterFilter(ctx, j, rs, rows, up, now)[k].lastError
                 == Some(ctx.filter.Check(k.recipient).error.message)
    ensures k in rows && !(exists r :: r in rs && KeyOf(j, r) == k && !Admitted(ctx, r)) ==>
              AfterFilter(ctx, j, rs, rows, up, now)[k] == rows[k]
  {
    if rs != [] {
      var init, last := rs[..|rs| - 1], rs[|rs| - 1];
      FilterRow(ctx, j, init, rows, up, now, k);
      assert rs == init + [last];
      assert up(|rs| - 1);
    }
  }

  lemma {:induction false} MarkAllRow(rows: Table, targets: seq<Key>, up: nat -> bool, now: Time, k: Key)
    requires forall n: nat :: up(n)
    ensures AfterMarkAll(rows, targets, up, now).Keys == rows.Keys
    ensures k in rows && k in targets ==> AfterMarkAll(rows, targets, up, now)[k].status == Status.Sent
    ensures k in rows && k !in targets ==> AfterMarkAll(rows, targets, up, now)[k] == rows[k]
  {
    if targets != [] {
      var n := |targets| - 1;
      MarkAllRow(rows, targets[..n], up, now, k);
      assert targets == targets[..n] + [targets[n]];
      assert up(n);
    }
  }

  lemma KeysMember(j: Job, rs: seq<Recipient>, r: Recipient)
    requires r in rs
    ensures KeyOf(j, r) in Keys(j, rs)
  {
    var i :| 0 <= i < |rs| && rs[i] == r;
    assert Keys(j, rs)[i] == KeyOf(j, r);
  }

  /** Where a recipient's row comes from before the sends are recorded. */
  lemma RowBeforeMarking(ctx: Context, j: Job, rows: Table, a: GroupAnswers, r: Recipient)
    requires j.opts.groupRetryMode.RetryIndividually? && r in j.opts.recipients && a.StoreUp()
    ensures var g := StageOf(ctx, j, rows, a);
            var k := KeyOf(j, r);
            && k in g.filtered && k in g.inserted
            && (k in rows ==> g.inserted[k] == rows[k])
            && (k !in rows ==> g.inserted[k].status == Pending)
            && (if Admitted(ctx, r) then g.filtered[k] == g.inserted[k] else g.filtered[k].status == Status.Blocked)
  {
    var g := StageOf(ctx, j, rows, a);
    var k := KeyOf(j, r);
    var i :| 0 <= i < |j.opts.recipients| && j.opts.recipients[i] == r;
    assert GroupArgs(j)[i].key == k;
    BatchRow(rows, GroupArgs(j), a.base.now, k);
    FilterRow(ctx, j, j.opts.recipients, g.inserted, a.blockUp, a.base.now, k);
  }

  /** After a successful group send that tracks every recipient, with a first recipient the
      filter admits and a store that answers, the To: header is the admitted recipients not
      already terminal, in order, and every original recipient's row is SENT or BLOCKED. */
  lemma GroupPartition(ctx: Context, j: Job, maxRecipients: nat, rows: Table, a: GroupAnswers)
    requires j.opts.groupRetryMode.RetryIndividually? && a.StoreUp()
    requires j.opts.recipients != [] && Admitted(ctx, j.opts.recipients[0])
    ensures var c := GroupCall(ctx, j, maxRecipients, rows, a);
            c.outcome == Delivered ==>
              && |c.sent| == 1 && c.sent[0].To() == Intended(ctx, j, rows, j.opts.recipients)
              && forall r :: r in j.opts.recipients ==>
                   KeyOf(j, r) in c.rows && c.rows[KeyOf(j, r)].status.IsTerminal()
  {
    var c := GroupCall(ctx, j, maxRecipients, rows, a);
    if c.outcome == Delivered {
      DeliveredMeansSent(ctx, j, maxRecipients, rows, a);
      ToHeaderExactlyIntended(ctx, j, maxRecipients, rows, a);
      SendStage(ctx, j, maxRecipients, rows, a);
      UnsentIsIntended(ctx, j, rows, a);
      forall r | r in j.opts.recipients ensures KeyOf(j, r) in c.rows && c.rows[KeyOf(j, r)].status.IsTerminal() {
        RowAfterMarking(ctx, j, rows, a, r);
      }
    }
  }

  lemma DeliveredMeansSent(ctx: Context, j: Job, maxRecipients: nat, rows: Table, a: GroupAnswers)
    requires GroupCall(ctx, j, maxRecipients, rows, a).outcome == Delivered
    ensures GroupCall(ctx, j, maxRecipients, rows, a).sent != []
  {
    ReachesAttempt(ctx, j, maxRecipients, rows, a);
    var g := StageOf(ctx, j, rows, a);
    AttemptSends(ctx, j, g.results, g.inserted, a);
  }

  lemma IsTarget(j: Job, primary: Recipient, extra: seq<Recipient>, r: Recipient)
    requires r in [primary] + extra
    ensures KeyOf(j, r) in [KeyOf(j, primary)] + Keys(j, extra)
  {
    if r in extra {
      KeysMember(j, extra, r);
    }
  }

  lemma RowAfterMarking(ctx: Context, j: Job, rows: Table, a: GroupAnswers, r: Recipient)
    requires j.opts.groupRetryMode.RetryIndividually? && a.StoreUp() && r in j.opts.recipients
    requires Admitted(ctx, j.opts.recipients[0])
    requires KeyOf(j, j.opts.recipients[0]) !in rows
    requires StageOf(ctx, j, rows, a).unsent == Intended(ctx, j, rows, j.opts.recipients)
    ensures var g := StageOf(ctx, j, rows, a);
            var after := AfterMarkAll(g.filtered, [KeyOf(j, j.opts.recipients[0])] + Keys(j, Rest(g.unsent)), a.sentUp,
                                      a.base.now);
            KeyOf(j, r) in after && after[KeyOf(j, r)].status.IsTerminal()
  {
    var rs, k := j.opts.recipients, KeyOf(j, r);
    var g := StageOf(ctx, j, rows, a);
    var extra := Rest(g.unsent);
    var targets := [KeyOf(j, rs[0])] + Keys(j, extra);
    RowBeforeMarking(ctx, j, rows, a, r);
    MarkAllRow(g.filtered, targets, a.sentUp, a.base.now, k);
    IntendedMembers(ctx, j, rows, rs);
    if r in g.unsent {
      IntendedHead(ctx, j, rows, rs);
      assert g.unsent == [rs[0]] + extra;
      IsTarget(j, rs[0], extra, r);
    }
  }

  predicate DistinctAddresses(rs: seq<Recipient>) {
    forall i, m :: 0 <= i < m < |rs| ==> rs[i].email != rs[m].email
  }

  /** With a refused first recipient the call still reports success, but the first intended
      recipient gets no message and keeps a row that is not terminal. */
  lemma RefusedPrimaryLosesSomeone(ctx: Context, j: Job, maxRecipients: nat, rows: Table, a: GroupAnswers)
    requires j.opts.groupRetryMode.RetryIndividually? && a.StoreUp()
    requires j.opts.recipients != [] && !Admitted(ctx, j.opts.recipients[0])
    requires DistinctAddresses(j.opts.recipients) && Intended(ctx, j, rows, j.opts.recipients) != []
    ensures var c := GroupCall(ctx, j, maxRecipients, rows, a);
            var rs := j.opts.recipients;
            var lost := Intended(ctx, j, rows, rs)[0];
            c.outcome == Delivered ==>
              && KeyOf(j, rs[0]) in c.rows && c.rows[KeyOf(j, rs[0])].status == Status.Sent
              && |c.sent| == 1 && c.sent[0].To()[0] == rs[0] && lost !in c.sent[0].To()
              && KeyOf(j, lost) in c.rows && !c.rows[KeyOf(j, lost)].status.IsTerminal()
  {
    if GroupCall(ctx, j, maxRecipients, rows, a).outcome == Delivered {
      DeliveredMeansSent(ctx, j, maxRecipients, rows, a);
      SendStage(ctx, j, maxRecipients, rows, a);
      UnsentIsIntended(ctx, j, rows, a);
      LostIsNoTarget(ctx, j, rows, j.opts.recipients);
      RefusedPrimaryRows(ctx, j, rows, a);
    }
  }

  lemma RefusedPrimaryRows(ctx: Context, j: Job, rows: Table, a: GroupAnswers)
    requires j.opts.groupRetryMode.RetryIndividually? && a.StoreUp()
    requires j.opts.recipients != [] && !Admitted(ctx, j.opts.recipients[0]) && DistinctAddresses(j.opts.recipients)
    requires Intended(ctx, j, rows, j.opts.recipients) != []
    requires StageOf(ctx, j, rows, a).unsent == Intended(ctx, j, rows, j.opts.recipients)
    ensures var g, rs := StageOf(ctx, j, rows, a), j.opts.recipients;
            var after := AfterMarkAll(g.filtered, [KeyOf(j, rs[0])] + Keys(j, Rest(g.unsent)), a.sentUp, a.base.now);
            var lost := Intended(ctx, j, rows, rs)[0];
            && KeyOf(j, rs[0]) in after && after[KeyOf(j, rs[0])].status == Status.Sent
            && KeyOf(j, lost) in after && !after[KeyOf(j, lost)].status.IsTerminal()
  {
    var g, rs := StageOf(ctx, j, rows, a), j.opts.recipients;
    var lost := Intended(ctx, j, rows, rs)[0];
    IntendedMembers(ctx, j, rows, rs);
    LostIsNoTarget(ctx, j, rows, rs);
    RowBeforeMarking(ctx, j, rows, a, lost);
    RowBeforeMarking(ctx, j, rows, a, rs[0]);
    var targets := [KeyOf(j, rs[0])] + Keys(j, Rest(g.unsent));
    MarkAllRow(g.filtered, targets, a.sentUp, a.base.now, KeyOf(j, lost));
    MarkAllRow(g.filtered, targets, a.sentUp, a.base.now, KeyOf(j, rs[0]));
    assert targets[0] == KeyOf(j, rs[0]);
  }

  lemma NobodyLeftRows(ctx: Context, j: Job, rows: Table, a: GroupAnswers, r: Recipient)
    requires j.opts.groupRetryMode.RetryIndividually? && a.StoreUp() && r in j.opts.recipients
    requires Intended(ctx, j, rows, j.opts.recipients) == [] && StageOf(ctx, j, rows, a).unsent == []
    ensures var g, k := StageOf(ctx, j, rows, a), KeyOf(j, r);
            var after := AfterMarkAll(g.filtered, [KeyOf(j, j.opts.recipients[0])] + Keys(j, Rest(g.unsent)), a.sentUp,
                                      a.base.now);
            k in after && after[k].status.IsTerminal()
  {
    var g := StageOf(ctx, j, rows, a);
    IntendedMembers(ctx, j, rows, j.opts.recipients);
    assert r !in Intended(ctx, j, rows, j.opts.recipients);
    RowBeforeMarking(ctx, j, rows, a, r);
    MarkAllRow(g.filtered, [KeyOf(j, j.opts.recipients[0])] + Keys(j, Rest(g.unsent)), a.sentUp, a.base.now,
               KeyOf(j, r));
  }

  /** Every original recipient's row ends up SENT or BLOCKED. */
  predicate AllRowsTerminal(j: Job, rows: Table) {
    forall r :: r in j.opts.recipients ==> KeyOf(j, r) in rows && rows[KeyOf(j, r)].status.IsTerminal()
  }

  lemma NobodyLeft(ctx: Context, j: Job, maxRecipients: nat, rows: Table, a: GroupAnswers)
    requires j.opts.groupRetryMode.RetryIndividually? && a.StoreUp()
    requires j.opts.recipients != [] && Intended(ctx, j, rows, j.opts.recipients) == []
    ensures GroupCall(ctx, j, maxRecipients, rows, a).outcome == Delivered ==>
              AllRowsTerminal(j, GroupCall(ctx, j, maxRecipients, rows, a).rows)
  {
    if GroupCall(ctx, j, maxRecipients, rows, a).outcome == Delivered {
      DeliveredMeansSent(ctx, j, maxRecipients, rows, a);
      SendStage(ctx, j, maxRecipients, rows, a);
      UnsentIsIntended(ctx, j, rows, a);
      var g := StageOf(ctx, j, rows, a);
      var after := AfterMarkAll(g.filtered, [KeyOf(j, j.opts.recipients[0])] + Keys(j, Rest(g.unsent)), a.sentUp,
                                a.base.now);
      forall r | r in j.opts.recipients ensures KeyOf(j, r) in after && after[KeyOf(j, r)].status.IsTerminal() {
        NobodyLeftRows(ctx, j, rows, a, r);
      }
    }
  }

  /** After a successful tracked group send every row is terminal exactly if the filter admits
      the first recipient, or nobody was left to write to. */
  lemma RowsTerminalIff(ctx: Context, j: Job, maxRecipients: nat, rows: Table, a: GroupAnswers)
    requires j.opts.groupRetryMode.RetryIndividually? && a.StoreUp()
    requires j.opts.recipients != [] && DistinctAddresses(j.opts.recipients)
    ensures GroupCall(ctx, j, maxRecipients, rows, a).outcome == Delivered ==>
              (AllRowsTerminal(j, GroupCall(ctx, j, maxRecipients, rows, a).rows) <==>
                 Admitted(ctx, j.opts.recipients[0]) || Intended(ctx, j, rows, j.opts.recipients) == [])
  {
    if GroupCall(ctx, j, maxRecipients, rows, a).outcome == Delivered {
      if Admitted(ctx, j.opts.recipients[0]) {
        GroupPartition(ctx, j, maxRecipients, rows, a);
      } else if Intended(ctx, j, rows, j.opts.recipients) == [] {
        NobodyLeft(ctx, j, maxRecipients, rows, a);
      } else {
        RefusedPrimaryLosesSomeone(ctx, j, maxRecipients, rows, a);
        IntendedMembers(ctx, j, rows, j.opts.recipients);
        assert Intended(ctx, j, rows, j.opts.recipients)[0] in j.opts.recipients;
      }
    }
  }

  lemma LostIsNoTarget(ctx: Context, j: Job, rows: Table, rs: seq<Recipient>)
    requires rs != [] && !Admitted(ctx, rs[0]) && DistinctAddresses(rs)
    requires Intended(ctx, j, rows, rs) != []
    ensures var s := Intended(ctx, j, rows, rs);
            && s[0] in rs
            && s[0] !in [rs[0]] + Rest(s)
            && KeyOf(j, s[0]) !in [KeyOf(j, rs[0])] + Keys(j, Rest(s))
  {
    var s := Intended(ctx, j, rows, rs);
    IntendedMembers(ctx, j, rows, rs);
    IntendedDistinct(ctx, j, rows, rs);
    assert s[0] in s;
    assert s[0].email != rs[0].email by {
      var i :| 0 <= i < |rs| && rs[i] == s[0];
      assert i != 0;
    }
    forall i | 0 <= i < |Rest(s)| ensures Rest(s)[i].email != s[0].email {
      assert Rest(s)[i] == s[i + 1];
    }
  }

  lemma {:induction false} IntendedDistinct(ctx: Context, j: Job, rows: Table, rs: seq<Recipient>)
    requires DistinctAddresses(rs)
    ensures DistinctAddresses(Intended(ctx, j, rows, rs))
  {
    if rs != [] {
      var init := rs[..|rs| - 1];
      IntendedDistinct(ctx, j, rows, init);
      IntendedMembers(ctx, j, rows, init);
      var s := Intended(ctx, j, rows, init);
      forall i | 0 <= i < |s| ensures s[i].email != rs[|rs| - 1].email {
        assert s[i] in init;
        var m :| 0 <= m < |init| && init[m] == s[i];
        assert rs[m] == s[i];
      }
    }
  }
}
