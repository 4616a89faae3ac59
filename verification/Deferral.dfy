/** A scheduled message between the main queue, the consumer and the delayed queue, with all
    the copies of it that deferring may leave (crates/consumer/src/delivery.rs). */
module Deferral {
  import opened Common
  import opened RetryLoop
  import opened HandleDelivery
  import opened Runs

  /** `holds` has the times before which the delayed copies do not come back.  The counters
      tell how often the message was deferred, how often the broker still had the deferred
      copy afterwards, and how often it then had the delayed one as well. */
  datatype State = State(q: Queues, holds: seq<Time>, now: Time, passes: nat, kept: nat, copies: nat)

  datatype Action =
    | HandOut                                                       // a copy reaches a consumer
    | Handle(publish: PublishAnswer, due: Settlement, up: bool)     // `due` settles it if it is due
    | TakeBack                                                      // a consumer went away
    | Release(i: nat)                                               // a delayed copy comes back
    | Pass(nanos: nat)

  /** Which publishes to the delayed queue are confirmed. */
  datatype Confirms = Always | Sometimes | Never

  /** The scheduled message, the longest the broker holds a copy back, in milliseconds, which
      publishes are confirmed, and whether settlements always arrive. */
  datatype Setting = Setting(m: Message, sendAt: Time, capMs: nat, confirms: Confirms, settles: bool)

  function Hold(g: Setting, now: Time): int
    requires now < g.sendAt
  {
    var ttl := TtlMs(g.sendAt, now);
    (if ttl < g.capMs then ttl else g.capMs) * NANOS_PER_MILLI
  }

  predicate PublishAllowed(c: Confirms, publish: PublishAnswer) {
    (c.Always? ==> publish.Confirmed?) && (c.Never? ==> !publish.Confirmed?)
  }

  predicate Enabled(g: Setting, s: State, a: Action) {
    match a
    case HandOut => g.m in s.q.main
    case Handle(publish, _, up) =>
      && g.m in s.q.unsettled
      && (s.now < g.sendAt ==> PublishAllowed(g.confirms, publish) && (g.settles ==> up))
    case TakeBack => g.m in s.q.unsettled
    case Release(i) => i < |s.holds| && s.holds[i] <= s.now && g.m in s.q.delayed
    case Pass(_) => true
  }

  /** The message is not due and goes to the delayed queue; if that is not confirmed, also back
      to the main one. */
  function AfterDefer(g: Setting, s: State, publish: PublishAnswer, up: bool): State
    requires s.now < g.sendAt
  {
    var how := if publish.Confirmed? then Ack else Requeue;
    var kept := how == Requeue || !up;
    s.(q := AfterSettle(AfterPublish(s.q, g.m, publish), g.m, how, up),
       holds := if Stored(publish) then s.holds + [s.now + Hold(g, s.now)] else s.holds,
       passes := s.passes + 1,
       kept := if kept then s.kept + 1 else s.kept,
       copies := if kept && Stored(publish) then s.copies + 1 else s.copies)
  }

  function Apply(g: Setting, s: State, a: Action): State
    requires Enabled(g, s, a)
  {
    match a
    case HandOut => s.(q := s.q.(main := s.q.main - multiset{g.m}, unsettled := s.q.unsettled + multiset{g.m}))
    case Handle(publish, due, up) =>
      if s.now < g.sendAt then AfterDefer(g, s, publish, up) else s.(q := AfterSettle(s.q, g.m, due, up))
    case TakeBack => s.(q := s.q.(unsettled := s.q.unsettled - multiset{g.m}, main := s.q.main + multiset{g.m}))
    case Release(i) =>
      s.(q := s.q.(delayed := s.q.delayed - multiset{g.m}, main := s.q.main + multiset{g.m}),
         holds := s.holds[..i] + s.holds[i + 1..])
    case Pass(n) => s.(now := s.now + n)
  }

  function Conveyor(g: Setting): Machine<State, Action> {
    (s: State, a: Action) => if Enabled(g, s, a) then Some(Apply(g, s, a)) else None
  }

  function Start(g: Setting, now: Time): State {
    State(Queues(multiset{g.m}, multiset{}, multiset{}, multiset{}, []), [], now, 0, 0, 0)
  }

  // ── A handled message makes such a step ───────────────────────────────────

  /** The message is scheduled, and nothing else keeps it from being delivered. */
  predicate Scheduled(g: Setting, cfg: Config) {
    && g.m.Decodable? && g.m.event.email.Some?
    && 0 < |g.m.event.email.value.recipients| <= cfg.maxRecipients
    && g.m.event.email.value.sendAt == Some(g.sendAt)
  }

  /** Whatever the world answers, handling the message does to the broker what one `Handle`
      action does, and defers it exactly if it is not due. */
  lemma HandlingIsPass(g: Setting, cfg: Config, s: State, env: Env)
    requires Scheduled(g, cfg) && g.m in s.q.unsettled && s.now == env.now
    requires s.now < g.sendAt ==> PublishAllowed(g.confirms, env.publish) && (g.settles ==> env.settleUp)
    ensures BranchOf(g.m, cfg.maxRecipients, env.now) == if s.now < g.sendAt then Deferred else Deliver
    ensures exists due :: var a := Handle(env.publish, due, env.settleUp);
                          Enabled(g, s, a) && Apply(g, s, a).q == AfterHandling(s.q, cfg, g.m, env)
  {
    var a := Handle(env.publish, HowSettled(cfg, g.m, env), env.settleUp);
    assert Enabled(g, s, a) && Apply(g, s, a).q == AfterHandling(s.q, cfg, g.m, env);
  }

  // ── How often it is deferred ──────────────────────────────────────────────

  /** How many holds are left at most: as many full ones as it takes to get within a millisecond
      of `sendAt`, and one for the rest. */
  function HoldsLeft(g: Setting, now: Time): nat
    requires g.capMs > 0
  {
    if now >= g.sendAt then 0 else 1 + CeilDiv((g.sendAt - now) / NANOS_PER_MILLI, g.capMs)
  }

  /** `n` divided by `d`, rounded up. */
  function CeilDiv(n: nat, d: nat): (q: nat)
    requires d > 0
    ensures (q - 1) * d < n <= q * d || q == n == 0
  {
    if n <= d then if n == 0 then 0 else 1
    else
      assert (CeilDiv(n - d, d) + 1) * d == CeilDiv(n - d, d) * d + d;
      CeilDiv(n - d, d) + 1
  }

  lemma {:induction false} CeilDivMonotone(m: nat, n: nat, d: nat)
    requires d > 0 && m <= n
    ensures CeilDiv(m, d) <= CeilDiv(n, d)
  {
    if m > d {
      CeilDivMonotone(m - d, n - d, d);
    }
  }

  lemma HoldsLeftFalls(g: Setting, from: Time, to: Time)
    requires g.capMs > 0 && from <= to
    ensures HoldsLeft(g, to) <= HoldsLeft(g, from)
  {
    if to < g.sendAt {
      CeilDivMonotone((g.sendAt - to) / NANOS_PER_MILLI, (g.sendAt - from) / NANOS_PER_MILLI, g.capMs);
    }
  }

  /** Each hold uses one up. */
  lemma HoldSpends(g: Setting, now: Time)
    requires g.capMs > 0 && now < g.sendAt
    ensures HoldsLeft(g, now + Hold(g, now)) < HoldsLeft(g, now)
  {
    var ms := (g.sendAt - now) / NANOS_PER_MILLI;
    if ms > g.capMs {
      assert (g.sendAt - (now + Hold(g, now))) / NANOS_PER_MILLI == ms - g.capMs;
    }
  }

  /** A broker that honours the time to live needs at most two. */
  lemma HonouredHolds(g: Setting, now: Time)
    requires g.capMs > 0 && (now < g.sendAt ==> TtlMs(g.sendAt, now) <= g.capMs)
    ensures HoldsLeft(g, now) <= 2
  {
  }

  /** The holds the delayed copies may still need. */
  function HoldsOf(g: Setting, holds: seq<Time>): nat
    requires g.capMs > 0
  {
    if holds == [] then 0 else HoldsLeft(g, holds[0]) + HoldsOf(g, holds[1..])
  }

  lemma {:induction false} HoldsOfSplit(g: Setting, xs: seq<Time>, ys: seq<Time>)
    requires g.capMs > 0
    ensures HoldsOf(g, xs + ys) == HoldsOf(g, xs) + HoldsOf(g, ys)
  {
    if xs == [] {
      assert xs + ys == ys;
    } else {
      HoldsOfSplit(g, xs[1..], ys);
      assert (xs + ys)[1..] == xs[1..] + ys;
    }
  }

  lemma ReleaseFreesOne(g: Setting, holds: seq<Time>, i: nat)
    requires g.capMs > 0 && i < |holds|
    ensures HoldsOf(g, holds) == HoldsOf(g, holds[..i] + holds[i + 1..]) + HoldsLeft(g, holds[i])
  {
    assert holds == holds[..i] + ([holds[i]] + holds[i + 1..]);
    HoldsOfSplit(g, holds[..i], [holds[i]] + holds[i + 1..]);
    HoldsOfSplit(g, [holds[i]], holds[i + 1..]);
    HoldsOfSplit(g, holds[..i], holds[i + 1..]);
    assert [holds[i]][1..] == [];
  }

  /** Copies that are not delayed, waiting or handed out. */
  function Present(g: Setting, s: State): nat {
    s.q.main[g.m] + s.q.unsettled[g.m]
  }

  /** The holds all copies together may still need. */
  function Ahead(g: Setting, s: State): nat
    requires g.capMs > 0
  {
    Present(g, s) * HoldsLeft(g, s.now) + HoldsOf(g, s.holds)
  }

  /** The price of the deferrals that left the broker a copy, `most` holds being left at the
      start: the pass itself, and what a stored second copy still needs. */
  function Extra(most: nat, kept: nat, copies: nat): nat {
    kept + copies * (if most == 0 then 0 else most - 1)
  }

  /** Every copy is accounted for, and so is every deferral. */
  ghost predicate Inv(g: Setting, s: State, from: Time)
    requires g.capMs > 0
  {
    && from <= s.now && |s.holds| == s.q.delayed[g.m]
    && s.passes + Ahead(g, s) <= HoldsLeft(g, from) + Extra(HoldsLeft(g, from), s.kept, s.copies)
  }

  lemma TimesOneMore(n: nat, b: nat)
    ensures (n + 1) * b == n * b + b
  {
  }

  lemma TimesLess(n: nat, b: nat, c: nat)
    requires b <= c
    ensures n * b <= n * c
  {
  }

  /** What a deferral does to the copies: one goes away if the publish is confirmed and the
      settlement arrives, and one is held if the publish is stored. */
  lemma DeferMoves(g: Setting, s: State, publish: PublishAnswer, up: bool)
    requires s.now < g.sendAt && g.m in s.q.unsettled
    ensures var t := AfterDefer(g, s, publish, up);
            && Present(g, t) == Present(g, s) - (if publish.Confirmed? && up then 1 else 0)
            && t.q.delayed[g.m] == s.q.delayed[g.m] + (if Stored(publish) then 1 else 0)
            && t.now == s.now && t.passes == s.passes + 1
            && t.kept == s.kept + (if publish.Confirmed? && up then 0 else 1)
            && t.copies == s.copies + (if Stored(publish) && !(publish.Confirmed? && up) then 1 else 0)
            && t.holds == s.holds + if Stored(publish) then [s.now + Hold(g, s.now)] else []
  {
    assert s.holds + [] == s.holds;
  }

  /** One more hold, and what it may need. */
  lemma HoldAdds(g: Setting, holds: seq<Time>, now: Time)
    requires g.capMs > 0 && now < g.sendAt
    ensures HoldsOf(g, holds + [now + Hold(g, now)]) <= HoldsOf(g, holds) + HoldsLeft(g, now) - 1
    ensures HoldsOf(g, holds + []) == HoldsOf(g, holds)
  {
    var until := now + Hold(g, now);
    HoldSpends(g, now);
    HoldsOfSplit(g, holds, [until]);
    assert [until][1..] == [] && holds + [] == holds;
  }

  lemma ExtraGrows(most: nat, kept: nat, copies: nat, stored: bool)
    requires most > 0
    ensures Extra(most, kept + 1, copies + if stored then 1 else 0)
            == Extra(most, kept, copies) + 1 + if stored then most - 1 else 0
  {
    TimesOneMore(copies, most - 1);
  }

  /** A deferral spends one of the holds ahead, or is paid for. */
  lemma DeferKeepsInv(g: Setting, s: State, publish: PublishAnswer, up: bool, from: Time)
    requires g.capMs > 0 && Inv(g, s, from) && s.now < g.sendAt && g.m in s.q.unsettled
    ensures Inv(g, AfterDefer(g, s, publish, up), from)
  {
    var t, most := AfterDefer(g, s, publish, up), HoldsLeft(g, from);
    DeferMoves(g, s, publish, up);
    HoldAdds(g, s.holds, s.now);
    HoldsLeftFalls(g, from, s.now);
    if publish.Confirmed? && up {
      TimesOneMore(Present(g, t), HoldsLeft(g, s.now));
    } else {
      ExtraGrows(most, s.kept, s.copies, Stored(publish));
    }
  }

  lemma InvStep(g: Setting, s: State, a: Action, from: Time)
    requires g.capMs > 0 && Inv(g, s, from) && Enabled(g, s, a)
    ensures Inv(g, Apply(g, s, a), from)
  {
    var t := Apply(g, s, a);
    match a
    case HandOut => assert Present(g, t) == Present(g, s);
    case TakeBack => assert Present(g, t) == Present(g, s);
    case Handle(publish, due, up) =>
      if s.now < g.sendAt {
        DeferKeepsInv(g, s, publish, up, from);
      } else {
        assert HoldsLeft(g, s.now) == 0;
      }
    case Release(i) =>
      ReleaseFreesOne(g, s.holds, i);
      HoldsLeftFalls(g, s.holds[i], s.now);
      assert Present(g, t) == Present(g, s) + 1;
      TimesOneMore(Present(g, s), HoldsLeft(g, s.now));
    case Pass(n) =>
      HoldsLeftFalls(g, s.now, t.now);
      TimesLess(Present(g, s), HoldsLeft(g, t.now), HoldsLeft(g, s.now));
  }

  lemma {:induction false} InvRun(g: Setting, s: State, actions: seq<Action>, t: State, from: Time)
    requires g.capMs > 0 && Inv(g, s, from) && IsRun(Conveyor(g), s, actions, t)
    ensures Inv(g, t, from)
    decreases |actions|
  {
    if actions != [] {
      InvStep(g, s, actions[0], from);
      InvRun(g, Apply(g, s, actions[0]), actions[1..], t, from);
    }
  }

  /** Over every run, all copies counted: a scheduled message is deferred no more often than its
      holds take, but for the deferrals that left the broker a copy and the copies these made.
      A broker that honours the time to live takes two holds at most. */
  lemma DeferralsEnd(g: Setting, now: Time, t: State)
    requires g.capMs > 0 && Reaches(Conveyor(g), Start(g, now), t)
    ensures t.passes <= HoldsLeft(g, now) + Extra(HoldsLeft(g, now), t.kept, t.copies)
    ensures now < g.sendAt && TtlMs(g.sendAt, now) <= g.capMs ==> t.passes <= 2 + t.kept + t.copies
  {
    var actions :| IsRun(Conveyor(g), Start(g, now), actions, t);
    TimesOneMore(0, HoldsLeft(g, now));
    InvRun(g, Start(g, now), actions, t, now);
    if now < g.sendAt && TtlMs(g.sendAt, now) <= g.capMs {
      HonouredHolds(g, now);
      TimesLess(t.copies, HoldsLeft(g, now) - 1, 1);
    }
  }

  // ── How many copies there are ─────────────────────────────────────────────

  /** No deferral loses a copy, and those that left two have added one each. */
  ghost predicate Counted(g: Setting, s: State) {
    && s.copies <= s.kept <= s.passes
    && s.q.Alive(g.m) <= 1 + s.copies
    && (s.now < g.sendAt ==> s.q.Alive(g.m) == 1 + s.copies)
    && (g.confirms.Always? && g.settles ==> s.kept == 0)
    && (g.confirms.Never? ==> s.kept == s.passes && (s.now < g.sendAt ==> Present(g, s) > 0))
  }

  lemma CountedStep(g: Setting, s: State, a: Action)
    requires Counted(g, s) && Enabled(g, s, a)
    ensures Counted(g, Apply(g, s, a))
  {
  }

  lemma {:induction false} CountedRun(g: Setting, s: State, actions: seq<Action>, t: State)
    requires Counted(g, s) && IsRun(Conveyor(g), s, actions, t)
    ensures Counted(g, t)
    decreases |actions|
  {
    if actions != [] {
      CountedStep(g, s, actions[0]);
      CountedRun(g, Apply(g, s, actions[0]), actions[1..], t);
    }
  }

  /** Over every run: until it is due the message is there in exactly one copy more than
      deferrals have left two, and never in more. */
  lemma CopiesAddUp(g: Setting, now: Time, t: State)
    requires Reaches(Conveyor(g), Start(g, now), t)
    ensures t.q.Alive(g.m) <= 1 + t.copies && (t.now < g.sendAt ==> t.q.Alive(g.m) == 1 + t.copies)
  {
    var actions :| IsRun(Conveyor(g), Start(g, now), actions, t);
    CountedRun(g, Start(g, now), actions, t);
  }

  /** If no publish is ever confirmed, deferring takes no load off: every deferral leaves the
      original, which stays in the main queue or with a consumer until it is due. */
  lemma UnconfirmedStays(g: Setting, now: Time, t: State)
    requires g.confirms.Never? && Reaches(Conveyor(g), Start(g, now), t)
    ensures t.kept == t.passes && (t.now < g.sendAt ==> g.m in t.q.main || g.m in t.q.unsettled)
  {
    var actions :| IsRun(Conveyor(g), Start(g, now), actions, t);
    CountedRun(g, Start(g, now), actions, t);
  }

  // ── Deferrals without end ─────────────────────────────────────────────────

  /** `n` deferrals at one instant, each of which stored a copy and left the original waiting. */
  ghost predicate Piled(g: Setting, now: Time, n: nat, t: State) {
    && Reaches(Conveyor(g), Start(g, now), t)
    && t.passes == n && t.now == now && t.q.delayed[g.m] == n && g.m in t.q.main
  }

  lemma DeferAgain(g: Setting, now: Time, n: nat, s: State) returns (t: State)
    requires now < g.sendAt && !(g.confirms.Always? && g.settles) && Piled(g, now, n, s)
    ensures Piled(g, now, n + 1, t)
  {
    var start := Start(g, now);
    t := StepFrom(Conveyor(g), start, s, HandOut);
    if g.confirms.Always? {
      t := StepFrom(Conveyor(g), start, t, Handle(Confirmed, Ack, false));
      t := StepFrom(Conveyor(g), start, t, TakeBack);
    } else {
      t := StepFrom(Conveyor(g), start, t, Handle(Unconfirmed(true), Ack, true));
    }
  }

  lemma {:induction false} PilesUp(g: Setting, now: Time, n: nat) returns (t: State)
    requires now < g.sendAt && !(g.confirms.Always? && g.settles)
    ensures Piled(g, now, n, t)
  {
    if n == 0 {
      t := Start(g, now);
      NoStep(Conveyor(g), t);
    } else {
      var s := PilesUp(g, now, n - 1);
      t := DeferAgain(g, now, n - 1, s);
    }
  }

  ghost predicate CanPile(g: Setting, now: Time, n: nat) {
    exists t :: Piled(g, now, n, t)
  }

  /** A message that is not due can be deferred any number of times at one instant, with a
      further delayed copy each time, exactly if a publish may go unconfirmed or a settlement
      get lost. */
  lemma DeferralsUnboundIff(g: Setting, now: Time)
    requires g.capMs > 0 && now < g.sendAt
    ensures (forall n: nat :: CanPile(g, now, n)) <==> !(g.confirms.Always? && g.settles)
  {
    if g.confirms.Always? && g.settles {
      var n := HoldsLeft(g, now) + 1;
      forall t ensures !Piled(g, now, n, t) {
        if Piled(g, now, n, t) {
          DeferralsEnd(g, now, t);
          var actions :| IsRun(Conveyor(g), Start(g, now), actions, t);
          CountedRun(g, Start(g, now), actions, t);
        }
      }
      assert !CanPile(g, now, n);
    } else {
      forall n: nat ensures CanPile(g, now, n) {
        var t := PilesUp(g, now, n);
      }
    }
  }
}
