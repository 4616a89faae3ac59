/** The decision both retry loops of crates/consumer/src/delivery.rs take on each
    outcome, and what it means for whole outcome streams. */
module RetryLoop {
  import opened Common
  import opened Event
  import opened Backoff

  /** What one call of `process_recipient` or `process_group` reports. */
  datatype Outcome =
    | Delivered
    | Refused(reason: string)
    | AlreadyDone
    | StillPending(retryCount: nat)
    | Failure(error: AppError)
    | GroupFailure(error: AppError)

  datatype Config = Config(maxRetries: nat, maxRlWaits: nat, retryBaseMs: nat, maxRecipients: nat)

  /** The loop's two counters. */
  datatype Counters = Counters(attempt: nat, rlCount: nat)

  datatype Decision =
    | Stop
    | Again(counters: Counters)
    | GiveUp(message: string)
    | Backoff(counters: Counters, message: string, delayMs: nat)
    | FallBack

  /** The arms of the loops' `match`, in order.  `group` is the group-send loop, the only
      one that falls back to individual sends. */
  function Decide(cfg: Config, policy: RetryPolicy, group: bool, c: Counters, o: Outcome): Decision {
    match o
    case Delivered => Stop
    case Refused(_) => Stop
    case AlreadyDone => Stop
    case StillPending(n) => Again(c.(attempt := n))
    case GroupFailure(e) => if group then FallBack else GiveUp(e.message)
    case Failure(e) =>
      if !e.IsRetryable() || c.attempt >= cfg.maxRetries || policy.NoRetry? then GiveUp(e.message)
      else if e.RateLimitedError? then
        if c.rlCount + 1 > cfg.maxRlWaits then GiveUp(e.message)
        else Backoff(c.(rlCount := c.rlCount + 1), e.message, 1000 * RateLimitDelaySecs(c.rlCount + 1))
      else Backoff(Counters(c.attempt + 1, 0), e.message, RetryDelayMs(cfg.retryBaseMs, c.attempt + 1))
  }

  /** How long a loop sleeps after a failure: after consecutive rate limits one, two and then four
      minutes, and otherwise as the coming attempt's number says. */
  lemma SleepAfter(cfg: Config, policy: RetryPolicy, group: bool, c: Counters, e: AppError)
    requires Decide(cfg, policy, group, c, Failure(e)).Backoff?
    ensures Decide(cfg, policy, group, c, Failure(e)).delayMs ==
            if e.RateLimitedError? then
              if c.rlCount == 0 then 60_000 else if c.rlCount == 1 then 120_000 else 240_000
            else RetryDelayMs(cfg.retryBaseMs, c.attempt + 1)
  {
    RateLimitDelays(c.rlCount + 1);
  }

  /** How a loop meets a stream of outcomes: the calls it makes, the sleeps it takes and
      whether it has returned when the stream ends. */
  datatype Trace = Trace(calls: nat, sleeps: seq<nat>, returned: bool)

  function Follow(cfg: Config, policy: RetryPolicy, group: bool, c: Counters, os: seq<Outcome>): Trace
    decreases |os|
  {
    if os == [] then Trace(0, [], false)
    else match Decide(cfg, policy, group, c, os[0])
      case Again(d) =>
        var t := Follow(cfg, policy, group, d, os[1..]);
        t.(calls := t.calls + 1)
      case Backoff(d, _, ms) =>
        var t := Follow(cfg, policy, group, d, os[1..]);
        Trace(t.calls + 1, [ms] + t.sleeps, t.returned)
      case _ => Trace(1, [], true)
  }

  lemma FollowStep(cfg: Config, policy: RetryPolicy, group: bool, c: Counters, o: Outcome, rest: seq<Outcome>)
    ensures var d, t := Decide(cfg, policy, group, c, o), Follow(cfg, policy, group, c, [o] + rest);
            if d.Again? || d.Backoff? then
              var u := Follow(cfg, policy, group, d.counters, rest);
              t.calls == u.calls + 1 && t.returned == u.returned
            else t == Trace(1, [], true)
  {
    assert ([o] + rest)[0] == o && ([o] + rest)[1..] == rest;
  }

  /** The counters a loop has reached after a stream, unless it has returned. */
  function Reached(cfg: Config, policy: RetryPolicy, group: bool, c: Counters, os: seq<Outcome>): Option<Counters>
    decreases |os|
  {
    if os == [] then Some(c)
    else match Decide(cfg, policy, group, c, os[0])
      case Again(d) => Reached(cfg, policy, group, d, os[1..])
      case Backoff(d, _, _) => Reached(cfg, policy, group, d, os[1..])
      case _ => None
  }

  // ── The retry budget ──────────────────────────────────────────────────────

  /** Calls left before the loop must return, on streams without `StillPending`. */
  function Budget(cfg: Config, c: Counters): int {
    if c.attempt >= cfg.maxRetries then 1
    else (cfg.maxRetries - c.attempt) * (cfg.maxRlWaits + 1) - c.rlCount + 1
  }

  /** One backoff spends budget: `attempt` rises, or `rlCount` rises at the same attempt. */
  lemma BackoffSpendsBudget(cfg: Config, policy: RetryPolicy, group: bool, c: Counters, o: Outcome)
    requires c.rlCount <= cfg.maxRlWaits
    requires Decide(cfg, policy, group, c, o).Backoff?
    ensures var d := Decide(cfg, policy, group, c, o).counters;
            && d.rlCount <= cfg.maxRlWaits
            && 1 <= Budget(cfg, d) < Budget(cfg, c)
  {
    var d := Decide(cfg, policy, group, c, o).counters;
    var w := cfg.maxRlWaits + 1;
    if d.attempt == c.attempt + 1 {
      assert (cfg.maxRetries - c.attempt) * w == (cfg.maxRetries - d.attempt) * w + w;
    }
    if d.attempt < cfg.maxRetries {
      MulMonotone(w, 1, cfg.maxRetries - d.attempt);
    }
    if c.attempt < cfg.maxRetries {
      MulMonotone(w, 1, cfg.maxRetries - c.attempt);
    }
  }

  /** Without `StillPending` outcomes a loop returns within its budget, whatever the
      outcomes are; from fresh counters that is maxRetries * (maxRlWaits + 1) + 1 calls. */
  lemma {:induction false} ReturnsWithinBudget(cfg: Config, policy: RetryPolicy, group: bool, c: Counters,
                                               os: seq<Outcome>)
    requires c.rlCount <= cfg.maxRlWaits
    requires forall o :: o in os ==> !o.StillPending?
    requires |os| >= Budget(cfg, c)
    ensures Budget(cfg, Counters(0, 0)) == cfg.maxRetries * (cfg.maxRlWaits + 1) + 1
    ensures Follow(cfg, policy, group, c, os).returned
    ensures Follow(cfg, policy, group, c, os).calls <= Budget(cfg, c)
    decreases |os|
  {
    BudgetIsPositive(cfg, c);
    assert os[0] in os && [os[0]] + os[1..] == os;
    var d := Decide(cfg, policy, group, c, os[0]);
    if d.Backoff? {
      BackoffSpendsBudget(cfg, policy, group, c, os[0]);
      ReturnsWithinBudget(cfg, policy, group, d.counters, os[1..]);
    }
    FollowStep(cfg, policy, group, c, os[0], os[1..]);
  }

  lemma BudgetIsPositive(cfg: Config, c: Counters)
    requires c.rlCount <= cfg.maxRlWaits
    ensures Budget(cfg, c) >= 1
  {
    if c.attempt < cfg.maxRetries {
      MulMonotone(cfg.maxRlWaits + 1, 1, cfg.maxRetries - c.attempt);
    }
  }

  /** The same bound for a stream of any length. */
  lemma BudgetCaps(cfg: Config, policy: RetryPolicy, group: bool, os: seq<Outcome>)
    requires forall o :: o in os ==> !o.StillPending?
    ensures var t, bound := Follow(cfg, policy, group, Counters(0, 0), os), cfg.maxRetries * (cfg.maxRlWaits + 1) + 1;
            && (t.calls == |os| ==> |os| <= bound)
            && (!t.returned ==> |os| < bound)
  {
    assert Budget(cfg, Counters(0, 0)) == cfg.maxRetries * (cfg.maxRlWaits + 1) + 1;
    if |os| >= Budget(cfg, Counters(0, 0)) {
      ReturnsWithinBudget(cfg, policy, group, Counters(0, 0), os);
    }
  }

  const RATE_LIMITED: Outcome := Failure(RateLimitedError("429"))
  const TRANSIENT: Outcome := Failure(MailerError("timeout", Transient))

  /** Rate-limit answers up to the cap before every transient failure. */
  function WorstStream(cfg: Config, c: Counters): seq<Outcome>
    requires c.rlCount <= cfg.maxRlWaits
    decreases cfg.maxRetries - c.attempt, cfg.maxRlWaits - c.rlCount
  {
    if c.attempt >= cfg.maxRetries then [TRANSIENT]
    else if c.rlCount < cfg.maxRlWaits then [RATE_LIMITED] + WorstStream(cfg, c.(rlCount := c.rlCount + 1))
    else [TRANSIENT] + WorstStream(cfg, Counters(c.attempt + 1, 0))
  }

  lemma {:induction false} WorstStreamLength(cfg: Config, c: Counters)
    requires c.rlCount <= cfg.maxRlWaits
    ensures |WorstStream(cfg, c)| == Budget(cfg, c)
    ensures forall o :: o in WorstStream(cfg, c) ==> o == RATE_LIMITED || o == TRANSIENT
    decreases cfg.maxRetries - c.attempt, cfg.maxRlWaits - c.rlCount
  {
    var w := cfg.maxRlWaits + 1;
    if c.attempt < cfg.maxRetries {
      var d := if c.rlCount < cfg.maxRlWaits then c.(rlCount := c.rlCount + 1) else Counters(c.attempt + 1, 0);
      WorstStreamLength(cfg, d);
      assert (cfg.maxRetries - c.attempt) * w == (cfg.maxRetries - c.attempt - 1) * w + w;
    }
  }

  lemma {:induction false} WorstStreamIsFollowed(cfg: Config, group: bool, c: Counters)
    requires c.rlCount <= cfg.maxRlWaits
    ensures Follow(cfg, Retry, group, c, WorstStream(cfg, c)).calls == |WorstStream(cfg, c)|
    ensures Follow(cfg, Retry, group, c, WorstStream(cfg, c)).returned
    decreases cfg.maxRetries - c.attempt, cfg.maxRlWaits - c.rlCount
  {
    if c.attempt < cfg.maxRetries {
      var d := if c.rlCount < cfg.maxRlWaits then c.(rlCount := c.rlCount + 1) else Counters(c.attempt + 1, 0);
      WorstStreamIsFollowed(cfg, group, d);
      assert WorstStream(cfg, c)[1..] == WorstStream(cfg, d);
      assert Decide(cfg, Retry, group, c, WorstStream(cfg, c)[0]).Backoff?;
    }
  }

  /** The budget of the decision table is exact: some stream makes a loop spend all of it. */
  lemma BudgetIsReached(cfg: Config, group: bool, c: Counters)
    requires c.rlCount <= cfg.maxRlWaits
    ensures exists os: seq<Outcome> :: (forall o :: o in os ==> !o.StillPending?)
                         && Follow(cfg, Retry, group, c, os).returned
                         && Follow(cfg, Retry, group, c, os).calls == |os| == Budget(cfg, c)
  {
    WorstStreamLength(cfg, c);
    WorstStreamIsFollowed(cfg, group, c);
  }

  // ── Rare rate limits ──────────────────────────────────────────────────────

  predicate IsRateLimit(o: Outcome) {
    o.Failure? && o.error.RateLimitedError?
  }

  function RateLimits(os: seq<Outcome>): nat {
    if os == [] then 0 else (if IsRateLimit(os[0]) then 1 else 0) + RateLimits(os[1..])
  }

  /** Calls left if at most `n` more answers are rate limits. */
  function RareBudget(cfg: Config, c: Counters, n: nat): nat {
    if c.attempt >= cfg.maxRetries then 1
    else cfg.maxRetries - c.attempt + (if cfg.maxRlWaits == 0 then 0 else n) + 1
  }

  /** A stream with few rate limits ends sooner than the budget allows. */
  lemma {:induction false} ReturnsWithinRareBudget(cfg: Config, policy: RetryPolicy, group: bool, c: Counters,
                                                   os: seq<Outcome>, n: nat)
    requires forall o :: o in os ==> !o.StillPending?
    requires RateLimits(os) <= n
    ensures Follow(cfg, policy, group, c, os).calls <= RareBudget(cfg, c, n)
    ensures |os| >= RareBudget(cfg, c, n) ==> Follow(cfg, policy, group, c, os).returned
    decreases |os|
  {
    if os != [] {
      assert os[0] in os;
      var d := Decide(cfg, policy, group, c, os[0]);
      if d.Backoff? {
        ReturnsWithinRareBudget(cfg, policy, group, d.counters, os[1..], if IsRateLimit(os[0]) then n - 1 else n);
      }
    }
  }

  // ── The sleeps ────────────────────────────────────────────────────────────

  function Sum(s: seq<nat>): nat {
    if s == [] then 0 else s[0] + Sum(s[1..])
  }

  /** `n` transient failures in a row. */
  function Transients(n: nat): seq<Outcome> {
    seq(n, _ => TRANSIENT)
  }

  lemma TransientStep(cfg: Config, group: bool, attempt: nat)
    requires attempt < cfg.maxRetries
    ensures var n := cfg.maxRetries - attempt - 1;
            Follow(cfg, Retry, group, Counters(attempt, 0), Transients(n + 1)).sleeps
            == [RetryDelayMs(cfg.retryBaseMs, attempt + 1)]
               + Follow(cfg, Retry, group, Counters(attempt + 1, 0), Transients(n)).sleeps
  {
    var n := cfg.maxRetries - attempt - 1;
    assert Transients(n + 1)[1..] == Transients(n);
  }

  /** Riding out transient failures from `attempt` on costs exactly the part of the
      startup total that lies above `attempt`. */
  lemma {:induction false} SleepsFrom(cfg: Config, group: bool, attempt: nat)
    requires attempt <= cfg.maxRetries
    ensures Sum(Follow(cfg, Retry, group, Counters(attempt, 0), Transients(cfg.maxRetries - attempt)).sleeps)
            == TotalDelayMs(cfg.retryBaseMs, cfg.maxRetries) - TotalDelayMs(cfg.retryBaseMs, attempt)
    decreases cfg.maxRetries - attempt
  {
    if attempt < cfg.maxRetries {
      TransientStep(cfg, group, attempt);
      SleepsFrom(cfg, group, attempt + 1);
      var rest := Follow(cfg, Retry, group, Counters(attempt + 1, 0), Transients(cfg.maxRetries - attempt - 1)).sleeps;
      assert ([RetryDelayMs(cfg.retryBaseMs, attempt + 1)] + rest)[1..] == rest;
    }
  }

  /** The total startup computes is the time a loop sleeps over `maxRetries` transient
      failures, one sleep each. */
  lemma StartupTotalIsTimeSlept(cfg: Config, group: bool)
    ensures Sum(Follow(cfg, Retry, group, Counters(0, 0), Transients(cfg.maxRetries)).sleeps)
            == TotalDelayMs(cfg.retryBaseMs, cfg.maxRetries)
    ensures |Follow(cfg, Retry, group, Counters(0, 0), Transients(cfg.maxRetries)).sleeps| == cfg.maxRetries
  {
    SleepsFrom(cfg, group, 0);
    SleepCount(cfg, group, 0);
  }

  lemma {:induction false} SleepCount(cfg: Config, group: bool, attempt: nat)
    requires attempt <= cfg.maxRetries
    ensures |Follow(cfg, Retry, group, Counters(attempt, 0), Transients(cfg.maxRetries - attempt)).sleeps|
            == cfg.maxRetries - attempt
    decreases cfg.maxRetries - attempt
  {
    if attempt < cfg.maxRetries {
      TransientStep(cfg, group, attempt);
      SleepCount(cfg, group, attempt + 1);
    }
  }

  /** The other face of the budget: a loop that only ever hears "still pending" never
      returns, however long it runs, and never sleeps. */
  lemma {:induction false} StillPendingNeverReturns(cfg: Config, policy: RetryPolicy, group: bool, c: Counters,
                                                    os: seq<Outcome>)
    requires forall o :: o in os ==> o.StillPending?
    ensures Follow(cfg, policy, group, c, os) == Trace(|os|, [], false)
    decreases |os|
  {
    if os != [] {
      assert os[0] in os;
      StillPendingNeverReturns(cfg, policy, group, Decide(cfg, policy, group, c, os[0]).counters, os[1..]);
    }
  }
}
