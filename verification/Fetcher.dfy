/** Attachment fetching and the choice of the one error that decides between requeue and
    dead-lettering (crates/mailer/src/fetcher.rs). */
module Fetcher {
  import opened Common
  import opened Event

  const FETCH_MAX_RETRIES: nat := 3

  // ── Metadata ──────────────────────────────────────────────────────────────

  predicate StartsWith(s: string, prefix: string) {
    |prefix| <= |s| && s[..|prefix|] == prefix
  }

  /** `AttachmentRef::validate` of crates/common/src/event.rs. */
  predicate ValidRef(r: AttachmentRef, eventTime: Time, now: Time) {
    && r.url != "" && (StartsWith(r.url, "http://") || StartsWith(r.url, "https://"))
    && r.filename != "" && '/' !in r.filename && '\\' !in r.filename
    && '/' in r.contentType
    && (r.maxAgeSecs.Some? && now > eventTime ==> (now - eventTime) / NANOS_PER_SEC <= r.maxAgeSecs.value)
  }

  /** A URL over HTTP, with or without TLS. */
  ghost predicate IsHttpUrl(url: string) {
    exists rest: string :: url == "http://" + rest || url == "https://" + rest
  }

  lemma StartsWithIff(s: string, prefix: string)
    ensures StartsWith(s, prefix) <==> exists rest :: s == prefix + rest
  {
    if StartsWith(s, prefix) {
      assert s == prefix + s[|prefix|..];
    }
  }

  /** A reference is valid exactly if it names a file, not a path, of some MIME type, behind an
      HTTP URL, and less than a second more than its maximum age has passed since the event. */
  lemma ValidRefIff(r: AttachmentRef, eventTime: Time, now: Time)
    ensures ValidRef(r, eventTime, now) <==>
              && IsHttpUrl(r.url)
              && r.filename != "" && (forall c :: c in r.filename ==> c != '/' && c != '\\')
              && (exists i :: 0 <= i < |r.contentType| && r.contentType[i] == '/')
              && (r.maxAgeSecs.Some? ==> now < eventTime + (r.maxAgeSecs.value + 1) * NANOS_PER_SEC)
  {
    StartsWithIff(r.url, "http://");
    StartsWithIff(r.url, "https://");
  }

  // ── One attachment ────────────────────────────────────────────────────────

  datatype Http = NetworkError | Response(status: nat, body: Option<seq<nat>>)

  /** `stop` and `stopInSleep`: shutdown is seen before the attempt, or during its delay. */
  datatype Attempt = Attempt(stop: bool, stopInSleep: bool, http: Http)

  function Transient(message: string): AppError {
    MailerError(message, MailerKind.Transient)
  }

  function FetchOne(h: Http, maxBytes: nat): Result<seq<nat>, AppError> {
    if h.NetworkError? then Err(Transient("attachment fetch network error"))
    else if h.status == 429 then Err(RateLimitedError("attachment source returned HTTP 429"))
    else if 400 <= h.status < 500 then Err(PermanentMailer("attachment fetch returned client error"))
    else if 500 <= h.status < 600 then Err(Transient("attachment fetch returned server error"))
    else if h.body.None? then Err(Transient("attachment read error"))
    else if |h.body.value| > maxBytes then Err(PermanentMailer("attachment exceeds size limit"))
    else Ok(h.body.value)
  }

  /** The loop sees shutdown at attempt `i`. */
  predicate Stopped(attempts: seq<Attempt>, i: nat)
    requires i < |attempts|
  {
    attempts[i].stop || (i > 0 && attempts[i].stopInSleep)
  }

  predicate Retryable(r: Result<seq<nat>, AppError>) {
    r.Err? && !r.error.IsPermanentMailer()
  }

  /** At most four requests; a success or a permanent failure ends the loop at once. */
  method FetchOneWithRetry(r: AttachmentRef, maxBytes: nat, attempts: seq<Attempt>)
    returns (result: Result<ResolvedAttachment, AppError>)
    requires |attempts| == FETCH_MAX_RETRIES + 1
    ensures result == RetryResult(r, attempts, maxBytes)
  {
    var lastErr: Option<AppError> := None;
    for i := 0 to FETCH_MAX_RETRIES + 1
      invariant i > 0 ==> Retryable(FetchOne(attempts[i - 1].http, maxBytes))
      invariant lastErr == if i == 0 then None else Some(FetchOne(attempts[i - 1].http, maxBytes).error)
      invariant RetryResult(r, attempts, maxBytes) == RetryFrom(r, attempts, maxBytes, i)
    {
      if attempts[i].stop {
        return Err(Transient("shutdown requested during fetch"));
      }
      if i > 0 && attempts[i].stopInSleep {
        return Err(Transient("shutdown requested during fetch retry"));
      }
      var fetched := FetchOne(attempts[i].http, maxBytes);
      if fetched.Ok? {
        return Ok(ResolvedAttachment(r.filename, r.contentType, fetched.value));
      }
      if fetched.error.IsPermanentMailer() {
        return Err(fetched.error);
      }
      lastErr := Some(fetched.error);
    }
    return Err(lastErr.value);
  }

  function RetryResult(r: AttachmentRef, attempts: seq<Attempt>, maxBytes: nat): Result<ResolvedAttachment, AppError>
    requires attempts != []
  {
    RetryFrom(r, attempts, maxBytes, 0)
  }

  function RetryFrom(r: AttachmentRef, attempts: seq<Attempt>, maxBytes: nat,
                     i: nat): Result<ResolvedAttachment, AppError>
    requires i <= |attempts| && attempts != []
    decreases |attempts| - i
  {
    if i == |attempts| then
      var last := FetchOne(attempts[i - 1].http, maxBytes);
      Err(if last.Err? then last.error else Transient("attachment fetch failed after retries"))
    else if attempts[i].stop then Err(Transient("shutdown requested during fetch"))
    else if i > 0 && attempts[i].stopInSleep then Err(Transient("shutdown requested during fetch retry"))
    else
      var fetched := FetchOne(attempts[i].http, maxBytes);
      if fetched.Ok? then Ok(ResolvedAttachment(r.filename, r.contentType, fetched.value))
      else if fetched.error.IsPermanentMailer() then Err(fetched.error)
      else RetryFrom(r, attempts, maxBytes, i + 1)
  }

  /** The attempt that gives the loop its result, unless shutdown or the limit does. */
  ghost predicate Decides(attempts: seq<Attempt>, maxBytes: nat, n: nat, i: nat) {
    && n <= i < |attempts|
    && (forall m :: n <= m <= i ==> !Stopped(attempts, m))
    && (forall m :: n <= m < i ==> Retryable(FetchOne(attempts[m].http, maxBytes)))
    && !Retryable(FetchOne(attempts[i].http, maxBytes))
  }

  lemma DecidesEarlier(attempts: seq<Attempt>, maxBytes: nat, n: nat)
    requires n < |attempts| && !Stopped(attempts, n) && Retryable(FetchOne(attempts[n].http, maxBytes))
    ensures forall i: nat :: Decides(attempts, maxBytes, n, i) <==> Decides(attempts, maxBytes, n + 1, i)
  {
  }

  /** A fetch succeeds, or fails for good, exactly if some attempt does, every attempt up to
      it went ahead without shutdown, and every earlier one failed in a way worth retrying. */
  lemma {:induction false} FirstDecisiveAttempt(r: AttachmentRef, attempts: seq<Attempt>, maxBytes: nat, n: nat)
    requires n <= |attempts| && attempts != []
    requires n == |attempts| ==> Retryable(FetchOne(attempts[n - 1].http, maxBytes))
    ensures var result := RetryFrom(r, attempts, maxBytes, n);
            && (result.Ok? || result.error.IsPermanentMailer() <==> exists i: nat :: Decides(attempts, maxBytes, n, i))
            && forall i: nat :: Decides(attempts, maxBytes, n, i) ==>
                 match FetchOne(attempts[i].http, maxBytes)
                 case Ok(data) => result == Ok(ResolvedAttachment(r.filename, r.contentType, data))
                 case Err(e) => result == Err(e)
    decreases |attempts| - n
  {
    if n < |attempts| && !Stopped(attempts, n) {
      if Retryable(FetchOne(attempts[n].http, maxBytes)) {
        FirstDecisiveAttempt(r, attempts, maxBytes, n + 1);
        DecidesEarlier(attempts, maxBytes, n);
        var later := n + 1;
        if i: nat :| Decides(attempts, maxBytes, later, i) {
          assert Decides(attempts, maxBytes, n, i);
        }
      } else {
        assert Decides(attempts, maxBytes, n, n);
      }
    }
  }

  // ── What the answers mean ─────────────────────────────────────────────────

  /** A status that is neither a client nor a server error. */
  predicate Welcome(status: nat) {
    status < 400 || status > 599
  }

  /** The body arrived, and is not too large. */
  predicate Delivers(h: Http, maxBytes: nat, data: seq<nat>) {
    h.Response? && Welcome(h.status) && h.body == Some(data) && |data| <= maxBytes
  }

  /** The source refuses, or the body is too large: asking again is of no use. */
  predicate Hopeless(h: Http, maxBytes: nat) {
    && h.Response?
    && ((400 <= h.status <= 499 && h.status != 429)
        || (Welcome(h.status) && h.body.Some? && |h.body.value| > maxBytes))
  }

  /** No answer, a rate limit, a server error, or a body that breaks off. */
  predicate WorthAnotherTry(h: Http) {
    h.NetworkError? || h.status == 429 || 500 <= h.status <= 599 || (Welcome(h.status) && h.body.None?)
  }

  lemma AnswerMeans(h: Http, maxBytes: nat)
    ensures forall data :: FetchOne(h, maxBytes) == Ok(data) <==> Delivers(h, maxBytes, data)
    ensures FetchOne(h, maxBytes).Err? && FetchOne(h, maxBytes).error.IsPermanentMailer() <==> Hopeless(h, maxBytes)
    ensures Retryable(FetchOne(h, maxBytes)) <==> WorthAnotherTry(h)
  {
  }

  /** The loop makes request `i`: no shutdown was seen so far, and every earlier request was
      worth another try. */
  ghost predicate Reaches(attempts: seq<Attempt>, i: nat) {
    && i < |attempts|
    && (forall m :: 0 <= m <= i ==> !attempts[m].stop && (m > 0 ==> !attempts[m].stopInSleep))
    && (forall m :: 0 <= m < i ==> WorthAnotherTry(attempts[m].http))
  }

  /** Request `i` is made and delivers the attachment. */
  ghost predicate GetsAt(r: AttachmentRef, attempts: seq<Attempt>, maxBytes: nat, x: ResolvedAttachment, i: nat) {
    && Reaches(attempts, i) && Delivers(attempts[i].http, maxBytes, x.data)
    && x.filename == r.filename && x.contentType == r.contentType
  }

  /** Request `i` is made and shows that asking again is of no use. */
  ghost predicate LosesAt(attempts: seq<Attempt>, maxBytes: nat, i: nat) {
    Reaches(attempts, i) && Hopeless(attempts[i].http, maxBytes)
  }

  ghost predicate Gets(r: AttachmentRef, attempts: seq<Attempt>, maxBytes: nat, x: ResolvedAttachment) {
    exists i: nat :: GetsAt(r, attempts, maxBytes, x, i)
  }

  ghost predicate Loses(attempts: seq<Attempt>, maxBytes: nat) {
    exists i: nat :: LosesAt(attempts, maxBytes, i)
  }

  lemma DecidesIff(attempts: seq<Attempt>, maxBytes: nat, i: nat)
    ensures Decides(attempts, maxBytes, 0, i) <==> Reaches(attempts, i) && !WorthAnotherTry(attempts[i].http)
  {
    forall m | 0 <= m < |attempts|
      ensures Retryable(FetchOne(attempts[m].http, maxBytes)) <==> WorthAnotherTry(attempts[m].http)
    {
      AnswerMeans(attempts[m].http, maxBytes);
    }
    if Decides(attempts, maxBytes, 0, i) {
      forall m | 0 <= m <= i ensures !attempts[m].stop && (m > 0 ==> !attempts[m].stopInSleep) {
        assert !Stopped(attempts, m);
      }
      forall m | 0 <= m < i ensures WorthAnotherTry(attempts[m].http) {
        assert Retryable(FetchOne(attempts[m].http, maxBytes));
      }
    }
  }

  /** A fetch delivers the attachment exactly if some request it makes does, and fails for good
      exactly if some request it makes shows that asking again is of no use. */
  lemma FetchMeans(r: AttachmentRef, attempts: seq<Attempt>, maxBytes: nat)
    requires attempts != []
    ensures var result := RetryResult(r, attempts, maxBytes);
            && (forall x :: result == Ok(x) <==> Gets(r, attempts, maxBytes, x))
            && (result.Err? && result.error.IsPermanentMailer() <==> Loses(attempts, maxBytes))
  {
    var result := RetryResult(r, attempts, maxBytes);
    FirstDecisiveAttempt(r, attempts, maxBytes, 0);
    forall i: nat
      ensures Decides(attempts, maxBytes, 0, i) <==> Reaches(attempts, i) && !WorthAnotherTry(attempts[i].http)
    {
      DecidesIff(attempts, maxBytes, i);
    }
    if i: nat :| Decides(attempts, maxBytes, 0, i) {
      AnswerMeans(attempts[i].http, maxBytes);
      forall k: nat | Reaches(attempts, k) && !WorthAnotherTry(attempts[k].http) ensures k == i {
        assert Decides(attempts, maxBytes, 0, k);
      }
      if result.Ok? {
        assert GetsAt(r, attempts, maxBytes, result.value, i);
      } else {
        assert LosesAt(attempts, maxBytes, i);
      }
    }
    forall x, i: nat | GetsAt(r, attempts, maxBytes, x, i) ensures result == Ok(x) {
      AnswerMeans(attempts[i].http, maxBytes);
      assert Decides(attempts, maxBytes, 0, i);
    }
    forall i: nat | LosesAt(attempts, maxBytes, i) ensures result.Err? && result.error.IsPermanentMailer() {
      AnswerMeans(attempts[i].http, maxBytes);
      assert Decides(attempts, maxBytes, 0, i);
    }
  }

  // ── All attachments of an event ───────────────────────────────────────────

  /** The reduction over the errors: an error worth requeueing wins over one that is not. */
  function Representative(errors: seq<AppError>): AppError
    requires errors != []
  {
    if |errors| == 1 then errors[0]
    else
      var acc, e := Representative(errors[..|errors| - 1]), errors[|errors| - 1];
      if acc.IsPermanentMailer() && !e.IsPermanentMailer() then e else acc
  }

  /** Error `i` is the first worth requeueing, or the first of all if none is. */
  predicate FirstRetryable(errors: seq<AppError>, i: nat) {
    && i < |errors|
    && (forall m :: 0 <= m < i ==> errors[m].IsPermanentMailer())
    && (errors[i].IsPermanentMailer() ==> i == 0 && forall m :: 0 <= m < |errors| ==> errors[m].IsPermanentMailer())
  }

  /** The surfaced error is the first that is worth requeueing, or else the first. */
  lemma {:induction false} RepresentativeIsFirstRetryable(errors: seq<AppError>) returns (i: nat)
    requires errors != []
    ensures FirstRetryable(errors, i) && Representative(errors) == errors[i]
  {
    i := 0;
    if |errors| > 1 {
      var init := errors[..|errors| - 1];
      assert forall m :: 0 <= m < |init| ==> errors[m] == init[m];
      i := RepresentativeIsFirstRetryable(init);
      if init[i].IsPermanentMailer() && !errors[|errors| - 1].IsPermanentMailer() {
        i := |errors| - 1;
      }
    }
  }

  /** Clock and shutdown flag as the n-th reference is validated, and each fetch's attempts. */
  datatype FetchAnswers = FetchAnswers(checkedAt: nat -> Time, stopped: nat -> bool, attempts: nat -> seq<Attempt>)
  {
    function For(i: nat): (s: seq<Attempt>)
      ensures |s| == 4
    {
      if |attempts(i)| == FETCH_MAX_RETRIES + 1 then attempts(i)
      else seq(FETCH_MAX_RETRIES + 1, _ => Attempt(false, false, NetworkError))
    }
  }

  /** What validation reports, looking at the references in order. */
  function Validation(refs: seq<AttachmentRef>, eventTime: Time, a: FetchAnswers, i: nat): Result<(), AppError>
    requires i <= |refs|
    decreases |refs| - i
  {
    if i == |refs| then Ok(())
    else if !ValidRef(refs[i], eventTime, a.checkedAt(i)) then Err(PermanentMailer("invalid attachment"))
    else if a.stopped(i) then Err(Transient("shutdown requested during attachment validation"))
    else Validation(refs, eventTime, a, i + 1)
  }

  function Fetched(refs: seq<AttachmentRef>, maxBytes: nat, a: FetchAnswers,
                   i: nat): Result<ResolvedAttachment, AppError>
    requires i < |refs|
  {
    RetryResult(refs[i], a.For(i), maxBytes)
  }

  /** The errors of the first `n` fetches, in order. */
  function Errors(refs: seq<AttachmentRef>, maxBytes: nat, a: FetchAnswers, n: nat): seq<AppError>
    requires n <= |refs|
  {
    if n == 0 then []
    else
      Errors(refs, maxBytes, a, n - 1)
      + if Fetched(refs, maxBytes, a, n - 1).Err? then [Fetched(refs, maxBytes, a, n - 1).error] else []
  }

  /** `r` is what fetching the references means: an order-preserving list of all of them, or
      the validation error, or the representative of the fetch errors. */
  ghost predicate IsFetchOutcome(refs: seq<AttachmentRef>, eventTime: Time, maxBytes: nat, a: FetchAnswers,
                                 r: Result<seq<ResolvedAttachment>, AppError>) {
    var v, errors := Validation(refs, eventTime, a, 0), Errors(refs, maxBytes, a, |refs|);
    if v.Err? then r == Err(v.error)
    else if errors != [] then r == Err(Representative(errors))
    else r.Ok? && |r.value| == |refs| && forall i :: 0 <= i < |refs| ==> Fetched(refs, maxBytes, a, i) == Ok(r.value[i])
  }

  method FetchAttachments(refs: seq<AttachmentRef>, eventTime: Time, maxBytes: nat, a: FetchAnswers)
    returns (r: Result<seq<ResolvedAttachment>, AppError>)
    ensures IsFetchOutcome(refs, eventTime, maxBytes, a, r)
  {
    var valid := ValidateAll(refs, eventTime, a);
    if valid.Err? {
      return Err(valid.error);
    }
    var resolved, errors := FetchAll(refs, maxBytes, a);
    if errors == [] {
      return Ok(resolved);
    }
    var representative := Reduce(errors);
    return Err(representative);
  }

  method ValidateAll(refs: seq<AttachmentRef>, eventTime: Time, a: FetchAnswers) returns (r: Result<(), AppError>)
    ensures r == Validation(refs, eventTime, a, 0)
  {
    for i := 0 to |refs|
      invariant Validation(refs, eventTime, a, 0) == Validation(refs, eventTime, a, i)
    {
      if !ValidRef(refs[i], eventTime, a.checkedAt(i)) {
        return Err(PermanentMailer("invalid attachment"));
      }
      if a.stopped(i) {
        return Err(Transient("shutdown requested during attachment validation"));
      }
    }
    return Ok(());
  }

  /** The fetches run at once; joining them gives their results in the references' order. */
  method FetchAll(refs: seq<AttachmentRef>, maxBytes: nat, a: FetchAnswers)
    returns (resolved: seq<ResolvedAttachment>, errors: seq<AppError>)
    ensures errors == Errors(refs, maxBytes, a, |refs|)
    ensures errors == [] ==>
              |resolved| == |refs| && forall i :: 0 <= i < |refs| ==> Fetched(refs, maxBytes, a, i) == Ok(resolved[i])
  {
    resolved, errors := [], [];
    for i := 0 to |refs|
      invariant errors == Errors(refs, maxBytes, a, i)
      invariant errors == [] ==>
                  |resolved| == i && forall m :: 0 <= m < i ==> Fetched(refs, maxBytes, a, m) == Ok(resolved[m])
    {
      var result := FetchOneWithRetry(refs[i], maxBytes, a.For(i));
      assert result == Fetched(refs, maxBytes, a, i);
      if result.Ok? {
        resolved := resolved + [result.value];
      } else {
        errors := errors + [result.error];
      }
    }
  }

  method Reduce(errors: seq<AppError>) returns (representative: AppError)
    requires errors != []
    ensures representative == Representative(errors)
  {
    representative := errors[0];
    for i := 1 to |errors|
      invariant representative == Representative(errors[..i])
    {
      assert errors[..i + 1][..i] == errors[..i];
      if representative.IsPermanentMailer() && !errors[i].IsPermanentMailer() {
        representative := errors[i];
      }
    }
    assert errors[..|errors|] == errors;
  }

  lemma {:induction false} ErrorsMembers(refs: seq<AttachmentRef>, maxBytes: nat, a: FetchAnswers, n: nat)
    requires n <= |refs|
    ensures forall e :: e in Errors(refs, maxBytes, a, n) <==>
              exists i :: 0 <= i < n && Fetched(refs, maxBytes, a, i) == Err(e)
  {
    if n > 0 {
      ErrorsMembers(refs, maxBytes, a, n - 1);
    }
  }

  lemma {:induction false} NoErrors(refs: seq<AttachmentRef>, maxBytes: nat, a: FetchAnswers, n: nat)
    requires n <= |refs| && Errors(refs, maxBytes, a, n) == []
    ensures forall i :: 0 <= i < n ==> Fetched(refs, maxBytes, a, i).Ok?
  {
    if n > 0 {
      NoErrors(refs, maxBytes, a, n - 1);
    }
  }

  // ── When all of it succeeds ───────────────────────────────────────────────

  /** Every reference is valid, and no shutdown is seen while they are checked. */
  predicate PassesValidation(refs: seq<AttachmentRef>, eventTime: Time, a: FetchAnswers) {
    forall i :: 0 <= i < |refs| ==> ValidRef(refs[i], eventTime, a.checkedAt(i)) && !a.stopped(i)
  }

  lemma {:induction false} ValidationIff(refs: seq<AttachmentRef>, eventTime: Time, a: FetchAnswers, n: nat)
    requires n <= |refs|
    ensures Validation(refs, eventTime, a, n).Ok? <==>
              forall i :: n <= i < |refs| ==> ValidRef(refs[i], eventTime, a.checkedAt(i)) && !a.stopped(i)
    decreases |refs| - n
  {
    if n < |refs| {
      ValidationIff(refs, eventTime, a, n + 1);
    }
  }

  /** Attachment `i` is delivered. */
  ghost predicate GetsAttachment(refs: seq<AttachmentRef>, maxBytes: nat, a: FetchAnswers, i: nat) {
    i < |refs| && exists x :: Gets(refs[i], a.For(i), maxBytes, x)
  }

  /** Some attachment is lost, and every other one is lost or delivered. */
  ghost predicate AllLostOrDelivered(refs: seq<AttachmentRef>, maxBytes: nat, a: FetchAnswers) {
    && (exists i :: 0 <= i < |refs| && Loses(a.For(i), maxBytes))
    && forall i :: 0 <= i < |refs| ==> Loses(a.For(i), maxBytes) || GetsAttachment(refs, maxBytes, a, i)
  }

  lemma FetchedMeans(refs: seq<AttachmentRef>, maxBytes: nat, a: FetchAnswers, i: nat)
    requires i < |refs|
    ensures var f := Fetched(refs, maxBytes, a, i);
            && (f.Ok? <==> GetsAttachment(refs, maxBytes, a, i))
            && (f.Ok? ==> Gets(refs[i], a.For(i), maxBytes, f.value))
            && (f.Err? && f.error.IsPermanentMailer() <==> Loses(a.For(i), maxBytes))
  {
    FetchMeans(refs[i], a.For(i), maxBytes);
    var f := Fetched(refs, maxBytes, a, i);
    if f.Ok? {
      assert Gets(refs[i], a.For(i), maxBytes, f.value);
    }
  }

  /** Some reference is invalid and no shutdown was seen before it, or all are valid, and each
      attachment is lost or delivered, at least one of them lost. */
  ghost predicate BeyondRetrying(refs: seq<AttachmentRef>, eventTime: Time, maxBytes: nat, a: FetchAnswers) {
    || InvalidFirst(refs, eventTime, a)
    || (PassesValidation(refs, eventTime, a) && AllLostOrDelivered(refs, maxBytes, a))
  }

  /** Fetching fails for good exactly then: one attachment worth another try saves the event
      from the dead-letter queue. */
  lemma FailsForGoodIff(refs: seq<AttachmentRef>, eventTime: Time, maxBytes: nat, a: FetchAnswers,
                        r: Result<seq<ResolvedAttachment>, AppError>)
    requires IsFetchOutcome(refs, eventTime, maxBytes, a, r)
    ensures r.Err? && r.error.IsPermanentMailer() <==> BeyondRetrying(refs, eventTime, maxBytes, a)
  {
    ValidationFindsFirst(refs, eventTime, a, 0);
    ValidationIff(refs, eventTime, a, 0);
    forall i: nat | i < |refs|
      ensures var f := Fetched(refs, maxBytes, a, i);
              && (f.Ok? <==> GetsAttachment(refs, maxBytes, a, i))
              && (f.Err? && f.error.IsPermanentMailer() <==> Loses(a.For(i), maxBytes))
    {
      FetchedMeans(refs, maxBytes, a, i);
    }
    ErrorsForGood(refs, maxBytes, a);
  }

  lemma ErrorsForGood(refs: seq<AttachmentRef>, maxBytes: nat, a: FetchAnswers)
    ensures var errors := Errors(refs, maxBytes, a, |refs|);
            errors != [] && Representative(errors).IsPermanentMailer() <==>
              && (exists i :: 0 <= i < |refs| && Fetched(refs, maxBytes, a, i).Err?)
              && forall i :: 0 <= i < |refs| && Fetched(refs, maxBytes, a, i).Err? ==>
                   Fetched(refs, maxBytes, a, i).error.IsPermanentMailer()
  {
    var errors := Errors(refs, maxBytes, a, |refs|);
    ErrorsMembers(refs, maxBytes, a, |refs|);
    if errors != [] {
      assert errors[0] in errors;
      var first := RepresentativeIsFirstRetryable(errors);
      assert Representative(errors) in errors;
    }
    forall i | 0 <= i < |refs| && Fetched(refs, maxBytes, a, i).Err?
      ensures Fetched(refs, maxBytes, a, i).error in errors
    {
      assert Fetched(refs, maxBytes, a, i) == Err(Fetched(refs, maxBytes, a, i).error);
    }
  }

  /** Fetching succeeds exactly when every reference is valid and every attachment is delivered;
      the results are those attachments, in the order of the references. */
  lemma FetchSucceedsIff(refs: seq<AttachmentRef>, eventTime: Time, maxBytes: nat, a: FetchAnswers,
                         r: Result<seq<ResolvedAttachment>, AppError>)
    requires IsFetchOutcome(refs, eventTime, maxBytes, a, r)
    ensures r.Ok? <==>
              && PassesValidation(refs, eventTime, a)
              && forall i: nat :: i < |refs| ==> GetsAttachment(refs, maxBytes, a, i)
    ensures r.Ok? ==>
              |r.value| == |refs| && forall i :: 0 <= i < |refs| ==> Gets(refs[i], a.For(i), maxBytes, r.value[i])
  {
    ValidationIff(refs, eventTime, a, 0);
    forall i: nat | i < |refs|
      ensures var f := Fetched(refs, maxBytes, a, i);
              && (f.Ok? <==> GetsAttachment(refs, maxBytes, a, i))
              && (f.Ok? ==> Gets(refs[i], a.For(i), maxBytes, f.value))
    {
      FetchedMeans(refs, maxBytes, a, i);
    }
    var errors := Errors(refs, maxBytes, a, |refs|);
    if errors == [] {
      NoErrors(refs, maxBytes, a, |refs|);
    } else {
      ErrorsMembers(refs, maxBytes, a, |refs|);
      assert errors[0] in errors;
    }
  }

  /** Some reference is invalid, with no shutdown seen at the ones before it. */
  predicate InvalidFirst(refs: seq<AttachmentRef>, eventTime: Time, a: FetchAnswers) {
    InvalidFrom(refs, eventTime, a, 0)
  }

  predicate InvalidFrom(refs: seq<AttachmentRef>, eventTime: Time, a: FetchAnswers, n: nat) {
    exists i :: n <= i < |refs| && !ValidRef(refs[i], eventTime, a.checkedAt(i))
                && forall m :: n <= m < i ==> ValidRef(refs[m], eventTime, a.checkedAt(m)) && !a.stopped(m)
  }

  lemma {:induction false} ValidationFindsFirst(refs: seq<AttachmentRef>, eventTime: Time, a: FetchAnswers, n: nat)
    requires n <= |refs|
    ensures var v := Validation(refs, eventTime, a, n);
            v.Err? && v.error.IsPermanentMailer() <==> InvalidFrom(refs, eventTime, a, n)
    decreases |refs| - n
  {
    if n < |refs| {
      ValidationFindsFirst(refs, eventTime, a, n + 1);
      if InvalidFrom(refs, eventTime, a, n + 1) && ValidRef(refs[n], eventTime, a.checkedAt(n)) && !a.stopped(n) {
        var i :| n + 1 <= i < |refs| && !ValidRef(refs[i], eventTime, a.checkedAt(i))
                 && forall m :: n + 1 <= m < i ==> ValidRef(refs[m], eventTime, a.checkedAt(m)) && !a.stopped(m);
        assert n <= i && forall m :: n <= m < i ==> ValidRef(refs[m], eventTime, a.checkedAt(m)) && !a.stopped(m);
      }
    }
  }
}
