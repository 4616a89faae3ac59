/** The static block/allow-list filter (crates/recipient_filter/src/lib.rs). */
module RecipientFilter {
  import opened Common

  /** What Unicode lower-casing promises here: doing it twice changes nothing more, and '@' is
      no letter, so the parts around one are folded apart.  The length may change, and a letter
      may be folded by its neighbours (a final sigma). */
  ghost predicate IsFolding(f: string -> string) {
    && (forall s :: f(f(s)) == f(s))
    && (forall x, y :: f(x + "@" + y) == f(x) + "@" + f(y))
    && (forall s :: '@' in f(s) <==> '@' in s)
  }

  function AsciiChar(c: char): char {
    if 'A' <= c <= 'Z' then c - 'A' + 'a' else c
  }

  function Ascii(s: string): string {
    seq(|s|, i requires 0 <= i < |s| => AsciiChar(s[i]))
  }

  lemma AsciiFolds()
    ensures IsFolding(Ascii)
  {
    forall s ensures Ascii(Ascii(s)) == Ascii(s) && ('@' in Ascii(s) <==> '@' in s) {
      assert forall i :: 0 <= i < |s| ==> (Ascii(s)[i] == '@' <==> s[i] == '@');
      if '@' in s {
        var i :| 0 <= i < |s| && s[i] == '@';
        assert Ascii(s)[i] == '@';
      }
    }
    forall x: string, y: string ensures Ascii(x + "@" + y) == Ascii(x) + "@" + Ascii(y) {
    }
  }

  type Folding = f: string -> string | IsFolding(f) witness (AsciiFolds(); Ascii)

  /** The lower-casing in use: any folding. */
  const LOWER: Folding

  function Lower(s: string): string {
    LOWER(s)
  }

  lemma LowerIdempotent(s: string)
    ensures Lower(Lower(s)) == Lower(s)
  {
  }

  /** The text after the last '@', if there is one. */
  function DomainOf(s: string): Option<string> {
    if s == "" then None
    else if DomainOf(s[1..]).Some? then DomainOf(s[1..])
    else if s[0] == '@' then Some(s[1..])
    else None
  }

  lemma {:induction false} DomainFollowsLastAt(s: string, d: string)
    ensures DomainOf(s) == Some(d) <==> exists i :: 0 <= i < |s| && s[i] == '@' && d == s[i + 1..] && '@' !in d
    ensures DomainOf(s).None? <==> '@' !in s
  {
    if s != "" {
      var t := s[1..];
      DomainFollowsLastAt(t, d);
      if DomainOf(t).Some? {
        DomainFollowsLastAt(t, DomainOf(t).value);
      }
      forall i | 0 <= i < |t| ensures t[i] == s[i + 1] && t[i + 1..] == s[i + 2..] {}
      if i :| 0 <= i < |t| && t[i] == '@' && d == t[i + 1..] && '@' !in d {
        assert s[i + 1] == '@' && d == s[i + 1 + 1..];
      }
      if i :| 0 <= i < |s| && s[i] == '@' && d == s[i + 1..] && '@' !in d {
        if i > 0 {
          assert t[i - 1] == '@' && d == t[i - 1 + 1..];
        }
      }
    }
  }

  datatype FilterConfig = FilterConfig(
    blockedEmails: seq<string>, blockedDomains: seq<string>,
    allowedEmails: seq<string>, allowedDomains: seq<string>)

  datatype Filter = Filter(
    blockedEmails: set<string>, blockedDomains: set<string>,
    allowedEmails: set<string>, allowedDomains: set<string>, allowlistMode: bool)
  {
    function Check(email: Email): Result<(), AppError> {
      var lc := Lower(email);
      var domain := DomainOf(lc);
      if lc in blockedEmails then Err(BlockedError("blocked-email list"))
      else if domain.Some? && domain.value in blockedDomains then Err(BlockedError("blocked-domain list"))
      else if allowlistMode && lc !in allowedEmails && !(domain.Some? && domain.value in allowedDomains) then
        Err(BlockedError("allowlist mode active"))
      else Ok(())
    }

    predicate IsPassthrough() {
      blockedEmails == {} && blockedDomains == {} && !allowlistMode
    }
  }

  function Norm(v: seq<string>): set<string> {
    set s | s in v :: Lower(s)
  }

  function New(cfg: FilterConfig): Filter {
    Filter(Norm(cfg.blockedEmails), Norm(cfg.blockedDomains), Norm(cfg.allowedEmails), Norm(cfg.allowedDomains),
           Norm(cfg.allowedEmails) != {} || Norm(cfg.allowedDomains) != {})
  }

  // ── What the filter decides ───────────────────────────────────────────────

  predicate SameText(a: string, b: string) {
    Lower(a) == Lower(b)
  }

  /** `email` is one of `emails`, or lies at one of `domains`, up to case. */
  ghost predicate Listed(email: Email, emails: iset<string>, domains: iset<string>) {
    || (exists e :: e in emails && SameText(e, email))
    || (exists d :: d in domains && AtDomain(email, d))
  }

  /** The part of `email` after its last '@' is `d`, up to case. */
  ghost predicate AtDomain(email: Email, d: string) {
    exists i :: 0 <= i < |email| && email[i] == '@' && '@' !in email[i + 1..] && SameText(email[i + 1..], d)
  }

  /** Mail may go out: not on a block list and, when any allow entry exists, on an allow list. */
  ghost predicate Admits(blockedEmails: iset<string>, blockedDomains: iset<string>,
                         allowedEmails: iset<string>, allowedDomains: iset<string>, email: Email) {
    && !Listed(email, blockedEmails, blockedDomains)
    && ((exists s :: s in allowedEmails || s in allowedDomains) ==> Listed(email, allowedEmails, allowedDomains))
  }

  ghost function Texts(v: seq<string>): iset<string> {
    iset s | s in v
  }

  ghost predicate ConfigAdmits(cfg: FilterConfig, email: Email) {
    Admits(Texts(cfg.blockedEmails), Texts(cfg.blockedDomains), Texts(cfg.allowedEmails), Texts(cfg.allowedDomains),
           email)
  }

  /** Lower-casing an address lower-cases its domain. */
  lemma FoldedDomain(email: Email)
    ensures DomainOf(Lower(email)) ==
            match DomainOf(email) case None => None case Some(d) => Some(Lower(d))
  {
    match DomainOf(email)
    case None =>
      DomainFollowsLastAt(email, "");
      DomainFollowsLastAt(Lower(email), "");
    case Some(d) =>
      DomainFollowsLastAt(email, d);
      var i :| 0 <= i < |email| && email[i] == '@' && d == email[i + 1..] && '@' !in d;
      assert email == email[..i] + "@" + d;
      var x := Lower(email[..i]);
      assert Lower(email) == x + "@" + Lower(d);
      assert Lower(email)[|x|] == '@' && Lower(email)[|x| + 1..] == Lower(d);
      DomainFollowsLastAt(Lower(email), Lower(d));
  }

  /** The lower-cased domain is in a set of lower-cased domains exactly when the address
      lies at one of them. */
  lemma DomainLookup(email: Email, d: string)
    ensures DomainOf(Lower(email)) == Some(Lower(d)) <==> AtDomain(email, d)
  {
    FoldedDomain(email);
    if DomainOf(email).Some? {
      DomainFollowsLastAt(email, DomainOf(email).value);
    }
    if AtDomain(email, d) {
      var i :| 0 <= i < |email| && email[i] == '@' && '@' !in email[i + 1..] && SameText(email[i + 1..], d);
      DomainFollowsLastAt(email, email[i + 1..]);
    }
  }

  /** A filter whose sets are the lower-cased forms of some lists decides `Admits` on them. */
  lemma FilterDecides(f: Filter, be: iset<string>, bd: iset<string>, ae: iset<string>, ad: iset<string>, email: Email)
    requires forall s :: s in f.blockedEmails <==> exists e :: e in be && Lower(e) == s
    requires forall s :: s in f.blockedDomains <==> exists e :: e in bd && Lower(e) == s
    requires forall s :: s in f.allowedEmails <==> exists e :: e in ae && Lower(e) == s
    requires forall s :: s in f.allowedDomains <==> exists e :: e in ad && Lower(e) == s
    requires f.allowlistMode <==> exists s :: s in ae || s in ad
    ensures f.Check(email).Ok? <==> Admits(be, bd, ae, ad, email)
    ensures f.Check(email).Err? ==> f.Check(email).error.BlockedError?
  {
    forall d ensures DomainOf(Lower(email)) == Some(Lower(d)) <==> AtDomain(email, d) {
      DomainLookup(email, d);
    }
    LookupList(f.blockedEmails, f.blockedDomains, be, bd, email);
    LookupList(f.allowedEmails, f.allowedDomains, ae, ad, email);
  }

  lemma LookupList(emails: set<string>, domains: set<string>, es: iset<string>, ds: iset<string>, email: Email)
    requires forall s :: s in emails <==> exists e :: e in es && Lower(e) == s
    requires forall s :: s in domains <==> exists e :: e in ds && Lower(e) == s
    requires forall d :: DomainOf(Lower(email)) == Some(Lower(d)) <==> AtDomain(email, d)
    ensures (Lower(email) in emails ||
             (DomainOf(Lower(email)).Some? && DomainOf(Lower(email)).value in domains))
            <==> Listed(email, es, ds)
  {
    if Lower(email) in emails {
      var e :| e in es && Lower(e) == Lower(email);
      assert SameText(e, email);
    }
    if DomainOf(Lower(email)).Some? && DomainOf(Lower(email)).value in domains {
      var d :| d in ds && Lower(d) == DomainOf(Lower(email)).value;
      assert AtDomain(email, d);
    }
  }

  /** The compiled filter lets an address through exactly when its configuration admits it. */
  lemma CheckDecidesConfig(cfg: FilterConfig, email: Email)
    ensures New(cfg).Check(email).Ok? <==> ConfigAdmits(cfg, email)
  {
    var f := New(cfg);
    assert f.allowlistMode <==> exists s :: s in cfg.allowedEmails || s in cfg.allowedDomains by {
      if s :| s in cfg.allowedEmails || s in cfg.allowedDomains {
        assert Lower(s) in f.allowedEmails || Lower(s) in f.allowedDomains;
      }
    }
    FilterDecides(f, Texts(cfg.blockedEmails), Texts(cfg.blockedDomains),
                  Texts(cfg.allowedEmails), Texts(cfg.allowedDomains), email);
  }

  /** Skipping `check` when no rule is configured changes no decision. */
  lemma PassthroughAdmits(f: Filter, email: Email)
    requires f.IsPassthrough()
    ensures f.Check(email) == Ok(())
  {
  }
}
