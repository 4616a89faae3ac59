/** The database-backed block/allow list and its snapshot cache
    (crates/store/src/block_list_store.rs). */
module BlockList {
  import opened Common
  import opened RecipientFilter
  import opened Runs

  datatype Kind = BlockedEmail | BlockedDomain | AllowedEmail | AllowedDomain

  /** The unique index (kind, lower(value)). */
  datatype EntryKey = EntryKey(kind: Kind, lowered: string)

  datatype Entry = Entry(id: nat, value: string, reason: Option<string>, active: bool)

  type Table = map<EntryKey, Entry>

  /** Every row came in through `add_entry`, which lower-cases the value, and ids are unique. */
  ghost predicate WellFormed(t: Table) {
    && (forall k :: k in t ==> t[k].value == k.lowered && Lower(k.lowered) == k.lowered)
    && (forall j, k :: j in t && k in t && t[j].id == t[k].id ==> j == k)
  }

  /** The active values of one kind. */
  function Values(t: Table, kind: Kind): set<string> {
    set k | k in t && t[k].active && k.kind == kind :: t[k].value
  }

  /** What a load of the table builds; the snapshot has the fields of the static filter. */
  function SnapshotOf(t: Table): Filter {
    Filter(Values(t, BlockedEmail), Values(t, BlockedDomain), Values(t, AllowedEmail), Values(t, AllowedDomain),
           Values(t, AllowedEmail) != {} || Values(t, AllowedDomain) != {})
  }

  ghost function Active(t: Table, kind: Kind): iset<string> {
    iset k | k in t && t[k].active && k.kind == kind :: t[k].value
  }

  /** The decision the active rows call for. */
  ghost predicate TableAdmits(t: Table, email: Email) {
    Admits(Active(t, BlockedEmail), Active(t, BlockedDomain), Active(t, AllowedEmail), Active(t, AllowedDomain), email)
  }

  lemma ValuesAreLowered(t: Table, kind: Kind)
    requires WellFormed(t)
    ensures forall s :: s in Values(t, kind) <==> exists e :: e in Active(t, kind) && Lower(e) == s
    ensures forall s :: s in Values(t, kind) <==> s in Active(t, kind)
  {
    forall s ensures s in Values(t, kind) <==> s in Active(t, kind) {}
    forall s | s in Values(t, kind) ensures exists e :: e in Active(t, kind) && Lower(e) == s {
      assert s in Active(t, kind) && Lower(s) == s;
    }
  }

  lemma SnapshotDecides(t: Table, email: Email)
    requires WellFormed(t)
    ensures SnapshotOf(t).Check(email).Ok? <==> TableAdmits(t, email)
    ensures SnapshotOf(t).Check(email).Err? ==> SnapshotOf(t).Check(email).error.BlockedError?
  {
    ValuesAreLowered(t, BlockedEmail);
    ValuesAreLowered(t, BlockedDomain);
    ValuesAreLowered(t, AllowedEmail);
    ValuesAreLowered(t, AllowedDomain);
    var ae, ad := Active(t, AllowedEmail), Active(t, AllowedDomain);
    assert SnapshotOf(t).allowlistMode <==> exists s :: s in ae || s in ad by {
      if s :| s in ae || s in ad {
        assert s in Values(t, AllowedEmail) || s in Values(t, AllowedDomain);
      }
      if Values(t, AllowedEmail) != {} {
        var s :| s in Values(t, AllowedEmail);
        assert s in ae;
      }
      if Values(t, AllowedDomain) != {} {
        var s :| s in Values(t, AllowedDomain);
        assert s in ad;
      }
    }
    FilterDecides(SnapshotOf(t), Active(t, BlockedEmail), Active(t, BlockedDomain), ae, ad, email);
  }

  /** Moving the active rows into the configuration file would change no decision. */
  lemma SnapshotAgreesWithStaticFilter(t: Table, cfg: FilterConfig, email: Email)
    requires WellFormed(t)
    requires forall s :: s in cfg.blockedEmails <==> s in Values(t, BlockedEmail)
    requires forall s :: s in cfg.blockedDomains <==> s in Values(t, BlockedDomain)
    requires forall s :: s in cfg.allowedEmails <==> s in Values(t, AllowedEmail)
    requires forall s :: s in cfg.allowedDomains <==> s in Values(t, AllowedDomain)
    ensures SnapshotOf(t).Check(email) == New(cfg).Check(email)
  {
    forall kind ensures forall s :: s in Values(t, kind) ==> Lower(s) == s {}
    assert Norm(cfg.blockedEmails) == Values(t, BlockedEmail);
    assert Norm(cfg.blockedDomains) == Values(t, BlockedDomain);
    assert Norm(cfg.allowedEmails) == Values(t, AllowedEmail);
    assert Norm(cfg.allowedDomains) == Values(t, AllowedDomain);
  }

  /** The table with the entry of that id switched off. */
  function Deactivated(t: Table, id: nat): Table {
    map k | k in t :: if t[k].id == id then t[k].(active := false) else t[k]
  }

  /** Ids pick out one row. */
  lemma OnlyOneRow(t: Table, k: EntryKey)
    requires WellFormed(t) && k in t
    ensures t[k := t[k].(active := false)] == Deactivated(t, t[k].id) && WellFormed(Deactivated(t, t[k].id))
  {
    assert forall m :: m in t && t[m].id == t[k].id ==> m == k;
  }

  // ── The store ─────────────────────────────────────────────────────────────

  class BlockListStore {
    var table: Table
    var nextId: nat
    /** The single cache slot; never filled when caching is disabled (TTL zero). */
    var cache: Option<Filter>
    const caching: bool

    ghost predicate Valid()
      reads this
    {
      && WellFormed(table)
      && (forall k :: k in table ==> table[k].id < nextId)
      && (cache.Some? ==> caching && cache.value == SnapshotOf(table))
    }

    constructor (caching: bool)
      ensures Valid() && table == map[] && cache.None?
    {
      table, nextId, cache := map[], 0, None;
      this.caching := caching;
    }

    /** The cached snapshot, or a fresh load of every active row in whatever order the
        database returns them. */
    method Snapshot(up: bool) returns (r: Result<Filter, AppError>)
      requires Valid()
      modifies this
      ensures Valid() && table == old(table) && nextId == old(nextId)
      ensures r.Ok? <==> up || old(cache).Some?
      ensures r.Ok? ==> r.value == SnapshotOf(table)
      ensures r.Err? ==> r.error.DatabaseError?
      ensures cache == if r.Ok? && caching then Some(SnapshotOf(table)) else old(cache)
    {
      if cache.Some? {
        return Ok(cache.value);
      }
      if !up {
        return Err(DatabaseError("block_list"));
      }
      var todo := set k | k in table && table[k].active;
      ghost var loaded: Table := map[];
      var snap := Filter({}, {}, {}, {}, false);
      while todo != {}
        invariant table == old(table) && nextId == old(nextId) && cache == old(cache)
        invariant forall k :: k in todo ==> k in table && table[k].active && k !in loaded
        invariant forall k :: k in loaded ==> k in table && loaded[k] == table[k]
        invariant forall k :: k in table && table[k].active ==> k in todo || k in loaded
        invariant snap == SnapshotOf(loaded)
        decreases todo
      {
        var k :| k in todo;
        todo := todo - {k};
        AddRow(loaded, k, table[k]);
        loaded := loaded[k := table[k]];
        snap := WithRow(snap, k.kind, table[k].value);
      }
      ActiveRowsOnly(table, loaded);
      if caching {
        cache := Some(snap);
      }
      return Ok(snap);
    }

    /** Decides what the active rows call for, whether or not the snapshot was cached. */
    method Check(email: Email, up: bool) returns (r: Result<(), AppError>)
      requires Valid()
      modifies this
      ensures Valid() && table == old(table) && nextId == old(nextId)
      ensures up || old(cache).Some? ==> (r.Ok? <==> TableAdmits(table, email))
      ensures up || old(cache).Some? ==> r == SnapshotOf(table).Check(email)
      ensures !up && old(cache).None? ==> r.Err? && r.error.DatabaseError?
    {
      var snap := Snapshot(up);
      if snap.Err? {
        return Err(snap.error);
      }
      SnapshotDecides(table, email);
      var lc := Lower(email);
      var domain := DomainOf(lc);
      if lc in snap.value.blockedEmails {
        return Err(BlockedError("blocked-email list"));
      }
      if domain.Some? {
        if domain.value in snap.value.blockedDomains {
          return Err(BlockedError("blocked-domain list"));
        }
      }
      if snap.value.allowlistMode {
        var ok := lc in snap.value.allowedEmails || (domain.Some? && domain.value in snap.value.allowedDomains);
        if !ok {
          return Err(BlockedError("allowlist mode active"));
        }
      }
      return Ok(());
    }

    method Invalidate()
      modifies this`cache
      ensures cache.None?
    {
      cache := None;
    }

    method AddEntry(kind: Kind, value: string, reason: Option<string>, up: bool) returns (r: Result<Entry, AppError>)
      requires Valid()
      modifies this
      ensures Valid()
      ensures !up ==> r.Err? && table == old(table) && cache == old(cache)
      ensures up ==> cache.None? && r.Ok? && table == old(table)[EntryKey(kind, Lower(value)) := r.value]
      ensures up ==> r.value == Entry(if EntryKey(kind, Lower(value)) in old(table)
                                      then old(table)[EntryKey(kind, Lower(value))].id else old(nextId),
                                      Lower(value), reason, true)
    {
      if !up {
        return Err(DatabaseError("block_list"));
      }
      var lowered := Lower(value);
      LowerIdempotent(value);
      var k := EntryKey(kind, lowered);
      var entry;
      if k in table {
        entry := table[k].(active := true, reason := reason);
      } else {
        entry := Entry(nextId, lowered, reason, true);
        nextId := nextId + 1;
      }
      table := table[k := entry];
      Invalidate();
      return Ok(entry);
    }

    method RemoveEntry(id: nat, up: bool) returns (r: Result<(), AppError>)
      requires Valid()
      modifies this
      ensures Valid()
      ensures r.Ok? <==> up && exists k :: k in old(table) && old(table)[k].id == id && old(table)[k].active
      ensures r.Err? ==> table == old(table) && cache == old(cache)
      ensures r.Ok? ==> cache.None? && table == Deactivated(old(table), id)
    {
      if !up {
        return Err(DatabaseError("block_list"));
      }
      var hit := set k | k in table && table[k].id == id && table[k].active;
      assert forall k :: k in table && table[k].id == id && table[k].active ==> k in hit;
      if hit == {} {
        return Err(NotFoundError("No active block_list entry"));
      }
      var k :| k in hit;
      OnlyOneRow(table, k);
      table := table[k := table[k].(active := false)];
      Invalidate();
      return Ok(());
    }
  }

  /** One row added to the snapshot being built. */
  function WithRow(f: Filter, kind: Kind, value: string): Filter {
    match kind
    case BlockedEmail => f.(blockedEmails := f.blockedEmails + {value})
    case BlockedDomain => f.(blockedDomains := f.blockedDomains + {value})
    case AllowedEmail => f.(allowedEmails := f.allowedEmails + {value}, allowlistMode := true)
    case AllowedDomain => f.(allowedDomains := f.allowedDomains + {value}, allowlistMode := true)
  }

  lemma AddRowValues(t: Table, k: EntryKey, e: Entry, kind: Kind)
    requires k !in t && e.active
    ensures Values(t[k := e], kind) == if kind == k.kind then Values(t, kind) + {e.value} else Values(t, kind)
  {
    var u := t[k := e];
    forall s | s in Values(t, kind) ensures s in Values(u, kind) {
      var j :| j in t && t[j].active && j.kind == kind && t[j].value == s;
      assert j in u && u[j] == t[j];
    }
    if kind == k.kind {
      assert k in u && u[k].active && u[k].value == e.value;
    }
  }

  lemma AddRow(t: Table, k: EntryKey, e: Entry)
    requires k !in t && e.active
    ensures SnapshotOf(t[k := e]) == WithRow(SnapshotOf(t), k.kind, e.value)
  {
    AddRowValues(t, k, e, BlockedEmail);
    AddRowValues(t, k, e, BlockedDomain);
    AddRowValues(t, k, e, AllowedEmail);
    AddRowValues(t, k, e, AllowedDomain);
    if k.kind == AllowedEmail {
      assert e.value in Values(t[k := e], AllowedEmail);
    }
    if k.kind == AllowedDomain {
      assert e.value in Values(t[k := e], AllowedDomain);
    }
  }

  lemma ActiveRowsOnly(t: Table, u: Table)
    requires forall k :: k in u ==> k in t && u[k] == t[k]
    requires forall k :: k in t && t[k].active ==> k in u
    ensures SnapshotOf(u) == SnapshotOf(t)
  {
    forall kind ensures Values(u, kind) == Values(t, kind) {
      forall s | s in Values(t, kind) ensures s in Values(u, kind) {
        var k :| k in t && t[k].active && k.kind == kind && t[k].value == s;
        assert k in u && u[k] == t[k];
      }
    }
  }

  // ── Concurrent loads ──────────────────────────────────────────────────────

  /** A table state and the time it was committed. */
  datatype Version = Version(since: Time, table: Table)

  datatype Load = Load(readAt: Time, snapshot: Filter)

  datatype Cached = Cached(snapshot: Filter, readAt: Time, insertedAt: Time)

  /** Any number of readers and writers around one cache slot. */
  datatype State = State(now: Time, versions: seq<Version>, cache: Option<Cached>, loads: map<nat, Load>)

  datatype Event =
    | Commit(table: Table)      // an INSERT or UPDATE on block_list
    | Evict                     // the writer's `invalidate`
    | BeginLoad(reader: nat)    // after a cache miss, perhaps long after, the rows are read
    | EndLoad(reader: nat)      // …and later inserts the snapshot
    | Pass(nanos: nat)

  predicate Fresh(s: State, ttl: nat) {
    s.cache.Some? && s.now - s.cache.value.insertedAt < ttl
  }

  /** A load takes at most `span`: it is too late to finish an older one. */
  predicate Enabled(s: State, e: Event, ttl: nat, span: nat) {
    match e
    case Commit(_) => true
    case Evict => true
    case BeginLoad(r) => r !in s.loads && s.versions != []
    case EndLoad(r) => r in s.loads && s.now - s.loads[r].readAt <= span
    case Pass(_) => true
  }

  function Apply(s: State, e: Event): State
    requires e.BeginLoad? ==> s.versions != []
    requires e.EndLoad? ==> e.reader in s.loads
  {
    match e
    case Commit(t) => s.(versions := s.versions + [Version(s.now, t)])
    case Evict => s.(cache := None)
    case BeginLoad(r) =>
      s.(loads := s.loads[r := Load(s.now, SnapshotOf(s.versions[|s.versions| - 1].table))])
    case EndLoad(r) =>
      s.(cache := Some(Cached(s.loads[r].snapshot, s.loads[r].readAt, s.now)), loads := s.loads - {r})
    case Pass(n) => s.(now := s.now + n)
  }

  /** `snap` is the load of a version that was the table at time `at`. */
  ghost predicate WasTable(s: State, snap: Filter, at: Time) {
    exists i :: 0 <= i < |s.versions| && WasCurrent(s, i, at) && snap == SnapshotOf(s.versions[i].table)
  }

  ghost predicate WasCurrent(s: State, i: nat, at: Time)
    requires i < |s.versions|
  {
    s.versions[i].since <= at <= s.now && (i + 1 < |s.versions| ==> at <= s.versions[i + 1].since)
  }

  ghost predicate Inv(s: State, span: nat) {
    && (forall i :: 0 <= i < |s.versions| ==> s.versions[i].since <= s.now)
    && (forall r :: r in s.loads ==> WasTable(s, s.loads[r].snapshot, s.loads[r].readAt))
    && (s.cache.Some? ==>
          && WasTable(s, s.cache.value.snapshot, s.cache.value.readAt)
          && s.cache.value.insertedAt - s.cache.value.readAt <= span)
  }

  lemma TableStays(s: State, e: Event, snap: Filter, at: Time)
    requires WasTable(s, snap, at)
    requires e.BeginLoad? ==> s.versions != []
    requires e.EndLoad? ==> e.reader in s.loads
    ensures WasTable(Apply(s, e), snap, at)
  {
    var i :| 0 <= i < |s.versions| && WasCurrent(s, i, at) && snap == SnapshotOf(s.versions[i].table);
    var s' := Apply(s, e);
    assert s'.versions[i] == s.versions[i];
    assert WasCurrent(s', i, at);
  }

  lemma InvStep(s: State, e: Event, ttl: nat, span: nat)
    requires Inv(s, span) && Enabled(s, e, ttl, span)
    ensures Inv(Apply(s, e), span)
  {
    var s' := Apply(s, e);
    forall r | r in s'.loads && r in s.loads ensures WasTable(s', s'.loads[r].snapshot, s'.loads[r].readAt) {
      TableStays(s, e, s.loads[r].snapshot, s.loads[r].readAt);
    }
    if s.cache.Some? {
      TableStays(s, e, s.cache.value.snapshot, s.cache.value.readAt);
    }
    if e.BeginLoad? {
      var last := |s.versions| - 1;
      assert WasCurrent(s', last, s.now);
      assert WasTable(s', s'.loads[e.reader].snapshot, s.now);
    }
    if e.EndLoad? {
      TableStays(s, e, s.loads[e.reader].snapshot, s.loads[e.reader].readAt);
    }
  }

  /** Readers, writers and the clock as a machine. */
  function Readers(ttl: nat, span: nat): Machine<State, Event> {
    (s: State, e: Event) => if Enabled(s, e, ttl, span) then Some(Apply(s, e)) else None
  }

  /** The same while nobody changes the table. */
  function ReadersOnly(ttl: nat, span: nat): Machine<State, Event> {
    (s: State, e: Event) => if Enabled(s, e, ttl, span) && !e.Commit? then Some(Apply(s, e)) else None
  }

  function Start(t0: Table): State {
    State(0, [Version(0, t0)], None, map[])
  }

  lemma {:induction false} InvRun(s: State, es: seq<Event>, t: State, ttl: nat, span: nat)
    requires Inv(s, span) && IsRun(Readers(ttl, span), s, es, t)
    ensures Inv(t, span)
    decreases |es|
  {
    if es != [] {
      InvStep(s, es[0], ttl, span);
      InvRun(Apply(s, es[0]), es[1..], t, ttl, span);
    }
  }

  /** Whatever readers and writers interleave, a cache hit answers with the decision of
      a table state that was current less than one TTL plus one load ago. */
  lemma CacheHitStaleness(t0: Table, es: seq<Event>, s: State, ttl: nat, span: nat, email: Email)
    requires WellFormed(t0) && (forall e :: e in es && e.Commit? ==> WellFormed(e.table))
    requires IsRun(Readers(ttl, span), Start(t0), es, s)
    requires Fresh(s, ttl)
    ensures exists i, at ::
              && 0 <= i < |s.versions| && WasCurrent(s, i, at) && at > s.now - ttl - span
              && (s.cache.value.snapshot.Check(email).Ok? <==> TableAdmits(s.versions[i].table, email))
  {
    InvRun(Start(t0), es, s, ttl, span);
    VersionsWellFormed(Start(t0), es, s, ttl, span);
    var c := s.cache.value;
    var i :| 0 <= i < |s.versions| && WasCurrent(s, i, c.readAt) && c.snapshot == SnapshotOf(s.versions[i].table);
    SnapshotDecides(s.versions[i].table, email);
    assert c.readAt > s.now - ttl - span;
  }

  lemma {:induction false} VersionsWellFormed(s: State, es: seq<Event>, t: State, ttl: nat, span: nat)
    requires IsRun(Readers(ttl, span), s, es, t)
    requires forall e :: e in es && e.Commit? ==> WellFormed(e.table)
    requires forall v :: v in s.versions ==> WellFormed(v.table)
    ensures forall v :: v in t.versions ==> WellFormed(v.table)
    decreases |es|
  {
    if es != [] {
      assert es[0] in es;
      VersionsWellFormed(Apply(s, es[0]), es[1..], t, ttl, span);
    }
  }

  // ── When hits are current ─────────────────────────────────────────────────

  function Current(s: State): Filter
    requires s.versions != []
  {
    SnapshotOf(s.versions[|s.versions| - 1].table)
  }

  /** A hit would answer from a snapshot that is not the table's. */
  predicate ServesOther(s: State, ttl: nat) {
    s.versions != [] && Fresh(s, ttl) && s.cache.value.snapshot != Current(s)
  }

  /** Some load that may still finish holds one. */
  ghost predicate LoadsOther(s: State, span: nat) {
    && s.versions != []
    && exists r :: r in s.loads && s.now - s.loads[r].readAt <= span && s.loads[r].snapshot != Current(s)
  }

  ghost predicate MayServeOther(s: State, ttl: nat, span: nat) {
    ServesOther(s, ttl) || LoadsOther(s, span)
  }

  lemma CurrentStep(s: State, e: Event, ttl: nat, span: nat)
    requires s.versions != [] && !MayServeOther(s, ttl, span) && Enabled(s, e, ttl, span) && !e.Commit?
    ensures Apply(s, e).versions == s.versions && !MayServeOther(Apply(s, e), ttl, span)
  {
    var t := Apply(s, e);
    forall r | r in t.loads && t.now - t.loads[r].readAt <= span ensures t.loads[r].snapshot == Current(t) {
      assert r in s.loads ==> s.loads[r] == t.loads[r];
    }
  }

  lemma {:induction false} CurrentRun(s: State, es: seq<Event>, t: State, ttl: nat, span: nat)
    requires s.versions != [] && !MayServeOther(s, ttl, span) && IsRun(ReadersOnly(ttl, span), s, es, t)
    ensures t.versions == s.versions && !MayServeOther(t, ttl, span)
    decreases |es|
  {
    if es != [] {
      CurrentStep(s, es[0], ttl, span);
      CurrentRun(Apply(s, es[0]), es[1..], t, ttl, span);
    }
  }

  /** As long as nobody changes the table, some hit can answer from another snapshot if and
      only if the cache serves one now, or a load that may still finish holds one. */
  lemma OutdatedHitIff(s: State, ttl: nat, span: nat)
    requires ttl > 0 && s.versions != []
    ensures (exists t :: Reaches(ReadersOnly(ttl, span), s, t) && ServesOther(t, ttl)) <==> MayServeOther(s, ttl, span)
  {
    if ServesOther(s, ttl) {
      NoStep(ReadersOnly(ttl, span), s);
    } else if LoadsOther(s, span) {
      var r :| r in s.loads && s.now - s.loads[r].readAt <= span && s.loads[r].snapshot != Current(s);
      var t := Step(ReadersOnly(ttl, span), s, EndLoad(r));
    } else {
      forall t | Reaches(ReadersOnly(ttl, span), s, t) ensures !ServesOther(t, ttl) {
        var es :| IsRun(ReadersOnly(ttl, span), s, es, t);
        CurrentRun(s, es, t, ttl, span);
      }
    }
  }

  /** What an eviction achieves: from then on, until the next change, every hit is current if
      and only if no load that read an older table may still finish. */
  lemma EvictionMakesCurrentIff(s: State, ttl: nat, span: nat)
    requires ttl > 0 && s.versions != []
    ensures (forall t :: Reaches(ReadersOnly(ttl, span), Apply(s, Evict), t) ==> !ServesOther(t, ttl))
            <==> !LoadsOther(s, span)
  {
    OutdatedHitIff(Apply(s, Evict), ttl, span);
  }

  lemma BlocksOne(email: Email, blocked: Table)
    requires blocked == map[EntryKey(BlockedEmail, Lower(email)) := Entry(0, Lower(email), None, true)]
    ensures WellFormed(blocked) && SnapshotOf(blocked).Check(email).Err? && !TableAdmits(blocked, email)
    ensures SnapshotOf(map[]).Check(email).Ok?
  {
    var k := EntryKey(BlockedEmail, Lower(email));
    LowerIdempotent(email);
    assert k in blocked && blocked[k].active;
    assert Lower(email) in Values(blocked, BlockedEmail);
    SnapshotDecides(blocked, email);
  }

  /** The other case occurs: a load that read before the commit inserts its snapshot after
      the eviction, and a hit lets through an address that is already blocked. */
  lemma StaleAfterEviction(ttl: nat, span: nat, email: Email)
    requires ttl > 0 && span > 0
    ensures exists s :: Reaches(Readers(ttl, span), Start(map[]), s) && ServesOther(s, ttl)
                        && s.cache.value.snapshot.Check(email).Ok?
                        && !TableAdmits(s.versions[|s.versions| - 1].table, email)
  {
    var blocked: Table := map[EntryKey(BlockedEmail, Lower(email)) := Entry(0, Lower(email), None, true)];
    BlocksOne(email, blocked);
    var s := OldLoadLands(ttl, span, blocked);
  }

  /** A load of the empty table is finished after the change to `t` and its eviction. */
  lemma OldLoadLands(ttl: nat, span: nat, t: Table) returns (s: State)
    requires ttl > 0
    ensures Reaches(Readers(ttl, span), Start(map[]), s) && s.versions != []
    ensures Fresh(s, ttl) && s.cache.value.snapshot == SnapshotOf(map[]) && s.versions[|s.versions| - 1].table == t
  {
    var next, start := Readers(ttl, span), Start(map[]);
    s := Step(next, start, BeginLoad(0));
    s := StepFrom(next, start, s, Commit(t));
    s := StepFrom(next, start, s, Evict);
    s := StepFrom(next, start, s, EndLoad(0));
  }
}
