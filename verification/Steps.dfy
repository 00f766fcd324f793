/** Each write of the services, and then each operation, keeps the state sound. */
module Steps {
  import opened Basics
  import opened Crypto
  import opened Schema
  import opened Allocation
  import opened Sessions
  import opened Routing
  import opened Invariant
  import opened Lifecycle
  import Phone

  // ---- PINs and the new session ---------------------------------------------------------------

  lemma PinsKeepSound(db: Db, after: Db, idle: set<nat>, stale: set<nat>)
    requires Sound(db, idle, stale) && Core(after) && PinsOnly(db, after)
    ensures Sound(after, idle, stale)
  {
    PinsKeepHistory(db, after, idle);
    forall proxy ensures SameOnProxy(db, after, proxy) { PinsSameOnProxy(db, after, proxy); }
    forall proxy | Stale(db, proxy, stale) ensures Stale(after, proxy, stale) {
      var n :| n in stale && E164Of(db, n) == proxy;
      assert E164Of(after, n) == proxy;
    }
    CacheFrame(db, after, stale, stale);
  }

  lemma PinsSameOnProxy(db: Db, after: Db, proxy: string)
    requires PinsOnly(db, after)
    ensures SameOnProxy(db, after, proxy)
  {
    forall sid | sid in db.sessions && sid in db.parties ensures SameSession(db, after, sid) {
      assert SameRowButPin(db.sessions[sid], after.sessions[sid]);
      assert SamePartyButPin(db.parties[sid].a, after.parties[sid].a);
    }
    forall sid ensures Belongs(db, sid, proxy) <==> Belongs(after, sid, proxy) {
      if sid in db.sessions { assert SameRowButPin(db.sessions[sid], after.sessions[sid]); }
    }
  }

  lemma PinsKeepHistory(db: Db, after: Db, idle: set<nat>)
    requires db.sessions.Keys == db.parties.Keys && History(db, idle) && PinsOnly(db, after)
    ensures History(after, idle)
  {
    forall sid | sid in after.sessions ensures Recorded(after.closures, after.sessions[sid], after.parties[sid]) {
      assert SameRowButPin(db.sessions[sid], after.sessions[sid])
          && Recorded(db.closures, db.sessions[sid], db.parties[sid]);
      assert SamePartyButPin(db.parties[sid].a, after.parties[sid].a);
      assert SamePartyButPin(db.parties[sid].b, after.parties[sid].b);
    }
    forall c | c in after.closures && c.number !in idle ensures ReleasedAfter(after.numbers, after.sessions, c) {
      PinsOnlyActive(db, after, c.number);
      assert ReleasedAfter(db.numbers, db.sessions, c);
    }
  }

  lemma PinsOnlyActive(db: Db, after: Db, n: nat)
    requires PinsOnly(db, after)
    ensures ActiveOn(db.sessions, n) == ActiveOn(after.sessions, n)
  {
    forall sid | sid in db.sessions ensures IsActiveOn(db.sessions, sid, n) == IsActiveOn(after.sessions, sid, n) {
      assert SameRowButPin(db.sessions[sid], after.sessions[sid]);
    }
  }

  ghost predicate Fresh(db: Db, row: Session, p: Parties) {
    && row.number in db.numbers && row.status == Active && row.closedAt.None? && row.createdAt == db.now
    && Mirrors(p, row)
    && Placeable(db, row.number, row.extCode, {p.a.hash, p.b.hash})
  }

  lemma InsertKeepsCore(db: Db, row: Session, p: Parties)
    requires Core(db) && Fresh(db, row, p)
    ensures Core(Insert(db, row, p))
  {
    var sid := db.nextSession;
    forall j | j in db.sessions && j != sid ensures Apart(row, p, db.sessions[j], db.parties[j]) {
      FreshApart(db, row, p, j);
    }
    PutKeepsApart(db.sessions, db.parties, sid, row, p);
    RowsGrow(db.sessions, db.parties, db.numbers, sid, db.now);
    PutKeepsRows(db.sessions, db.parties, db.numbers, sid + 1, db.now, sid, row, p);
    hide RowsOk, AllApart, NumbersOk;
  }

  lemma FreshApart(db: Db, row: Session, p: Parties, j: nat)
    requires Core(db) && Fresh(db, row, p) && j in db.sessions
    ensures Apart(row, p, db.sessions[j], db.parties[j])
  {
    CodeIsUsed(db, j);
    assert Share(p, db.parties[j]) ==> Involves(db.parties[j], {p.a.hash, p.b.hash});
    assert IsActiveOn(db.sessions, j, row.number) || db.sessions[j].number != row.number
        || db.sessions[j].status != Active;
  }

  lemma RowsGrow(ss: map<nat, Session>, ps: map<nat, Parties>, numbers: map<nat, Number>, next: nat, now: int)
    requires RowsOk(ss, ps, numbers, next, now)
    ensures RowsOk(ss, ps, numbers, next + 1, now)
  {
  }

  lemma InsertKeepsHistory(db: Db, row: Session, p: Parties)
    requires db.sessions.Keys == db.parties.Keys && db.nextSession !in db.sessions
    requires History(db, {}) && row.closedAt.None?
    ensures History(Insert(db, row, p), {})
  {
    var after := Insert(db, row, p);
    forall sid | sid in after.sessions ensures Recorded(after.closures, after.sessions[sid], after.parties[sid]) {
      assert sid == db.nextSession || Recorded(db.closures, db.sessions[sid], db.parties[sid]);
    }
    forall c | c in after.closures ensures ReleasedAfter(after.numbers, after.sessions, c) {
      assert ReleasedAfter(db.numbers, db.sessions, c);
      assert ActiveOn(db.sessions, c.number) <= ActiveOn(after.sessions, c.number);
    }
  }

  lemma InsertKeepsCache(db: Db, row: Session, p: Parties)
    requires db.nextSession !in db.sessions
    requires CacheOk(db, {})
    ensures CacheOk(Insert(db, row, p), {row.number})
  {
    var after := Insert(db, row, p);
    forall key | key in after.cache && !Stale(after, key.proxy, {row.number})
      ensures !Stale(db, key.proxy, {}) && SameOnProxy(db, after, key.proxy)
    {
      InsertElsewhere(db, row, p, key.proxy);
    }
    CacheFrame(db, after, {}, {row.number});
  }

  lemma InsertElsewhere(db: Db, row: Session, p: Parties, proxy: string)
    requires db.nextSession !in db.sessions
    requires !Stale(Insert(db, row, p), proxy, {row.number})
    ensures SameOnProxy(db, Insert(db, row, p), proxy)
  {
    var after := Insert(db, row, p);
    assert row.number in {row.number};
    assert E164Of(after, row.number) != proxy;
  }

  /** Dropping a number's decisions clears what was pending about them. */
  lemma InvalidateClears(db: Db, n: nat, idle: set<nat>, stale: set<nat>)
    requires Sound(db, idle, stale)
    ensures Sound(Invalidate(db, E164Of(db, n)), idle, stale - {n})
  {
    var proxy := E164Of(db, n);
    var after := Invalidate(db, proxy);
    HistoryFrame(db, after, idle);
    assert Core(after);
    CacheShrinks(db, n, stale);
    hide Core, History, CacheOk, Invalidate;
  }

  lemma CacheShrinks(db: Db, n: nat, stale: set<nat>)
    requires CacheOk(db, stale)
    ensures CacheOk(Invalidate(db, E164Of(db, n)), stale - {n})
  {
    var after := Invalidate(db, E164Of(db, n));
    forall key | key in after.cache && !Stale(after, key.proxy, stale - {n})
      ensures !Stale(db, key.proxy, stale) && SameOnProxy(db, after, key.proxy)
    {
      forall m | m in stale ensures E164Of(db, m) != key.proxy {
        if m != n { assert m in stale - {n}; }
      }
    }
    CacheFrame(db, after, stale, stale - {n});
  }

  /** History does not look at the cache. */
  lemma HistoryFrame(db: Db, after: Db, idle: set<nat>)
    requires db.sessions.Keys == db.parties.Keys && History(db, idle)
    requires after == db.(cache := after.cache)
    ensures History(after, idle)
  {
    forall sid | sid in after.sessions ensures Recorded(after.closures, after.sessions[sid], after.parties[sid]) {
      assert Recorded(db.closures, db.sessions[sid], db.parties[sid]);
    }
    forall c | c in after.closures && c.number !in idle ensures ReleasedAfter(after.numbers, after.sessions, c) {
      assert ReleasedAfter(db.numbers, db.sessions, c);
      assert ActiveOn(after.sessions, c.number) == ActiveOn(db.sessions, c.number);
    }
  }

  // ---- Create -----------------------------------------------------------------------------------

  lemma DrawnKeepsInv(db: Db, drawn: nat)
    requires Inv(db)
    ensures Inv(db.(drawn := drawn))
  {
    DrawnKeepsCore(db, drawn);
    PinsKeepSound(db, db.(drawn := drawn), {}, {});
  }

  /** What a request that passed its checks asks for. */
  lemma CheckedPair(s: Settings, r: Request)
    ensures var checked := CheckRequest(s, r);
            checked.Ok? ==>
              && Phone.IsE164(checked.value.0) && Phone.IsE164(checked.value.1) && checked.value.0 != checked.value.1
              && 0 < EffectiveTtl(s, r.ttl) <= s.maxTtl
              && (r.maxCalls.Some? ==> r.maxCalls.value > 0)
  {
    if CheckRequest(s, r).Ok? {
      Phone.NormalizeIdempotent(r.partyA);
      Phone.NormalizeIdempotent(r.partyB);
    }
  }

  /** What a call of `create_session` does: nothing, or PINs on the way and one new row. */
  lemma CreateShape(c: Config, db: Db, r: Request, locked: set<nat>) returns (pool: Db, row: Session, p: Parties)
    requires ValidSettings(c.settings) && Core(db)
    ensures var (after, result) := CreateSession(c, db, r, locked);
            if result.Ok? then
              && Core(pool) && PinsOnly(db, pool) && Fresh(pool, row, p)
              && Eligible(pool, c.settings, row.number, {p.a.hash, p.b.hash})
              && p.a.hash != p.b.hash
              && after == Invalidate(Insert(pool, row, p), E164Of(pool, row.number))
              && result.value.session == db.nextSession
              && row.number == result.value.allocation.number && row.extCode == result.value.allocation.extCode
            else after == db.(drawn := after.drawn)
    ensures CreateSession(c, db, r, locked).1 != Err(AllocationConflict)
  {
    CheckedPair(c.settings, r);
    var checked := CheckRequest(c.settings, r);
    pool, row, p := db, *, *;
    if checked.Ok? {
      var (a, b) := checked.value;
      AllocateOk(c, db, PairHashes(a, b), r.allowExtCode, locked);
      var (shared, choice) := Allocate(c, db, PairHashes(a, b), r.allowExtCode, locked);
      pool := shared;
      assert pool.now == db.now && pool.nextSession == db.nextSession;
      hide Core, PinsOnly, Eligible, Placeable, Allocate, CheckRequest;
      if choice.Some? {
        var n, code := choice.value.number, choice.value.extCode;
        row, p := NewRow(db.now, n, code, EffectiveTtl(c.settings, r.ttl), r.maxCalls), NewPair(a, b, n, code);
        NewIsFresh(pool, a, b, n, code, EffectiveTtl(c.settings, r.ttl), r.maxCalls);
        hide ExtCodesUnique, PartiesUnique, Insert, Invalidate, Fresh;
      }
    }
  }

  lemma NewIsFresh(pool: Db, a: string, b: string, n: nat, code: Option<string>, ttl: int, maxCalls: Option<int>)
    requires Core(pool) && Placeable(pool, n, code, PairHashes(a, b))
    requires Phone.IsE164(a) && Phone.IsE164(b) && a != b
    ensures var row, p := NewRow(pool.now, n, code, ttl, maxCalls), NewPair(a, b, n, code);
            && {p.a.hash, p.b.hash} == PairHashes(a, b) && p.a.hash != p.b.hash
            && Fresh(pool, row, p)
            && ExtCodesUnique(Insert(pool, row, p)) && PartiesUnique(Insert(pool, row, p))
            && E164Of(Insert(pool, row, p), n) == E164Of(pool, n)
  {
    var row, p := NewRow(pool.now, n, code, ttl, maxCalls), NewPair(a, b, n, code);
    assert {p.a.hash, p.b.hash} == PairHashes(a, b);
    assert Fresh(pool, row, p);
    InsertKeepsCore(pool, row, p);
    IndexesHold(Insert(pool, row, p));
    hide Core, ExtCodesUnique, PartiesUnique, Fresh, Placeable;
  }

  /** Every created session keeps the invariant; neither unique index can refuse it. */
  lemma CreateKeepsInv(c: Config, db: Db, r: Request, locked: set<nat>)
    requires ValidSettings(c.settings) && Inv(db)
    ensures Inv(CreateSession(c, db, r, locked).0)
    ensures CreateSession(c, db, r, locked).1 != Err(AllocationConflict)
  {
    var pool, row, p := CreateShape(c, db, r, locked);
    var (after, result) := CreateSession(c, db, r, locked);
    hide CreateSession;
    if result.Ok? {
      PinsKeepSound(db, pool, {}, {});
      InsertKeepsInv(pool, row, p);
    } else {
      DrawnKeepsInv(db, after.drawn);
    }
  }

  lemma InsertKeepsInv(pool: Db, row: Session, p: Parties)
    requires Inv(pool) && Fresh(pool, row, p)
    ensures var inserted := Insert(pool, row, p);
            ExtCodesUnique(inserted) && PartiesUnique(inserted)
                && Inv(Invalidate(inserted, E164Of(inserted, row.number)))
  {
    InsertKeepsCore(pool, row, p);
    InsertKeepsHistory(pool, row, p);
    InsertKeepsCache(pool, row, p);
    var inserted := Insert(pool, row, p);
    IndexesHold(inserted);
    InvalidateClears(inserted, row.number, {}, {row.number});
    assert {row.number} - {row.number} == {};
  }
}
