/** Quarantine over whole runs, what "free" means, and what a purge may forget. */
module Cooling {
  import opened Basics
  import opened Crypto
  import opened Schema
  import opened Allocation
  import opened Sessions
  import opened Routing
  import opened Invariant
  import opened Lifecycle
  import opened Steps
  import opened Upkeep
  import opened Pool
  import Phone

  // ---- "Free" means allocatable ----------------------------------------------------------

  /** An idle number's release is no earlier than any end of a session on it, so no party is in quarantine. */
  lemma IdleQuarantine(db: Db, n: nat, hashes: set<PartyHash>, edge: int, sid: nat)
    requires Inv(db) && n in db.numbers && ActiveOn(db.sessions, n) == {} && sid in db.parties
    requires db.numbers[n].releasedAt.Some? ==> db.numbers[n].releasedAt.value <= edge
    ensures var p := db.parties[sid];
            && !Quarantines(p.a, n, hashes, edge) && !Quarantines(p.b, n, hashes, edge)
            && !Engages(p.a, n, hashes) && !Engages(p.b, n, hashes)
  {
    var row, p := db.sessions[sid], db.parties[sid];
    assert Mirrors(p, row) && RowOk(row, db.now);
    if row.number == n {
      assert sid !in ActiveOn(db.sessions, n);
      assert Recorded(db.closures, row, p);
      var before: nat :| Closure(n, p.a.hash, row.closedAt.value, before) in db.closures;
      assert ReleasedAfter(db.numbers, db.sessions, Closure(n, p.a.hash, row.closedAt.value, before));
    }
  }

  /** A number counted free passes the exclusive query for every pair, but for the edge instant in number scope. */
  lemma FreeIsAllocatable(db: Db, s: Settings, n: nat, hashes: set<PartyHash>)
    requires Inv(db) && n in db.numbers && CountedFree(db, s, n)
    ensures PassesExclusive(db, s, n, hashes) <==>
              !(s.numberScope && db.numbers[n].releasedAt == Some(CooldownEdge(db, s)))
  {
    forall sid | sid in db.parties
      ensures var p := db.parties[sid]; var edge := CooldownEdge(db, s);
              && !Quarantines(p.a, n, hashes, edge) && !Quarantines(p.b, n, hashes, edge)
              && !Engages(p.a, n, hashes) && !Engages(p.b, n, hashes)
    {
      IdleQuarantine(db, n, hashes, CooldownEdge(db, s), sid);
    }
    hide Inv;
  }

  /** In number scope the idle numbers the exclusive query accepts, for any pair, are the free ones off the edge. */
  lemma AllocatableIsFree(db: Db, s: Settings, n: nat, hashes: set<PartyHash>)
    requires Inv(db) && s.numberScope && n in db.numbers && ActiveOn(db.sessions, n) == {}
    ensures PassesExclusive(db, s, n, hashes) <==>
              CountedFree(db, s, n) && db.numbers[n].releasedAt != Some(CooldownEdge(db, s))
  {
    if CountedFree(db, s, n) { FreeIsAllocatable(db, s, n, hashes); }
    hide Inv;
  }

  // ---- Quarantine as an invariant ----------------------------------------------------------

  function Cooldown(s: Settings): int {
    s.cooldownHours * HOUR
  }

  function Retention(s: Settings): int {
    s.sessionRetentionDays * DAY
  }

  /** Purges delete no session that still matters to a quarantine. */
  predicate RetentionCovers(s: Settings) {
    Cooldown(s) <= 0 || Cooldown(s) <= Retention(s)
  }

  /** A session with this party on this number was created before the closure, or respects its quarantine. */
  predicate Rested(c: Closure, sid: nat, row: Session, p: Parties, cooldown: int) {
    row.number == c.number && HasParty(p, c.party) ==> sid < c.before || c.at + cooldown <= row.createdAt
  }

  ghost predicate AllRested(ss: map<nat, Session>, ps: map<nat, Parties>, closures: set<Closure>, cooldown: int)
    requires ss.Keys == ps.Keys
  {
    forall c, sid {:trigger Rested(c, sid, ss[sid], ps[sid], cooldown)} ::
      c in closures && sid in ss ==> Rested(c, sid, ss[sid], ps[sid], cooldown)
  }

  predicate Evidence(row: Session, p: Parties, c: Closure) {
    row.number == c.number && HasParty(p, c.party) && row.closedAt == Some(c.at) && row.status != Active
  }

  /** A closure too recent to ignore still has its row. */
  ghost predicate Known(ss: map<nat, Session>, ps: map<nat, Parties>, c: Closure, edge: int)
    requires ss.Keys == ps.Keys
  {
    c.at <= edge || exists sid :: sid in ss && Evidence(ss[sid], ps[sid], c)
  }

  ghost predicate AllKnown(ss: map<nat, Session>, ps: map<nat, Parties>, closures: set<Closure>, edge: int)
    requires ss.Keys == ps.Keys
  {
    forall c {:trigger Known(ss, ps, c, edge)} :: c in closures ==> Known(ss, ps, c, edge)
  }

  ghost predicate Resting(ss: map<nat, Session>, ps: map<nat, Parties>, closures: set<Closure>, cooldown: int,
                          edge: int)
  {
    ss.Keys == ps.Keys && AllRested(ss, ps, closures, cooldown) && AllKnown(ss, ps, closures, edge)
  }

  ghost predicate Quarantined(db: Db, s: Settings) {
    Resting(db.sessions, db.parties, db.closures, Cooldown(s), CooldownEdge(db, s))
  }

  /** Rows whose identity, dates of birth and death, and parties' hashes are the same. */
  predicate SameLife(r: Session, p: Parties, r': Session, p': Parties) {
    && r'.number == r.number && r'.createdAt == r.createdAt
    && (r.closedAt.Some? ==> r'.closedAt == r.closedAt && r'.status == r.status)
    && p'.a.hash == p.a.hash && p'.b.hash == p.b.hash
  }

  /** Nothing but PINs, expiries and endings changed. */
  ghost predicate SameLives(ss: map<nat, Session>, ps: map<nat, Parties>, ss': map<nat, Session>,
                            ps': map<nat, Parties>)
  {
    && ss.Keys == ps.Keys == ss'.Keys == ps'.Keys
    && (forall sid {:trigger ss'[sid]} :: sid in ss ==>
          SameLife(ss[sid], ps[sid], ss'[sid], ps'[sid]) && (ss[sid].closedAt.Some? || ss[sid].status == Active))
  }

  lemma SameLivesRest(ss: map<nat, Session>, ps: map<nat, Parties>, ss': map<nat, Session>, ps': map<nat, Parties>,
                      closures: set<Closure>, cooldown: int, edge: int)
    requires Resting(ss, ps, closures, cooldown, edge) && SameLives(ss, ps, ss', ps')
    ensures Resting(ss', ps', closures, cooldown, edge)
  {
    forall c, sid | c in closures && sid in ss' ensures Rested(c, sid, ss'[sid], ps'[sid], cooldown) {
      assert Rested(c, sid, ss[sid], ps[sid], cooldown);
      assert SameLife(ss[sid], ps[sid], ss'[sid], ps'[sid]);
    }
    forall c | c in closures ensures Known(ss', ps', c, edge) {
      assert Known(ss, ps, c, edge);
      if c.at > edge {
        var sid :| sid in ss && Evidence(ss[sid], ps[sid], c);
        assert SameLife(ss[sid], ps[sid], ss'[sid], ps'[sid]);
        assert Evidence(ss'[sid], ps'[sid], c);
      }
    }
  }

  /** An eligible number holds no recent closure of these parties. */
  lemma EligibleRests(db: Db, s: Settings, n: nat, hashes: set<PartyHash>, c: Closure)
    requires Core(db) && Quarantined(db, s) && Eligible(db, s, n, hashes)
    requires c in db.closures && c.number == n && c.party in hashes
    ensures c.at + Cooldown(s) <= db.now
  {
    var edge := CooldownEdge(db, s);
    assert Known(db.sessions, db.parties, c, edge);
    if c.at > edge {
      var sid :| sid in db.sessions && Evidence(db.sessions[sid], db.parties[sid], c);
      EvidenceBlocks(db, s, n, hashes, c, sid);
    }
  }

  lemma EvidenceBlocks(db: Db, s: Settings, n: nat, hashes: set<PartyHash>, c: Closure, sid: nat)
    requires Core(db) && Eligible(db, s, n, hashes) && c.number == n && c.party in hashes
    requires sid in db.sessions && Evidence(db.sessions[sid], db.parties[sid], c)
    ensures c.at <= CooldownEdge(db, s)
  {
    var edge := CooldownEdge(db, s);
    assert Mirrors(db.parties[sid], db.sessions[sid]);
    assert !Quarantines(db.parties[sid].a, n, hashes, edge) && !Quarantines(db.parties[sid].b, n, hashes, edge);
  }

  /** Quarantine looks at the clock, the rows and the history only. */
  lemma QuarantineFrame(db: Db, after: Db, s: Settings)
    requires Quarantined(db, s)
    requires after.now == db.now && after.sessions == db.sessions && after.parties == db.parties
    requires after.closures == db.closures
    ensures Quarantined(after, s)
  {
  }

  lemma InsertKeepsQuarantine(db: Db, s: Settings, row: Session, p: Parties)
    requires Core(db) && Quarantined(db, s)
    requires Eligible(db, s, row.number, {p.a.hash, p.b.hash}) && row.createdAt == db.now
    ensures Quarantined(Insert(db, row, p), s)
  {
    CoreKeys(db);
    forall c | c in db.closures ensures Rested(c, db.nextSession, row, p, Cooldown(s)) {
      if row.number == c.number && HasParty(p, c.party) { EligibleRests(db, s, row.number, {p.a.hash, p.b.hash}, c); }
    }
    hide Core, Eligible, Rested;
    InsertRests(db, s, row, p);
    InsertKnows(db, s, row, p);
  }

  lemma InsertRests(db: Db, s: Settings, row: Session, p: Parties)
    requires Quarantined(db, s) && db.nextSession !in db.sessions
    requires forall c :: c in db.closures ==> Rested(c, db.nextSession, row, p, Cooldown(s))
    ensures var after := Insert(db, row, p);
            after.sessions.Keys == after.parties.Keys
                && AllRested(after.sessions, after.parties, after.closures, Cooldown(s))
  {
    hide Rested, AllKnown;
    var after := Insert(db, row, p);
    forall c, sid | c in after.closures && sid in after.sessions
      ensures Rested(c, sid, after.sessions[sid], after.parties[sid], Cooldown(s))
    {
      if sid != db.nextSession { assert Rested(c, sid, db.sessions[sid], db.parties[sid], Cooldown(s)); }
    }
  }

  lemma InsertKnows(db: Db, s: Settings, row: Session, p: Parties)
    requires Quarantined(db, s) && db.nextSession !in db.sessions
    ensures var after := Insert(db, row, p);
            after.sessions.Keys == after.parties.Keys
                && AllKnown(after.sessions, after.parties, after.closures, CooldownEdge(after, s))
  {
    hide AllRested;
    var after := Insert(db, row, p);
    forall c | c in after.closures ensures Known(after.sessions, after.parties, c, CooldownEdge(after, s)) {
      assert Known(db.sessions, db.parties, c, CooldownEdge(db, s));
      if c.at > CooldownEdge(db, s) {
        var sid :| sid in db.sessions && Evidence(db.sessions[sid], db.parties[sid], c);
        assert Evidence(after.sessions[sid], after.parties[sid], c);
      }
    }
  }

  lemma EndKeepsQuarantine(db: Db, s: Settings, sid: nat, status: Status)
    requires Core(db) && Quarantined(db, s)
    requires sid in db.sessions && db.sessions[sid].status == Active && status != Active
    ensures Quarantined(EndSession(db, sid, status), s)
  {
    LivesKept(db, sid, status);
    CoreIds(db);
    EndEvidence(db, sid, status);
    EndIs(db, sid, status);
    hide *;
    EndRests(db.sessions, db.parties, db.closures, Cooldown(s), CooldownEdge(db, s), sid,
             EndedRow(db, sid, status), EndedPair(db, sid, status), db.now, db.nextSession);
    assert Quarantined(EndSession(db, sid, status), s) by { EndQuarantine(db, s, sid, status); }
  }

  lemma EndQuarantine(db: Db, s: Settings, sid: nat, status: Status)
    requires sid in db.sessions && sid in db.parties && db.sessions[sid].status == Active && status != Active
    requires var row, p := EndedRow(db, sid, status), EndedPair(db, sid, status);
             Resting(db.sessions[sid := row], db.parties[sid := p],
                     db.closures + {Closure(row.number, p.a.hash, db.now, db.nextSession),
                         Closure(row.number, p.b.hash, db.now, db.nextSession)},
                     Cooldown(s), CooldownEdge(db, s))
    ensures Quarantined(EndSession(db, sid, status), s)
  {
    EndIs(db, sid, status);
    hide EndSession, EndedRow, EndedPair, Resting;
  }

  /** A session ends: its rows keep their lives, and two closures join the history. */
  lemma EndRests(ss: map<nat, Session>, ps: map<nat, Parties>, closures: set<Closure>, cooldown: int, edge: int,
                 sid: nat, row: Session, p: Parties, now: int, before: nat)
    requires Resting(ss, ps, closures, cooldown, edge) && sid in ss && SameLives(ss, ps, ss[sid := row], ps[sid := p])
    requires forall i :: i in ss ==> i < before
    requires Evidence(row, p, Closure(row.number, p.a.hash, now, before))
               && Evidence(row, p, Closure(row.number, p.b.hash, now, before))
    ensures Resting(ss[sid := row], ps[sid := p],
                    closures + {Closure(row.number, p.a.hash, now, before),
                        Closure(row.number, p.b.hash, now, before)}, cooldown, edge)
  {
    hide Resting, SameLives, Evidence;
    var first, second := Closure(row.number, p.a.hash, now, before), Closure(row.number, p.b.hash, now, before);
    SameLivesRest(ss, ps, ss[sid := row], ps[sid := p], closures, cooldown, edge);
    AddClosure(ss[sid := row], ps[sid := p], closures, cooldown, edge, sid, first);
    AddClosure(ss[sid := row], ps[sid := p], closures + {first}, cooldown, edge, sid, second);
    assert closures + {first} + {second} == closures + {first, second};
  }

  lemma EndEvidence(db: Db, sid: nat, status: Status)
    requires sid in db.sessions && sid in db.parties && status != Active
    ensures var row, p := EndedRow(db, sid, status), EndedPair(db, sid, status);
            && Evidence(row, p, Closure(row.number, p.a.hash, db.now, db.nextSession))
            && Evidence(row, p, Closure(row.number, p.b.hash, db.now, db.nextSession))
  {
  }

  lemma CoreIds(db: Db)
    requires Core(db)
    ensures forall i :: i in db.sessions ==> i < db.nextSession
  {
  }

  lemma LivesKept(db: Db, sid: nat, status: Status)
    requires Core(db) && sid in db.sessions && db.sessions[sid].status == Active
    ensures sid in db.parties
    ensures SameLives(db.sessions, db.parties, db.sessions[sid := EndedRow(db, sid, status)],
              db.parties[sid := EndedPair(db, sid, status)])
  {
    CoreKeys(db);
    hide Core, EndedRow, EndedPair, SameLife;
    forall i | i in db.sessions
      ensures (db.sessions[i].closedAt.Some? || db.sessions[i].status == Active)
              && SameLife(db.sessions[i], db.parties[i], db.sessions[sid := EndedRow(db, sid, status)][i],
                          db.parties[sid := EndedPair(db, sid, status)][i])
    {
      LifeKept(db, sid, status, i);
    }
  }

  lemma LifeKept(db: Db, sid: nat, status: Status, i: nat)
    requires Core(db) && sid in db.sessions && i in db.sessions && db.sessions[sid].status == Active
    ensures sid in db.parties && i in db.parties && i < db.nextSession
    ensures db.sessions[i].closedAt.Some? || db.sessions[i].status == Active
    ensures SameLife(db.sessions[i], db.parties[i], db.sessions[sid := EndedRow(db, sid, status)][i],
                     db.parties[sid := EndedPair(db, sid, status)][i])
  {
    CoreRow(db, i);
    CoreRow(db, sid);
    hide Core;
  }

  lemma AddClosure(ss: map<nat, Session>, ps: map<nat, Parties>, closures: set<Closure>, cooldown: int, edge: int,
                   sid: nat, c: Closure)
    requires Resting(ss, ps, closures, cooldown, edge)
    requires sid in ss && sid in ps && Evidence(ss[sid], ps[sid], c)
    requires forall i :: i in ss ==> i < c.before
    ensures Resting(ss, ps, closures + {c}, cooldown, edge)
  {
    forall d, i | d in closures + {c} && i in ss ensures Rested(d, i, ss[i], ps[i], cooldown) {
      if d != c { assert Rested(d, i, ss[i], ps[i], cooldown); }
    }
    forall d | d in closures + {c} ensures Known(ss, ps, d, edge) {
      if d != c { assert Known(ss, ps, d, edge); }
    }
  }

  lemma PurgeKeepsQuarantine(db: Db, s: Settings)
    requires Core(db) && Quarantined(db, s) && RetentionCovers(s)
    requires forall c :: c in db.closures ==> c.at <= db.now
    ensures Quarantined(Purge(s, db), s)
  {
    hide Core, KeysOf, Rested, Known;
    var after := Purge(s, db);
    forall c, sid | c in after.closures && sid in after.sessions
      ensures Rested(c, sid, after.sessions[sid], after.parties[sid], Cooldown(s))
    {
      assert Rested(c, sid, db.sessions[sid], db.parties[sid], Cooldown(s));
    }
    forall c | c in after.closures ensures Known(after.sessions, after.parties, c, CooldownEdge(after, s)) {
      assert Known(db.sessions, db.parties, c, CooldownEdge(db, s));
      StaysKnown(db, s, c);
    }
  }

  /** The row behind a closure still inside the cooldown is too young to be purged. */
  lemma StaysKnown(db: Db, s: Settings, c: Closure)
    requires db.sessions.Keys == db.parties.Keys && RetentionCovers(s) && c.at <= db.now
    requires Known(db.sessions, db.parties, c, CooldownEdge(db, s))
    ensures Purge(s, db).sessions.Keys == Purge(s, db).parties.Keys
    ensures Known(Purge(s, db).sessions, Purge(s, db).parties, c, CooldownEdge(db, s))
  {
    hide KeysOf;
    var after := Purge(s, db);
    if c.at > CooldownEdge(db, s) {
      var sid :| sid in db.sessions && Evidence(db.sessions[sid], db.parties[sid], c);
      assert !Purgeable(db.sessions[sid], db.now - Retention(s));
      assert sid in after.sessions && Evidence(after.sessions[sid], after.parties[sid], c);
    }
  }

  lemma TickKeepsQuarantine(db: Db, s: Settings, elapsed: nat)
    requires Quarantined(db, s)
    ensures Quarantined(Tick(db, elapsed), s)
  {
    var after := Tick(db, elapsed);
    forall c | c in after.closures ensures Known(after.sessions, after.parties, c, CooldownEdge(after, s)) {
      assert Known(db.sessions, db.parties, c, CooldownEdge(db, s));
      if c.at > CooldownEdge(after, s) {
        var sid :| sid in db.sessions && Evidence(db.sessions[sid], db.parties[sid], c);
        assert Evidence(after.sessions[sid], after.parties[sid], c);
      }
    }
  }

  // ---- Operations -----------------------------------------------------------------------------

  lemma CreateKeepsQuarantine(c: Config, db: Db, r: Request, locked: set<nat>)
    requires ValidSettings(c.settings) && Core(db) && Quarantined(db, c.settings)
    ensures Quarantined(CreateSession(c, db, r, locked).0, c.settings)
  {
    var pool, row, p := CreateShape(c, db, r, locked);
    var (after, result) := CreateSession(c, db, r, locked);
    hide CreateSession;
    if result.Ok? {
      PinsKeepQuarantine(db, pool, c.settings);
      assert db.nextSession !in pool.sessions;
      InsertKeepsQuarantine(pool, c.settings, row, p);
      hide Core, Quarantined;
      QuarantineFrame(Insert(pool, row, p), after, c.settings);
    } else {
      QuarantineFrame(db, after, c.settings);
    }
  }

  lemma PinsKeepQuarantine(db: Db, after: Db, s: Settings)
    requires Core(db) && PinsOnly(db, after) && Quarantined(db, s)
    ensures Quarantined(after, s)
  {
    CoreKeys(db);
    hide Core, Resting, SameLife, SameRowButPin, SamePartyButPin;
    forall sid | sid in db.sessions
      ensures SameLife(db.sessions[sid], db.parties[sid], after.sessions[sid], after.parties[sid])
      ensures db.sessions[sid].closedAt.Some? || db.sessions[sid].status == Active
    {
      PinsKeepLife(db, after, sid);
    }
    LivesKeepQuarantine(db, after, s);
  }

  lemma PinsKeepLife(db: Db, after: Db, sid: nat)
    requires Core(db) && PinsOnly(db, after) && sid in db.sessions
    ensures sid in db.parties && sid in after.sessions && sid in after.parties
    ensures SameLife(db.sessions[sid], db.parties[sid], after.sessions[sid], after.parties[sid])
    ensures db.sessions[sid].closedAt.Some? || db.sessions[sid].status == Active
  {
    CoreRow(db, sid);
    hide Core;
    assert SameRowButPin(db.sessions[sid], after.sessions[sid]);
    assert SamePartyButPin(db.parties[sid].a, after.parties[sid].a);
    assert SamePartyButPin(db.parties[sid].b, after.parties[sid].b);
  }

  lemma ExtendKeepsQuarantine(s: Settings, db: Db, sid: nat, ttl: Option<int>, expiresAt: Option<int>)
    requires Core(db) && Quarantined(db, s)
    ensures Quarantined(ExtendSession(s, db, sid, ttl, expiresAt).0, s)
  {
    CoreKeys(db);
    ExtendShape(s, db, sid, ttl, expiresAt);
    hide *;
    ExtendedLives(db, ExtendSession(s, db, sid, ttl, expiresAt).0);
    LivesKeepQuarantine(db, ExtendSession(s, db, sid, ttl, expiresAt).0, s);
  }

  lemma LivesKeepQuarantine(db: Db, after: Db, s: Settings)
    requires Quarantined(db, s) && SameLives(db.sessions, db.parties, after.sessions, after.parties)
    requires after.now == db.now && after.closures == db.closures
    ensures Quarantined(after, s)
  {
    hide SameLives, Resting;
    SameLivesRest(db.sessions, db.parties, after.sessions, after.parties, db.closures, Cooldown(s),
        CooldownEdge(db, s));
  }

  lemma ExtendedLives(db: Db, after: Db)
    requires Core(db) && after.parties == db.parties && after.sessions.Keys == db.sessions.Keys
    requires forall i :: i in db.sessions ==>
               after.sessions[i] == db.sessions[i].(expiresAt := after.sessions[i].expiresAt)
    ensures SameLives(db.sessions, db.parties, after.sessions, after.parties)
  {
    CoreKeys(db);
    forall i | i in db.sessions ensures db.sessions[i].closedAt.Some? || db.sessions[i].status == Active {
      CoreRow(db, i);
    }
    hide Core;
  }

  lemma ExtendShape(s: Settings, db: Db, sid: nat, ttl: Option<int>, expiresAt: Option<int>)
    requires db.sessions.Keys == db.parties.Keys
    ensures var after := ExtendSession(s, db, sid, ttl, expiresAt).0;
            && after.parties == db.parties && after.closures == db.closures && after.now == db.now
            && after.sessions.Keys == db.sessions.Keys
            && (forall i :: i in db.sessions ==>
                  after.sessions[i] == db.sessions[i].(expiresAt := after.sessions[i].expiresAt))
  {
  }

  lemma {:induction false} EndAllKeepsQuarantine(db: Db, s: Settings, rows: seq<nat>, idle: set<nat>, stale: set<nat>)
    requires db.sessions.Keys == db.parties.Keys
    requires Sound(db, idle, stale) && Quarantined(db, s) && Sweepable(db, rows)
    ensures Quarantined(EndAll(db, rows), s)
    decreases |rows|
  {
    if rows != [] {
      var n := db.sessions[rows[0]].number;
      EndKeepsQuarantine(db, s, rows[0], Expired);
      EndKeepsSound(db, rows[0], Expired, idle, stale);
      RestSweepable(db, rows);
      hide Sound, EndSession, Quarantined;
      EndAllKeepsQuarantine(EndSession(db, rows[0], Expired), s, rows[1..], idle + {n}, stale + {n});
    }
  }

  lemma {:induction false} ReleaseAllKeepsTables(db: Db, rows: seq<nat>)
    requires forall i :: 0 <= i < |rows| ==> rows[i] in db.sessions
    ensures var after := ReleaseAll(db, rows);
            && after.sessions == db.sessions && after.parties == db.parties && after.closures == db.closures
            && after.now == db.now && after.drawn == db.drawn
    decreases |rows|
  {
    if rows != [] { ReleaseAllKeepsTables(Release(db, db.sessions[rows[0]].number), rows[1..]); }
  }

  lemma SweepKeepsQuarantine(c: Config, db: Db, limit: nat)
    requires Inv(db) && Quarantined(db, c.settings)
    ensures Quarantined(Sweep(c, db, limit).0, c.settings)
  {
    assert db.sessions.Keys == db.parties.Keys;
    var rows := DueRows(c, db, limit);
    DueSweepable(c, db, limit);
    hide Sound, DueRows, Sweepable, Quarantined;
    EndAllKeepsKeys(db, rows);
    EndAllKeepsQuarantine(db, c.settings, rows, {}, {});
    ReleaseAllKeepsTables(EndAll(db, rows), rows);
    hide EndAll, ReleaseAll;
    QuarantineFrame(EndAll(db, rows), ReleaseAll(EndAll(db, rows), rows), c.settings);
  }

  lemma ApplyKeepsQuarantine(c: Config, db: Db, op: Op)
    requires ValidSettings(c.settings) && Inv(db) && Quarantined(db, c.settings)
    requires RetentionCovers(c.settings) || !op.OpPurge?
    ensures Quarantined(Apply(c, db, op), c.settings)
  {
    match op
    case OpCreate(request, locked) => CreateKeepsQuarantine(c, db, request, locked);
    case OpExtend(sid, ttl, expiresAt) => ExtendKeepsQuarantine(c.settings, db, sid, ttl, expiresAt);
    case OpClose(sid, expired) => CloseKeepsQuarantine(c.settings, db, sid, if expired then Expired else Closed);
    case OpSweep(limit) => SweepKeepsQuarantine(c, db, limit);
    case OpPurge => PurgeKeepsQuarantine(db, c.settings);
    case OpTick(elapsed) => TickKeepsQuarantine(db, c.settings, elapsed);
    case _ =>
      PoolOpsFrame(c, db, op);
      hide Inv, Quarantined, Apply;
      QuarantineFrame(db, Apply(c, db, op), c.settings);
  }

  predicate SameRows(db: Db, after: Db) {
    after.now == db.now && after.sessions == db.sessions && after.parties == db.parties && after.closures == db.closures
  }

  lemma PoolOpsFrame(c: Config, db: Db, op: Op)
    requires ValidSettings(c.settings) && Inv(db)
    requires op.OpAddNumber? || op.OpSetStatus? || op.OpResolve?
    ensures SameRows(db, Apply(c, db, op))
  {
    hide Inv, SameRows;
    match op
    case OpAddNumber(e164, enabled) => AddFrame(db, e164, enabled);
    case OpSetStatus(e164, enabled) => StatusFrame(db, e164, enabled);
    case OpResolve(dialled, caller) => ResolveFrame(c, db, dialled, caller);
  }

  lemma AddFrame(db: Db, e164: string, enabled: bool)
    ensures SameRows(db, AddNumber(db, e164, enabled).0)
  {
    hide Phone.Normalize;
  }

  lemma StatusFrame(db: Db, e164: string, enabled: bool)
    ensures SameRows(db, SetNumberStatus(db, e164, enabled).0)
  {
    hide Phone.Normalize;
  }

  lemma ResolveFrame(c: Config, db: Db, dialled: string, caller: string)
    ensures SameRows(db, Resolve(c, db, dialled, caller).0)
  {
    ResolveWrites(c, db, dialled, caller);
    hide Resolve;
  }

  lemma CloseKeepsQuarantine(s: Settings, db: Db, sid: nat, status: Status)
    requires Core(db) && Quarantined(db, s) && status != Active
    ensures Quarantined(CloseSession(db, sid, status).0, s)
  {
    if sid in db.sessions && db.sessions[sid].status == Active {
      CoreKeys(db);
      hide Core, Quarantined, EndSession, Release;
      EndKeepsQuarantine(db, s, sid, status);
      ReleaseKeepsQuarantine(EndSession(db, sid, status), db.sessions[sid].number, s);
    }
  }

  lemma ReleaseKeepsQuarantine(db: Db, n: nat, s: Settings)
    requires Quarantined(db, s)
    ensures Quarantined(Release(db, n), s)
  {
    hide Quarantined;
    QuarantineFrame(db, Release(db, n), s);
  }

  lemma {:induction false} RunKeepsQuarantine(c: Config, start: int, ops: seq<Op>)
    requires ValidSettings(c.settings) && (RetentionCovers(c.settings) || OpPurge !in ops)
    ensures Quarantined(Run(c, start, ops), c.settings)
  {
    hide Inv, Quarantined, Apply, RetentionCovers;
    if ops == [] {
      EmptyQuarantine(start, c.settings);
    } else {
      var k := |ops| - 1;
      RunInv(c, start, ops[..k]);
      RunKeepsQuarantine(c, start, ops[..k]);
      ApplyKeepsQuarantine(c, Run(c, start, ops[..k]), ops[k]);
    }
  }

  lemma EmptyQuarantine(start: int, s: Settings)
    ensures Quarantined(EmptyDb(start), s)
  {
  }

  /**
    Cooldown over runs, in every mode and both scopes: a session created on a number after one of its
    parties had a session ended there starts no sooner than the cooldown after that end. The closures
    are the complete history, purged sessions included. Retention must cover the cooldown, or nothing
    be purged.
   */
  lemma CooldownRespected(c: Config, start: int, ops: seq<Op>, closure: Closure, sid: nat)
    requires ValidSettings(c.settings) && (RetentionCovers(c.settings) || OpPurge !in ops)
    requires var db := Run(c, start, ops);
             && closure in db.closures && sid in db.sessions && sid in db.parties
             && db.sessions[sid].number == closure.number && HasParty(db.parties[sid], closure.party)
             && sid >= closure.before
    ensures closure.at + c.settings.cooldownHours * HOUR <= Run(c, start, ops).sessions[sid].createdAt
  {
    RunKeepsQuarantine(c, start, ops);
    var db := Run(c, start, ops);
    hide Inv, Run, AllKnown;
    assert Rested(closure, sid, db.sessions[sid], db.parties[sid], Cooldown(c.settings));
  }

  // ---- Purging ---------------------------------------------------------------------------------

  lemma PurgedRowsRest(s: Settings, db: Db, elapsed: nat, n: nat, hashes: set<PartyHash>, sid: nat)
    requires Core(db) && RetentionCovers(s)
    requires sid in db.parties && sid !in Purge(s, db).parties
    ensures Uninvolved(db.parties[sid], n, hashes, CooldownEdge(Tick(db, elapsed), s))
  {
    assert Mirrors(db.parties[sid], db.sessions[sid]) && RowOk(db.sessions[sid], db.now);
    assert sid in Doomed(db, db.now - Retention(s));
  }

  /** With retention no shorter than the cooldown a purge changes no number's eligibility, now or later. */
  lemma PurgeTransparent(s: Settings, db: Db, elapsed: nat, n: nat, hashes: set<PartyHash>)
    requires Core(db) && RetentionCovers(s)
    ensures var kept, purged := Tick(db, elapsed), Tick(Purge(s, db), elapsed);
            && Eligible(kept, s, n, hashes) == Eligible(purged, s, n, hashes)
            && PassesExclusive(kept, s, n, hashes) == PassesExclusive(purged, s, n, hashes)
  {
    var purged := Purge(s, db);
    forall sid | sid in db.parties && sid !in purged.parties
      ensures Uninvolved(db.parties[sid], n, hashes, CooldownEdge(Tick(db, elapsed), s))
    {
      PurgedRowsRest(s, db, elapsed, n, hashes, sid);
    }
    hide Core, RetentionCovers;
    DropUninvolved(Tick(db, elapsed), Tick(purged, elapsed), s, n, hashes);
  }

  predicate Uninvolved(p: Parties, n: nat, hashes: set<PartyHash>, edge: int) {
    && !Quarantines(p.a, n, hashes, edge) && !Quarantines(p.b, n, hashes, edge)
    && !Engages(p.a, n, hashes) && !Engages(p.b, n, hashes)
  }

  lemma DropUninvolved(x: Db, y: Db, s: Settings, n: nat, hashes: set<PartyHash>)
    requires y.now == x.now && y.numbers == x.numbers
    requires forall sid :: sid in y.parties ==> sid in x.parties && y.parties[sid] == x.parties[sid]
    requires forall sid :: sid in x.parties && sid !in y.parties ==>
               Uninvolved(x.parties[sid], n, hashes, CooldownEdge(x, s))
    ensures Eligible(x, s, n, hashes) == Eligible(y, s, n, hashes)
    ensures PassesExclusive(x, s, n, hashes) == PassesExclusive(y, s, n, hashes)
  {
  }

  /** A purge changes no connection and no PIN choice, now or later; a reject stays a reject. */
  lemma PurgeKeepsVerdicts(c: Config, db: Db, elapsed: nat, proxy: string, caller: PartyHash)
    ensures var kept := Verdict(c, Tick(db, elapsed), proxy, caller);
            var purged := Verdict(c, Tick(Purge(c.settings, db), elapsed), proxy, caller);
            (kept.Reject? && purged.Reject?) || kept == purged
  {
    var x, y := Tick(db, elapsed), Tick(Purge(c.settings, db), elapsed);
    PurgedLive(c.settings, db, elapsed, proxy, caller);
    SameCandidates(c, x, y, proxy, caller);
    hide LoadCandidates;
  }

  lemma PurgedLive(s: Settings, db: Db, elapsed: nat, proxy: string, caller: PartyHash)
    ensures var x, y := Tick(db, elapsed), Tick(Purge(s, db), elapsed);
            && Live(x, proxy, caller) == Live(y, proxy, caller)
            && (forall sid :: sid in Live(x, proxy, caller) ==>
                  sid in y.sessions && sid in y.parties
                  && x.sessions[sid] == y.sessions[sid] && x.parties[sid] == y.parties[sid])
  {
    var x, y := Tick(db, elapsed), Tick(Purge(s, db), elapsed);
    forall sid ensures IsLive(x, sid, proxy, caller) <==> IsLive(y, sid, proxy, caller) {}
    LiveIsLive(x, proxy, caller);
    LiveIsLive(y, proxy, caller);
  }

  lemma SameCandidates(c: Config, x: Db, y: Db, proxy: string, caller: PartyHash)
    requires Live(x, proxy, caller) == Live(y, proxy, caller)
    requires forall sid :: sid in Live(x, proxy, caller) ==>
               && sid in y.sessions && sid in y.parties
               && x.sessions[sid] == y.sessions[sid] && x.parties[sid] == y.parties[sid]
    ensures LoadCandidates(c, x, proxy, caller) == LoadCandidates(c, y, proxy, caller)
  {
    SameRowsListed(c, x, y, proxy, caller);
    hide Live, LiveRows;
    var rows := LiveRows(c, x, proxy, caller);
    forall i | 0 <= i < |rows|
      ensures rows[i] in y.sessions && rows[i] in y.parties
                && CandidateOf(x, rows[i], caller) == CandidateOf(y, rows[i], caller)
    {
      assert rows[i] in Live(x, proxy, caller);
    }
  }

  lemma SameRowsListed(c: Config, x: Db, y: Db, proxy: string, caller: PartyHash)
    requires Live(x, proxy, caller) == Live(y, proxy, caller)
    requires forall sid :: sid in Live(x, proxy, caller) ==> sid in y.sessions && x.sessions[sid] == y.sessions[sid]
    ensures LiveRows(c, x, proxy, caller) == LiveRows(c, y, proxy, caller)
  {
    assert LiveKeys(x, proxy, caller) == LiveKeys(y, proxy, caller);
  }
}
