/** The foreign key from journal rows to sessions, over every step of the call machine and of the pool. */
module Links {
  import opened Basics
  import opened Crypto
  import opened Schema
  import opened Allocation
  import opened Sessions
  import opened Routing
  import opened Invariant
  import opened Lifecycle
  import opened Steps
  import opened Pool
  import opened Reach
  import opened Outcomes
  import opened Journal
  import opened Causes
  import opened Stasis
  import opened Calls
  import opened Evolution
  import opened Precedence
  import Cooling
  import Phone

  /** The call's row refers as it should; it is deleted only when the call is over, and then refers to nothing. */
  predicate Linked(s: System, n: nat) {
    && n in s.states && s.states[n].call in s.journal
    && LinkOf(s.pool, s.states[n], s.journal[s.states[n].call])
    && (s.states[n].call in s.dropped ==>
          Parted(s.states[n]) && s.journal[s.states[n].call].session.None?)
  }

  ghost predicate LinksOk(s: System) {
    (forall n {:trigger Linked(s, n)} :: n in s.states ==> Linked(s, n)) && s.dropped <= s.journal.Keys
  }

  lemma IdsAreOk(db: Db)
    requires Inv(db)
    ensures IdsOk(db)
  {
  }

  lemma EvolutionKeepsLinks(s: System, t: System, n: nat)
    requires Inv(s.pool) && AllOk(s) && LinksOk(s) && Affects(s, t, n)
    ensures LinksOk(t)
  {
    IdsAreOk(s.pool);
    hide Inv, LinkOf, IdsOk, ClosingKept, Evolves;
    forall m | m in t.states ensures Linked(t, m) {
      assert Linked(s, m);
      if n in s.states && m in s.states {
        CallFacts(s, m);
        CallFacts(s, n);
      }
    }
    hide AllOk;
  }

  lemma LinkAt(s: System, n: nat)
    requires LinksOk(s)
    ensures n in s.states && s.states[n].call in s.journal ==> LinkOf(s.pool, s.states[n], s.journal[s.states[n].call])
  {
    if n in s.states { assert Linked(s, n); }
  }

  // ---- The pool ------------------------------------------------------------------------------

  /** Only a purge deletes sessions, and exactly the closed ones past retention. */
  lemma OnlyPurgesDelete(c: Config, db: Db, op: Op)
    requires ValidSettings(c.settings) && Inv(db)
    ensures var after := Apply(c, db, op);
            if op.OpPurge? then after.sessions.Keys == db.sessions.Keys - Purged(c.settings, db)
            else db.sessions.Keys <= after.sessions.Keys
  {
    hide Inv, CreateSession, Sweep, Doomed, AddNumber, SetNumberStatus, Resolve, ExtendSession, CloseSession;
    match op
    case OpCreate(request, locked) => CreationKeeps(c, db, request, locked);
    case OpSweep(limit) => SweepKeeps(c, db, limit);
    case OpExtend(sid, ttl, expiresAt) => ExtensionKeeps(c.settings, db, sid, ttl, expiresAt);
    case OpClose(sid, expired) => ClosureKeeps(db, sid, if expired then Expired else Closed);
    case OpPurge =>
    case OpTick(_) =>
    case _ => Cooling.PoolOpsFrame(c, db, op);
  }

  lemma ExtensionKeeps(s: Settings, db: Db, sid: nat, ttl: Option<int>, expiresAt: Option<int>)
    ensures ExtendSession(s, db, sid, ttl, expiresAt).0.sessions.Keys == db.sessions.Keys
  {
    hide NewExpiry;
  }

  lemma ClosureKeeps(db: Db, sid: nat, status: Status)
    requires status != Active
    ensures CloseSession(db, sid, status).0.sessions.Keys == db.sessions.Keys
  {
    hide SyncParties;
  }

  lemma CreationKeeps(c: Config, db: Db, r: Request, locked: set<nat>)
    requires ValidSettings(c.settings) && Inv(db)
    ensures db.sessions.Keys <= CreateSession(c, db, r, locked).0.sessions.Keys
  {
    CreatedAsAsked(c, db, r, locked);
    hide Inv, CreateSession, AsAsked;
  }

  lemma SweepKeeps(c: Config, db: Db, limit: nat)
    ensures Sweep(c, db, limit).0.sessions.Keys == db.sessions.Keys
  {
    var rows := DueRows(c, db, limit);
    EndAllKeepsKeys(db, rows);
    Cooling.ReleaseAllKeepsTables(EndAll(db, rows), rows);
    hide EndAll, ReleaseAll, DueRows;
  }

  /** A deletion clears the references to it; a new session is nobody's. */
  lemma LinkMoves(db: Db, after: Db, st: CallState, row: Call, gone: set<nat>, overdue: bool)
    requires Precedes(db, after) && LinkOf(db, st, row) && (overdue ==> Parted(st))
    requires db.sessions.Keys - gone <= after.sessions.Keys && gone !! after.sessions.Keys
    ensures LinkOf(after, st, Trimmed(row, gone, overdue))
  {
  }

  lemma PoolKeepsLinks(c: Setup, s: System, op: Op)
    requires ValidSettings(c.pool.settings) && Inv(s.pool) && AllOk(s) && LinksOk(s)
    ensures LinksOk(StepPool(c, s, op))
  {
    OnlyPurgesDelete(c.pool, s.pool, op);
    ApplyPrecedes(c.pool, s.pool, op);
    hide Inv, Apply, Purged, Precedes, LinkOf, AllOk;
    var t := StepPool(c, s, op);
    if op.OpPurge? {
      PurgeKeepsLinks(c, s, t, Purged(c.pool.settings, s.pool), Overdue(c, s));
    } else {
      forall m | m in t.states ensures Linked(t, m) {
        assert Linked(s, m);
        LinkMoves(s.pool, t.pool, s.states[m], s.journal[s.states[m].call], {}, false);
      }
    }
  }

  lemma PurgeKeepsLinks(c: Setup, s: System, t: System, gone: set<nat>, overdue: set<nat>)
    requires AllOk(s) && LinksOk(s) && Precedes(s.pool, t.pool) && overdue == Overdue(c, s)
    requires t == s.(pool := t.pool, journal := t.journal, dropped := s.dropped + overdue)
    requires t.journal == map id | id in s.journal :: Trimmed(s.journal[id], gone, id in overdue)
    requires s.pool.sessions.Keys - gone <= t.pool.sessions.Keys && gone !! t.pool.sessions.Keys
    ensures LinksOk(t)
  {
    hide Precedes, LinkOf, AllOk;
    forall m | m in t.states ensures Linked(t, m) {
      assert Linked(s, m);
      var id := s.states[m].call;
      if id in overdue { OverdueIsOver(c, s, m); }
      LinkMoves(s.pool, t.pool, s.states[m], s.journal[id], gone, id in overdue);
    }
  }

  lemma OverdueIsOver(c: Setup, s: System, n: nat)
    requires AllOk(s) && n in s.states && s.states[n].call in Overdue(c, s)
    ensures Parted(s.states[n])
  {
    CallFacts(s, n);
  }

  /** A purge deletes the overdue rows of the table and clears the others of references to what is gone. */
  lemma PurgedTable(c: Setup, s: System)
    requires ValidSettings(c.pool.settings)
    ensures Table(StepPool(c, s, OpPurge)) == Unlinked(Table(s) - Overdue(c, s), Purged(c.pool.settings, s.pool))
  {
    hide Apply, Purged, Overdue;
  }

  // ---- Arrivals --------------------------------------------------------------------------------

  lemma ArriveKeepsLinks(c: Setup, s: System, n: nat, dialled: string, caller: string)
    requires ValidSettings(c.pool.settings) && Inv(s.pool) && AllOk(s) && LinksOk(s) && s.pump == Free && n !in s.states
    ensures LinksOk(StepArrive(c, s, n, dialled, caller))
  {
    var t := StepArrive(c, s, n, dialled, caller);
    NextIsNew(s);
    ArrivalIsLinked(c, s, n, dialled, caller);
    ResolveWrites(c.pool, s.pool, dialled, caller);
    assert t.states == s.states[n := t.states[n]] && t.dropped == s.dropped
           && t.pool == Resolve(c.pool, s.pool, dialled, caller).0
           && t.journal == s.journal[s.nextCall := t.journal[s.nextCall]] by { hide Resolve; }
    hide Inv, Resolve, StepArrive;
    forall m | m in t.states ensures Linked(t, m) {
      if m != n {
        assert Linked(s, m) && RowTracked(s, s.states[m].call) by { CallFacts(s, m); }
      }
    }
    hide AllOk;
  }

  lemma NextIsNew(s: System)
    requires AllOk(s) && LinksOk(s)
    ensures s.nextCall !in s.dropped
  {
    assert s.nextCall in s.journal ==> RowTracked(s, s.nextCall);
  }

  /** The row of a call routed at once refers to the session it is routed to. */
  lemma ArrivalIsLinked(c: Setup, s: System, n: nat, dialled: string, caller: string)
    requires ValidSettings(c.pool.settings) && Inv(s.pool) && s.pump == Free && n !in s.states
    requires s.nextCall !in s.dropped
    ensures Linked(StepArrive(c, s, n, dialled, caller), n)
  {
    ResolvedIsStored(c.pool, s.pool, dialled, caller);
    ResolveWrites(c.pool, s.pool, dialled, caller);
    IdsAreOk(s.pool);
    hide Inv, Resolve;
  }

  lemma ResolvedIsStored(c: Config, db: Db, dialled: string, caller: string)
    requires Inv(db)
    ensures var decision := Resolve(c, db, dialled, caller).1.decision;
            decision.Connect? ==> decision.candidate.session in db.sessions
  {
    var number := Phone.Normalize(caller);
    if number.Ok? { OffersAreLive(c, db, CacheKey(ProxyOf(dialled), PartyHash(number.value))); }
    hide Inv, ResolveKey, Phone.Normalize, ProxyOf;
  }
}
