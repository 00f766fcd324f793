/** What each session operation leaves behind, stated apart from how it is computed. */
module Outcomes {
  import opened Basics
  import opened Crypto
  import opened Schema
  import opened Allocation
  import opened Sessions
  import opened Routing
  import opened Invariant
  import opened Lifecycle
  import opened Steps
  import opened Upkeep
  import opened Pool
  import opened Reach
  import opened Promotion
  import Phone

  // ---- Creation --------------------------------------------------------------------------

  /** The session asked for: these parties in these roles, live from now for the time asked. */
  predicate AsAsked(s: Settings, r: Request, now: int, row: Session, p: Parties) {
    && Phone.Normalize(r.partyA) == Ok(p.a.sealed.plain) && Phone.Normalize(r.partyB) == Ok(p.b.sealed.plain)
    && row.status == Active && row.closedAt.None? && row.createdAt == now && row.maxCalls == r.maxCalls
    && row.expiresAt == now + EffectiveTtl(s, r.ttl) * SECOND && now < row.expiresAt <= now + s.maxTtl * SECOND
  }

  /**
    A created session is the one asked for, on the number and with the PIN allocated; every other
    session is as it was, but for a PIN it may have been given; nothing is cached about its number.
   */
  lemma CreatedAsAsked(c: Config, db: Db, r: Request, locked: set<nat>)
    requires ValidSettings(c.settings) && Core(db)
    ensures var (after, result) := CreateSession(c, db, r, locked);
            match result
            case Ok(created) =>
              && created.session !in db.sessions && after.sessions.Keys == db.sessions.Keys + {created.session}
              && after.parties.Keys == after.sessions.Keys
              && AsAsked(c.settings, r, db.now, after.sessions[created.session], after.parties[created.session])
              && after.sessions[created.session].number == created.allocation.number
              && after.sessions[created.session].extCode == created.allocation.extCode
              && (forall sid :: sid in db.sessions ==> SameRowButPin(db.sessions[sid], after.sessions[sid]))
              && (forall key :: key in after.cache ==> key.proxy != E164Of(db, created.allocation.number))
            case Err(_) => after == db.(drawn := after.drawn)
  {
    CreatedTables(c, db, r, locked);
    hide CreateSession, Core, AsAsked, SameRowButPin;
    var (after, result) := CreateSession(c, db, r, locked);
    if result.Ok? { CreatedRow(c, db, r, locked); } else { var pool, row, p := CreateShape(c, db, r, locked); }
  }

  lemma CreatedTables(c: Config, db: Db, r: Request, locked: set<nat>)
    requires ValidSettings(c.settings) && Core(db)
    ensures var (after, result) := CreateSession(c, db, r, locked);
            result.Ok? ==>
              && result.value.session == db.nextSession && db.nextSession !in db.sessions
              && after.sessions.Keys == db.sessions.Keys + {db.nextSession} && after.parties.Keys == after.sessions.Keys
              && (forall sid :: sid in db.sessions ==> SameRowButPin(db.sessions[sid], after.sessions[sid]))
              && (forall key :: key in after.cache ==> key.proxy != E164Of(db, result.value.allocation.number))
  {
    CoreKeys(db);
    var pool, row, p := CreateShape(c, db, r, locked);
    var result := CreateSession(c, db, r, locked).1;
    hide *;
    if result.Ok? { InsertedTables(db, pool, row, p, E164Of(pool, row.number)); SameE164Of(db, pool, row.number); }
  }

  lemma InsertedTables(db: Db, pool: Db, row: Session, p: Parties, proxy: string)
    requires PinsOnly(db, pool) && db.sessions.Keys == db.parties.Keys && db.nextSession !in db.sessions
    ensures var after := Invalidate(Insert(pool, row, p), proxy);
            && after.sessions.Keys == db.sessions.Keys + {db.nextSession} && after.parties.Keys == after.sessions.Keys
            && (forall sid :: sid in db.sessions ==> SameRowButPin(db.sessions[sid], after.sessions[sid]))
            && (forall key :: key in after.cache ==> key.proxy != proxy)
  {
    hide SameRowButPin, SamePartyButPin;
  }

  lemma SameE164Of(db: Db, pool: Db, n: nat)
    requires PinsOnly(db, pool)
    ensures E164Of(pool, n) == E164Of(db, n)
  {
    hide SameRowButPin, SamePartyButPin;
  }

  lemma CreatedRow(c: Config, db: Db, r: Request, locked: set<nat>)
    requires ValidSettings(c.settings) && Core(db) && CreateSession(c, db, r, locked).1.Ok?
    ensures var (after, result) := CreateSession(c, db, r, locked);
            && db.nextSession in after.sessions && db.nextSession in after.parties
            && AsAsked(c.settings, r, db.now, after.sessions[db.nextSession], after.parties[db.nextSession])
            && after.sessions[db.nextSession].number == result.value.allocation.number
            && after.sessions[db.nextSession].extCode == result.value.allocation.extCode
  {
    NewRows(c, db, r, locked);
    var chosen := CreateSession(c, db, r, locked).1.value.allocation;
    RequestAsked(c.settings, r, db.now, chosen.number, chosen.extCode);
    hide CreateSession, Core, CheckRequest, AsAsked;
  }

  lemma NewRows(c: Config, db: Db, r: Request, locked: set<nat>)
    requires ValidSettings(c.settings) && Core(db) && CreateSession(c, db, r, locked).1.Ok?
    ensures CheckRequest(c.settings, r).Ok?
    ensures var (after, result) := CreateSession(c, db, r, locked);
            var (a, b) := CheckRequest(c.settings, r).value;
            var n, code := result.value.allocation.number, result.value.allocation.extCode;
            && db.nextSession in after.sessions && db.nextSession in after.parties
            && after.sessions[db.nextSession] == NewRow(db.now, n, code, EffectiveTtl(c.settings, r.ttl), r.maxCalls)
            && after.parties[db.nextSession] == NewPair(a, b, n, code)
  {
    hide CheckRequest, NewRow, NewPair, ExtCodesUnique, PartiesUnique, EffectiveTtl;
    var (a, b) := CheckRequest(c.settings, r).value;
    assert Allocate(c, db, PairHashes(a, b), r.allowExtCode, locked).0.nextSession == db.nextSession by {
      AllocateOk(c, db, PairHashes(a, b), r.allowExtCode, locked);
    }
    hide Allocate, PairHashes, Core;
  }

  lemma RequestAsked(s: Settings, r: Request, now: int, n: nat, code: Option<string>)
    requires CheckRequest(s, r).Ok?
    ensures var (a, b) := CheckRequest(s, r).value;
            AsAsked(s, r, now, NewRow(now, n, code, EffectiveTtl(s, r.ttl), r.maxCalls), NewPair(a, b, n, code))
  {
    hide Phone.Normalize;
  }

  // ---- Extension --------------------------------------------------------------------------

  /**
    An extension moves one active session's expiry into the future, and touches nothing else stored.
    The new expiry is within the ceiling exactly if it was not asked for as an instant beyond it.
   */
  lemma ExtendedAsAsked(s: Settings, db: Db, sid: nat, ttl: Option<int>, expiresAt: Option<int>)
    requires Core(db)
    ensures var (after, result) := ExtendSession(s, db, sid, ttl, expiresAt);
            match result
            case Ok(expiry) =>
              && sid in db.sessions && db.sessions[sid].status == Active && db.now < expiry
              && (expiresAt.Some? ==> expiry == expiresAt.value)
              && (expiresAt.None? ==> ttl.Some? && expiry == db.now + ttl.value * SECOND && 0 < ttl.value <= s.maxTtl)
              && (expiry <= db.now + s.maxTtl * SECOND <==>
                    expiresAt.None? || expiresAt.value <= db.now + s.maxTtl * SECOND)
              && after == db.(sessions := db.sessions[sid := db.sessions[sid].(expiresAt := expiry)],
                    cache := after.cache)
              && (forall key :: key in after.cache ==> key.proxy != E164Of(db, db.sessions[sid].number))
            case Err(_) => after == db
  {
    hide Core;
  }

  // ---- Closing ----------------------------------------------------------------------------

  /**
    A close ends the session and its party rows now, starts its number's cooldown exactly if it was
    the last there, and spares every other session.
   */
  lemma CloseEnds(db: Db, sid: nat, status: Status)
    requires Core(db) && sid in db.sessions && db.sessions[sid].status == Active && status != Active
    ensures var after := CloseSession(db, sid, status).0; var n := db.sessions[sid].number;
            && after.sessions == db.sessions[sid := db.sessions[sid].(status := status, closedAt := Some(db.now))]
            && sid in after.parties && !after.parties[sid].a.isActive && !after.parties[sid].b.isActive
            && after.parties[sid].a.releasedAt == after.parties[sid].b.releasedAt == Some(db.now)
            && n in db.numbers && n in after.numbers
            && after.numbers[n].releasedAt ==
                 (if ActiveOn(db.sessions, n) == {sid} then Some(db.now) else db.numbers[n].releasedAt)
            && (forall m :: m in db.numbers && m != n ==> m in after.numbers && after.numbers[m] == db.numbers[m])
  {
    CoreRow(db, sid);
    hide Core, Mirrors;
    EndIs(db, sid, status);
    LastOne(db.sessions, sid, db.sessions[sid].(status := status, closedAt := Some(db.now)));
    hide EndSession, ActiveOn;
  }

  /** A number falls idle by the end of a session exactly if no other was active on it. */
  lemma LastOne(ss: map<nat, Session>, sid: nat, row: Session)
    requires sid in ss && ss[sid].status == Active && row.status != Active && row.number == ss[sid].number
    ensures ActiveOn(ss[sid := row], row.number) == {} <==> ActiveOn(ss, row.number) == {sid}
  {
    var n := row.number;
    assert sid in ActiveOn(ss, n);
    assert ActiveOn(ss[sid := row], n) == ActiveOn(ss, n) - {sid};
  }

  /** Closing what is closed changes nothing and answers with the row as it was closed. */
  lemma CloseTwice(db: Db, sid: nat, status: Status, again: Status)
    requires Core(db) && sid in db.sessions && status != Active && again != Active
    ensures var after := CloseSession(db, sid, status).0;
            sid in after.sessions && CloseSession(after, sid, again) == (after, Ok(after.sessions[sid]))
  {
    if db.sessions[sid].status == Active {
      CloseEnds(db, sid, status);
    }
    hide Core;
  }

  // ---- The sweep --------------------------------------------------------------------------

  /**
    A sweep ends exactly the sessions it returns, which were due; the others are as they were. It
    takes those due longest first, and leaves a due session only if it reached its limit.
   */
  lemma SweepIsExact(c: Config, db: Db, limit: nat)
    requires Core(db)
    ensures var (after, swept) := Sweep(c, db, limit);
            && after.sessions.Keys == db.sessions.Keys && |swept| <= limit
            && (forall sid :: sid in db.sessions ==>
                  after.sessions[sid] ==
                    if sid in swept then db.sessions[sid].(status := Expired, closedAt := Some(db.now))
                        else db.sessions[sid])
            && (forall sid :: sid in swept ==> sid in DueKeys(db))
            && (forall sid :: sid in DueKeys(db) && sid !in swept ==>
                  && |swept| == limit
                  && forall other :: other in swept ==>
                        other in db.sessions && db.sessions[other].expiresAt <= db.sessions[sid].expiresAt)
  {
    CoreKeys(db);
    hide Core, DueRows, EndAll, ReleaseAll;
    var rows := DueRows(c, db, limit);
    DueSweepable(c, db, limit);
    EarliestDue(c, db, limit);
    EndAllKeepsKeys(db, rows);
    EndAllExpires(db, rows);
    ReleaseAllReleases(EndAll(db, rows), rows);
  }

  lemma EarliestDue(c: Config, db: Db, limit: nat)
    ensures var swept := DueRows(c, db, limit);
            && |swept| <= limit
            && (forall sid :: sid in swept ==> sid in DueKeys(db))
            && (forall sid :: sid in DueKeys(db) && sid !in swept ==>
                  && |swept| == limit
                  && forall other :: other in swept ==>
                        other in db.sessions && db.sessions[other].expiresAt <= db.sessions[sid].expiresAt)
  {
    var keys := DueKeys(db);
    var all, swept := c.plan(keys), DueRows(c, db, limit);
    assert Answers(all, keys);
    hide DueRows;
    assert swept == all[..Min(|all|, limit)] by { DueRowsIs(c, db, limit); }
    forall sid | sid in keys && sid !in swept
      ensures |swept| == limit
      ensures forall other :: other in swept ==>
                other in db.sessions && db.sessions[other].expiresAt <= db.sessions[sid].expiresAt
    {
      assert sid in all;
      var j :| 0 <= j < |all| && all[j] == sid;
      forall i | 0 <= i < |swept| ensures all[i] != sid { assert swept[i] in swept; }
      forall other | other in swept
          ensures other in db.sessions && db.sessions[other].expiresAt <= db.sessions[sid].expiresAt {
        var i :| 0 <= i < |swept| && swept[i] == other;
        assert all[i] == other && all[i] in all && !Before(keys[all[j]], keys[all[i]]);
      }
    }
  }

  lemma DueRowsIs(c: Config, db: Db, limit: nat)
    ensures DueRows(c, db, limit) == c.plan(DueKeys(db))[..Min(|c.plan(DueKeys(db))|, limit)]
  {
  }

  lemma {:induction false} EndAllExpires(db: Db, rows: seq<nat>)
    requires db.sessions.Keys == db.parties.Keys && Sweepable(db, rows)
    ensures var after := EndAll(db, rows);
            && after.sessions.Keys == db.sessions.Keys
            && (forall sid :: sid in db.sessions ==>
                  after.sessions[sid] ==
                    if sid in rows then db.sessions[sid].(status := Expired, closedAt := Some(db.now))
                        else db.sessions[sid])
    decreases |rows|
  {
    if rows != [] {
      RestSweepable(db, rows);
      EndIs(db, rows[0], Expired);
      hide EndSession;
      EndAllExpires(EndSession(db, rows[0], Expired), rows[1..]);
      assert rows[0] !in rows[1..];
    }
  }

  // ---- Ended for good ------------------------------------------------------------------------

  /** Session `sid` was created and is not active, if it is still stored. */
  predicate Over(db: Db, sid: nat) {
    sid < db.nextSession && (sid in db.sessions ==> db.sessions[sid].status != Active)
  }

  /** No operation makes an ended session active again. */
  lemma NeverRevived(c: Config, db: Db, op: Op, sid: nat)
    requires ValidSettings(c.settings) && Inv(db) && Over(db, sid)
    ensures Over(Apply(c, db, op), sid)
  {
    InvCore(db);
    hide Inv, Core, Over, AddNumber, SetNumberStatus, CreateSession;
    hide CloseSession, ExtendSession, Sweep, Purge, Tick, Resolve;
    match op
    case OpCreate(request, locked) => CreateRevivesNobody(c, db, request, locked, sid);
    case OpSweep(limit) => SweepRevivesNobody(c, db, limit, sid);
    case OpClose(id, expired) => CloseRevivesNobody(db, id, if expired then Expired else Closed, sid);
    case OpAddNumber(e164, enabled) => AddRevivesNobody(db, e164, enabled, sid);
    case _ =>
      OtherOpsUnmoved(c, db, op);
      OthersKeepNext(c, db, op);
      UnmovedRevivesNobody(db, Apply(c, db, op), sid);
  }

  lemma UnmovedRevivesNobody(db: Db, after: Db, sid: nat)
    requires Unmoved(db, after) && after.nextSession == db.nextSession && Over(db, sid)
    ensures Over(after, sid)
  {
  }

  lemma OthersKeepNext(c: Config, db: Db, op: Op)
    requires ValidSettings(c.settings)
    requires op.OpSetStatus? || op.OpExtend? || op.OpPurge? || op.OpTick? || op.OpResolve?
    ensures Apply(c, db, op).nextSession == db.nextSession
  {
    hide Phone.Normalize, Resolve, NewExpiry;
    if op.OpResolve? { ResolveWrites(c, db, op.dialled, op.caller); }
  }

  lemma AddRevivesNobody(db: Db, e164: string, enabled: bool, sid: nat)
    requires Over(db, sid)
    ensures Over(AddNumber(db, e164, enabled).0, sid)
  {
    hide Phone.Normalize;
  }

  lemma SweepRevivesNobody(c: Config, db: Db, limit: nat, sid: nat)
    requires Core(db) && Over(db, sid)
    ensures Over(Sweep(c, db, limit).0, sid)
  {
    hide Core, Sweep;
    SweepIsExact(c, db, limit);
    SweepKeepsNext(c, db, limit);
  }

  lemma CreateRevivesNobody(c: Config, db: Db, r: Request, locked: set<nat>, sid: nat)
    requires ValidSettings(c.settings) && Core(db)
    requires Over(db, sid)
    ensures Over(CreateSession(c, db, r, locked).0, sid)
  {
    hide CreateSession, Core, Fresh, Eligible;
    var pool, row, p := CreateShape(c, db, r, locked);
    if sid in db.sessions && sid in pool.sessions && PinsOnly(db, pool) {
      assert SameRowButPin(db.sessions[sid], pool.sessions[sid]);
    }
  }

  lemma CloseRevivesNobody(db: Db, id: nat, status: Status, sid: nat)
    requires Core(db) && status != Active
    requires Over(db, sid)
    ensures Over(CloseSession(db, id, status).0, sid)
  {
    hide Core;
  }

  lemma SweepKeepsNext(c: Config, db: Db, limit: nat)
    requires Core(db)
    ensures Sweep(c, db, limit).0.nextSession == db.nextSession
  {
    CoreKeys(db);
    hide Core;
    var rows := DueRows(c, db, limit);
    EndAllKeepsKeys(db, rows);
    EndAllKeepsNext(db, rows);
    ReleaseAllKeepsNext(EndAll(db, rows), rows);
  }

  lemma {:induction false} EndAllKeepsNext(db: Db, rows: seq<nat>)
    requires forall i :: 0 <= i < |rows| ==> rows[i] in db.sessions
    ensures EndAll(db, rows).nextSession == db.nextSession
    decreases |rows|
  {
    if rows != [] { EndAllKeepsNext(EndSession(db, rows[0], Expired), rows[1..]); }
  }

  lemma {:induction false} ReleaseAllKeepsNext(db: Db, rows: seq<nat>)
    requires forall i :: 0 <= i < |rows| ==> rows[i] in db.sessions
    ensures ReleaseAll(db, rows).nextSession == db.nextSession
    decreases |rows|
  {
    if rows != [] { ReleaseAllKeepsNext(Release(db, db.sessions[rows[0]].number), rows[1..]); }
  }

  lemma {:induction false} EndedForGood(c: Config, start: int, ops: seq<Op>, more: seq<Op>, sid: nat)
    requires ValidSettings(c.settings)
    requires var db := Run(c, start, ops); sid in db.sessions && db.sessions[sid].status != Active
    ensures Over(Run(c, start, ops + more), sid)
    decreases |more|
  {
    hide Inv, Apply;
    RunInv(c, start, ops);
    if more == [] {
      assert ops + more == ops;
      assert sid < Run(c, start, ops).nextSession by { InvCore(Run(c, start, ops)); CoreRow(Run(c, start, ops), sid); }
    } else {
      var k := |more| - 1;
      assert (ops + more)[..|ops + more| - 1] == ops + more[..k] && (ops + more)[|ops + more| - 1] == more[k];
      EndedForGood(c, start, ops, more[..k], sid);
      RunInv(c, start, ops + more[..k]);
      NeverRevived(c, Run(c, start, ops + more[..k]), more[k], sid);
    }
  }

  predicate Offers(decision: Decision, sid: nat) {
    match decision
    case Connect(candidate) => candidate.session == sid
    case AskCode(candidates) => exists i :: 0 <= i < |candidates| && candidates[i].session == sid
    case Reject(_) => false
  }

  /**
    Once ended, by a close or a sweep, a session is never offered to a caller again, whatever happens
    later and whatever was cached.
   */
  lemma EndedIsNeverOffered(c: Config, start: int, ops: seq<Op>, more: seq<Op>, sid: nat, key: CacheKey)
    requires ValidSettings(c.settings)
    requires var db := Run(c, start, ops); sid in db.sessions && db.sessions[sid].status != Active
    ensures !Offers(ResolveKey(c, Run(c, start, ops + more), key).1, sid)
  {
    EndedForGood(c, start, ops, more, sid);
    var db := Run(c, start, ops + more);
    RunInv(c, start, ops + more);
    hide Inv, Run, ResolveKey;
    OffersAreLive(c, db, key);
    assert sid !in Live(db, key.proxy, key.caller);
  }
}
