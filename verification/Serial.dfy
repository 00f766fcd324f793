/** Mode "always", number scope, one session a number: the number's own release keeps the cooldown, purges or not. */
module Serial {
  import opened Basics
  import opened Crypto
  import opened Schema
  import opened Allocation
  import opened Sessions
  import opened Invariant
  import opened Lifecycle
  import opened Steps
  import opened Upkeep
  import opened Pool
  import opened Exhaustion
  import opened Cooling

  predicate OneAtATime(s: Settings) {
    s.mode == Always && s.numberScope && s.maxPerNumber <= 1
  }

  /** A session of the number whose session ended: over by then, or begun after the cooldown. */
  predicate Spaced(c: Closure, sid: nat, row: Session, cooldown: int) {
    row.number == c.number ==> (sid < c.before && row.status != Active) || c.at + cooldown <= row.createdAt
  }

  predicate Alone(i: nat, r: Session, j: nat, s: Session) {
    r.number == s.number && r.status == Active && s.status == Active ==> i == j
  }

  ghost predicate InTurn(ss: map<nat, Session>, closures: set<Closure>, cooldown: int) {
    && (forall c, sid {:trigger Spaced(c, sid, ss[sid], cooldown)} ::
          c in closures && sid in ss ==> Spaced(c, sid, ss[sid], cooldown))
    && (forall i, j {:trigger Alone(i, ss[i], j, ss[j])} :: i in ss && j in ss ==> Alone(i, ss[i], j, ss[j]))
  }

  predicate SameTurn(r: Session, s: Session) {
    r.number == s.number && r.createdAt == s.createdAt && r.status == s.status
  }

  /** Sessions may go, and may change in anything but number, beginning and status. */
  lemma TurnsKept(ss: map<nat, Session>, tt: map<nat, Session>, closures: set<Closure>, cooldown: int)
    requires InTurn(ss, closures, cooldown)
    requires forall sid {:trigger tt[sid]} :: sid in tt ==> sid in ss && SameTurn(ss[sid], tt[sid])
    ensures InTurn(tt, closures, cooldown)
  {
    forall c, sid | c in closures && sid in tt ensures Spaced(c, sid, tt[sid], cooldown) {
      assert Spaced(c, sid, ss[sid], cooldown);
    }
    forall i, j | i in tt && j in tt ensures Alone(i, tt[i], j, tt[j]) { assert Alone(i, ss[i], j, ss[j]); }
  }

  /** A session begins on an idle number that has rested. */
  lemma NextTurn(ss: map<nat, Session>, closures: set<Closure>, cooldown: int, sid: nat, row: Session)
    requires InTurn(ss, closures, cooldown) && sid !in ss && ActiveOn(ss, row.number) == {}
    requires forall c :: c in closures && c.number == row.number ==> c.at + cooldown <= row.createdAt
    ensures InTurn(ss[sid := row], closures, cooldown)
  {
    var tt := ss[sid := row];
    forall c, i | c in closures && i in tt ensures Spaced(c, i, tt[i], cooldown) {
      if i != sid { assert Spaced(c, i, ss[i], cooldown); }
    }
    forall i, j | i in tt && j in tt ensures Alone(i, tt[i], j, tt[j]) {
      if i != sid && j != sid { assert Alone(i, ss[i], j, ss[j]); }
      assert i in ss && IsActiveOn(ss, i, row.number) ==> i in ActiveOn(ss, row.number);
      assert j in ss && IsActiveOn(ss, j, row.number) ==> j in ActiveOn(ss, row.number);
    }
  }

  /** A session ends: nobody else was active on its number. */
  lemma TurnEnds(ss: map<nat, Session>, closures: set<Closure>, cooldown: int, sid: nat, row: Session,
                 more: set<Closure>, next: nat)
    requires InTurn(ss, closures, cooldown) && sid in ss && ss[sid].status == Active && row.status != Active
    requires row.number == ss[sid].number && row.createdAt == ss[sid].createdAt
    requires forall c :: c in more ==> c.number == row.number && c.before == next
    requires forall i :: i in ss ==> i < next
    ensures InTurn(ss[sid := row], closures + more, cooldown)
  {
    var tt := ss[sid := row];
    forall c, i | c in closures + more && i in tt ensures Spaced(c, i, tt[i], cooldown) {
      if c in closures { assert Spaced(c, i, ss[i], cooldown); }
      assert Alone(i, ss[i], sid, ss[sid]);
    }
    forall i, j | i in tt && j in tt ensures Alone(i, tt[i], j, tt[j]) { assert Alone(i, ss[i], j, ss[j]); }
  }

  // ---- Operations ----------------------------------------------------------------------------

  ghost predicate Serial(db: Db, s: Settings) {
    InTurn(db.sessions, db.closures, Cooldown(s))
  }

  /** A number in its cooldown or busy is not given out again. */
  lemma IdleHasRested(db: Db, s: Settings, n: nat, hashes: set<PartyHash>)
    requires Inv(db) && s.numberScope && Eligible(db, s, n, hashes) && ActiveOn(db.sessions, n) == {}
    ensures forall c :: c in db.closures && c.number == n ==> c.at + Cooldown(s) <= db.now
  {
    forall c | c in db.closures && c.number == n ensures c.at + Cooldown(s) <= db.now {
      assert ReleasedAfter(db.numbers, db.sessions, c);
    }
    hide Inv;
  }

  lemma WinnerIsIdle(c: Config, db: Db, r: Request, locked: set<nat>)
    requires ValidSettings(c.settings) && OneAtATime(c.settings) && CreateSession(c, db, r, locked).1.Ok?
    ensures var n := CreateSession(c, db, r, locked).1.value.allocation.number;
            Eligible(db, c.settings, n, {}) && ActiveOn(db.sessions, n) == {}
  {
    var (a, b) := CheckRequest(c.settings, r).value;
    WinnerIsEligible(c, db, PairHashes(a, b), locked);
    hide CheckRequest, AllocateShared, ExtCodesUnique, PartiesUnique, Invalidate, E164Of, NewRow, NewPair;
  }

  lemma CreateKeepsTurns(c: Config, db: Db, r: Request, locked: set<nat>)
    requires ValidSettings(c.settings) && OneAtATime(c.settings) && Inv(db) && Serial(db, c.settings)
    ensures Serial(CreateSession(c, db, r, locked).0, c.settings)
  {
    var pool, row, p := CreateShape(c, db, r, locked);
    var (after, result) := CreateSession(c, db, r, locked);
    if result.Ok? {
      WinnerIsIdle(c, db, r, locked);
      IdleHasRested(db, c.settings, row.number, {});
      CoreKeys(db);
      hide Inv, Core, CreateSession, Eligible;
      PinsKeepTurns(db, pool, c.settings, row.number);
      hide PinsOnly, InTurn;
      assert row.createdAt == db.now && pool.closures == db.closures && pool.nextSession == db.nextSession;
      NextTurn(pool.sessions, pool.closures, Cooldown(c.settings), pool.nextSession, row);
      assert after.sessions == pool.sessions[pool.nextSession := row] && after.closures == pool.closures;
    }
  }

  lemma PinsKeepTurns(db: Db, pool: Db, s: Settings, n: nat)
    requires PinsOnly(db, pool) && Serial(db, s)
    ensures Serial(pool, s) && ActiveOn(pool.sessions, n) == ActiveOn(db.sessions, n)
    ensures pool.closures == db.closures && pool.nextSession == db.nextSession && pool.now == db.now
    ensures pool.sessions.Keys == db.sessions.Keys
  {
    forall sid | sid in pool.sessions ensures SameTurn(db.sessions[sid], pool.sessions[sid]) {
      assert SameRowButPin(db.sessions[sid], pool.sessions[sid]);
    }
    TurnsKept(db.sessions, pool.sessions, db.closures, Cooldown(s));
    hide InTurn;
  }

  lemma EndKeepsTurns(db: Db, s: Settings, sid: nat, status: Status)
    requires Core(db) && Serial(db, s) && sid in db.sessions && db.sessions[sid].status == Active && status != Active
    ensures Serial(EndSession(db, sid, status), s)
  {
    CoreKeys(db);
    CoreIds(db);
    EndIs(db, sid, status);
    hide Core, InTurn, EndSession;
    var row, p := EndedRow(db, sid, status), EndedPair(db, sid, status);
    var more := {Closure(row.number, p.a.hash, db.now, db.nextSession),
        Closure(row.number, p.b.hash, db.now, db.nextSession)};
    TurnEnds(db.sessions, db.closures, Cooldown(s), sid, row, more, db.nextSession);
  }

  lemma ReleaseKeepsTurns(db: Db, n: nat, s: Settings)
    requires Serial(db, s)
    ensures Serial(Release(db, n), s)
  {
    hide InTurn;
  }

  lemma CloseKeepsTurns(s: Settings, db: Db, sid: nat, status: Status)
    requires Core(db) && Serial(db, s) && status != Active
    ensures Serial(CloseSession(db, sid, status).0, s)
  {
    if sid in db.sessions && db.sessions[sid].status == Active {
      EndKeepsTurns(db, s, sid, status);
      hide Core, InTurn, EndSession, ActiveOn;
      ReleaseKeepsTurns(EndSession(db, sid, status), db.sessions[sid].number, s);
      hide Serial, Release;
    }
  }

  lemma {:induction false} EndAllKeepsTurns(db: Db, s: Settings, rows: seq<nat>, idle: set<nat>, stale: set<nat>)
    requires db.sessions.Keys == db.parties.Keys
    requires Sound(db, idle, stale) && Serial(db, s) && Sweepable(db, rows)
    ensures Serial(EndAll(db, rows), s)
    decreases |rows|
  {
    if rows != [] {
      var n := db.sessions[rows[0]].number;
      EndKeepsTurns(db, s, rows[0], Expired);
      EndKeepsSound(db, rows[0], Expired, idle, stale);
      RestSweepable(db, rows);
      hide Sound, EndSession, Serial;
      EndAllKeepsTurns(EndSession(db, rows[0], Expired), s, rows[1..], idle + {n}, stale + {n});
    }
  }

  lemma SweepKeepsTurns(c: Config, db: Db, limit: nat)
    requires Inv(db) && Serial(db, c.settings)
    ensures Serial(Sweep(c, db, limit).0, c.settings)
  {
    assert db.sessions.Keys == db.parties.Keys;
    var rows := DueRows(c, db, limit);
    DueSweepable(c, db, limit);
    hide Sound, DueRows, Sweepable, InTurn;
    EndAllKeepsKeys(db, rows);
    EndAllKeepsTurns(db, c.settings, rows, {}, {});
    ReleaseAllKeepsTables(EndAll(db, rows), rows);
    hide EndAll, ReleaseAll;
  }

  /** Extending, purging and waiting leave the turns alone. */
  lemma RestKeepsTurns(c: Config, db: Db, op: Op)
    requires ValidSettings(c.settings) && Serial(db, c.settings) && (op.OpExtend? || op.OpPurge? || op.OpTick?)
    requires db.sessions.Keys == db.parties.Keys
    ensures Serial(Apply(c, db, op), c.settings)
  {
    var after := Apply(c, db, op);
    if op.OpExtend? { ExtendShape(c.settings, db, op.session, op.ttl, op.expiresAt); }
    forall sid | sid in after.sessions ensures sid in db.sessions && SameTurn(db.sessions[sid], after.sessions[sid]) {
      if op.OpExtend? { hide Apply; }
    }
    hide ExtendSession, InTurn;
    TurnsKept(db.sessions, after.sessions, db.closures, Cooldown(c.settings));
  }

  lemma ApplyKeepsTurns(c: Config, db: Db, op: Op)
    requires ValidSettings(c.settings) && OneAtATime(c.settings) && Inv(db) && Serial(db, c.settings)
    ensures Serial(Apply(c, db, op), c.settings)
  {
    assert db.sessions.Keys == db.parties.Keys;
    match op
    case OpCreate(request, locked) => CreateKeepsTurns(c, db, request, locked);
    case OpClose(sid, expired) => CloseKeepsTurns(c.settings, db, sid, if expired then Expired else Closed);
    case OpSweep(limit) => SweepKeepsTurns(c, db, limit);
    case OpAddNumber(_, _) => PoolOpsFrame(c, db, op);
    case OpSetStatus(_, _) => PoolOpsFrame(c, db, op);
    case OpResolve(_, _) => PoolOpsFrame(c, db, op);
    case _ => RestKeepsTurns(c, db, op);
  }

  lemma {:induction false} RunKeepsTurns(c: Config, start: int, ops: seq<Op>)
    requires ValidSettings(c.settings) && OneAtATime(c.settings)
    ensures Serial(Run(c, start, ops), c.settings)
    decreases |ops|
  {
    hide Inv, InTurn, Apply;
    if ops == [] {
      NothingYet(start, c.settings);
    } else {
      var k := |ops| - 1;
      RunInv(c, start, ops[..k]);
      RunKeepsTurns(c, start, ops[..k]);
      ApplyKeepsTurns(c, Run(c, start, ops[..k]), ops[k]);
    }
  }

  lemma NothingYet(start: int, s: Settings)
    ensures Serial(EmptyDb(start), s)
  {
  }

  // ---- What follows ----------------------------------------------------------------------------

  /** In such settings the cooldown is respected on every run, whatever is purged when. */
  lemma SerialRespects(c: Config, start: int, ops: seq<Op>, closure: Closure, sid: nat)
    requires ValidSettings(c.settings) && OneAtATime(c.settings)
    requires var db := Run(c, start, ops);
             && closure in db.closures && sid in db.sessions && db.sessions[sid].number == closure.number
             && sid >= closure.before
    ensures closure.at + Cooldown(c.settings) <= Run(c, start, ops).sessions[sid].createdAt
  {
    RunKeepsTurns(c, start, ops);
    var db := Run(c, start, ops);
    hide Run;
    assert Spaced(closure, sid, db.sessions[sid], Cooldown(c.settings));
  }

  /** And a purge changes no number's eligibility: a party in quarantine has its number in quarantine. */
  lemma SerialTransparent(c: Config, start: int, ops: seq<Op>, n: nat, hashes: set<PartyHash>)
    requires ValidSettings(c.settings) && OneAtATime(c.settings)
    ensures var db := Run(c, start, ops);
            Eligible(db, c.settings, n, hashes) == Eligible(Purge(c.settings, db), c.settings, n, hashes)
  {
    RunKeepsTurns(c, start, ops);
    RunInv(c, start, ops);
    var db := Run(c, start, ops);
    hide Run, Serial, Inv;
    if Rests(db, c.settings, n) {
      forall sid | sid in db.parties ensures Unbound(db, c.settings, n, hashes, sid) {
        PartyRests(db, c.settings, n, hashes, sid);
      }
    }
    hide Rests, Unbound;
    RestDecides(c.settings, db, n, hashes);
  }

  /** The number is not in its own cooldown. */
  predicate Rests(db: Db, s: Settings, n: nat) {
    n in db.numbers && (db.numbers[n].releasedAt.Some? ==> db.numbers[n].releasedAt.value < CooldownEdge(db, s))
  }

  predicate Unbound(db: Db, s: Settings, n: nat, hashes: set<PartyHash>, sid: nat)
    requires sid in db.parties
  {
    var p, edge := db.parties[sid], CooldownEdge(db, s);
    !Quarantines(p.a, n, hashes, edge) && !Quarantines(p.b, n, hashes, edge)
  }

  lemma RestDecides(s: Settings, db: Db, n: nat, hashes: set<PartyHash>)
    requires s.numberScope
    requires Rests(db, s, n) ==> forall sid :: sid in db.parties ==> Unbound(db, s, n, hashes, sid)
    ensures Eligible(db, s, n, hashes) == Eligible(Purge(s, db), s, n, hashes)
  {
    var y := Purge(s, db);
    assert y.numbers == db.numbers && y.now == db.now;
    assert forall sid :: sid in y.parties ==> sid in db.parties && y.parties[sid] == db.parties[sid];
    hide Purge, Quarantines;
    if Rests(db, s, n) {
      forall sid | sid in db.parties ensures var p, edge := db.parties[sid], CooldownEdge(db, s);
          !Quarantines(p.a, n, hashes, edge) && !Quarantines(p.b, n, hashes, edge)
      {
        assert Unbound(db, s, n, hashes, sid);
      }
    }
  }

  lemma PartyRests(db: Db, s: Settings, n: nat, hashes: set<PartyHash>, sid: nat)
    requires Inv(db) && Serial(db, s) && sid in db.parties && Rests(db, s, n)
    ensures Unbound(db, s, n, hashes, sid)
  {
    var row, p := db.sessions[sid], db.parties[sid];
    assert Mirrors(p, row) && RowOk(row, db.now);
    if row.number == n && row.closedAt.Some? {
      assert Recorded(db.closures, row, p);
      var before: nat :| Closure(n, p.a.hash, row.closedAt.value, before) in db.closures;
      var c := Closure(n, p.a.hash, row.closedAt.value, before);
      if ActiveOn(db.sessions, n) == {} {
        assert ReleasedAfter(db.numbers, db.sessions, c);
      } else {
        var other :| other in ActiveOn(db.sessions, n);
        assert Spaced(c, other, db.sessions[other], Cooldown(s)) && RowOk(db.sessions[other], db.now);
      }
    }
  }
}
