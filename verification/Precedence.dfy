/** Time and identifiers only grow, and a session's call cap never changes, over every operation of the pool. */
module Precedence {
  import opened Basics
  import opened Crypto
  import opened Schema
  import opened Allocation
  import opened Sessions
  import opened Routing
  import opened Invariant
  import opened Lifecycle
  import opened Steps
  import opened Upkeep
  import opened Pool
  import Phone

  ghost predicate Precedes(x: Db, y: Db) {
    && x.now <= y.now && x.nextSession <= y.nextSession
    && (forall sid :: sid in y.sessions && sid < x.nextSession ==>
          sid in x.sessions && x.sessions[sid].maxCalls == y.sessions[sid].maxCalls)
  }

  lemma PrecedesTransitive(x: Db, y: Db, z: Db)
    requires Precedes(x, y) && Precedes(y, z)
    ensures Precedes(x, z)
  {
  }

  lemma CreatePrecedes(c: Config, db: Db, r: Request, locked: set<nat>)
    requires ValidSettings(c.settings) && Inv(db)
    ensures Precedes(db, CreateSession(c, db, r, locked).0)
  {
    var pool, row, p := CreateShape(c, db, r, locked);
    var (after, result) := CreateSession(c, db, r, locked);
    hide *;
    if result.Ok? {
      InsertPrecedes(db, pool, row, p, E164Of(pool, row.number));
    } else {
      DrawPrecedes(db, after.drawn);
    }
  }

  lemma InsertPrecedes(db: Db, pool: Db, row: Session, p: Parties, proxy: string)
    requires PinsOnly(db, pool)
    ensures Precedes(db, Invalidate(Insert(pool, row, p), proxy))
  {
    forall sid | sid in pool.sessions ensures pool.sessions[sid].maxCalls == db.sessions[sid].maxCalls {
      assert SameRowButPin(db.sessions[sid], pool.sessions[sid]);
    }
  }

  lemma DrawPrecedes(db: Db, drawn: nat)
    ensures Precedes(db, db.(drawn := drawn))
  {
  }

  lemma EndPrecedes(db: Db, sid: nat, status: Status)
    requires sid in db.sessions && sid in db.parties
    ensures Precedes(db, EndSession(db, sid, status))
  {
  }

  lemma ReleasePrecedes(db: Db, n: nat)
    ensures Precedes(db, Release(db, n))
  {
  }

  lemma {:induction false} EndAllPrecedes(db: Db, rows: seq<nat>)
    requires forall i :: 0 <= i < |rows| ==> rows[i] in db.sessions && rows[i] in db.parties
    ensures Precedes(db, EndAll(db, rows))
    decreases |rows|
  {
    if rows != [] {
      var step := EndSession(db, rows[0], Expired);
      EndPrecedes(db, rows[0], Expired);
      EndAllPrecedes(step, rows[1..]);
      PrecedesTransitive(db, step, EndAll(step, rows[1..]));
    }
  }

  lemma {:induction false} ReleaseAllPrecedes(db: Db, rows: seq<nat>)
    requires forall i :: 0 <= i < |rows| ==> rows[i] in db.sessions
    ensures Precedes(db, ReleaseAll(db, rows))
    decreases |rows|
  {
    if rows != [] {
      var n := db.sessions[rows[0]].number;
      ReleasePrecedes(db, n);
      ReleaseAllPrecedes(Release(db, n), rows[1..]);
      PrecedesTransitive(db, Release(db, n), ReleaseAll(Release(db, n), rows[1..]));
    }
  }

  lemma SweepPrecedes(c: Config, db: Db, limit: nat)
    requires Inv(db)
    ensures Precedes(db, Sweep(c, db, limit).0)
  {
    assert db.sessions.Keys == db.parties.Keys;
    hide Inv;
    var rows := DueRows(c, db, limit);
    EndAllKeepsKeys(db, rows);
    EndAllPrecedes(db, rows);
    ReleaseAllPrecedes(EndAll(db, rows), rows);
    PrecedesTransitive(db, EndAll(db, rows), ReleaseAll(EndAll(db, rows), rows));
    hide *;
    assert Sweep(c, db, limit).0 == ReleaseAll(EndAll(db, rows), rows) by { SweepIs(c, db, limit); }
  }

  lemma SweepIs(c: Config, db: Db, limit: nat)
    requires db.sessions.Keys <= db.parties.Keys
    ensures var rows := DueRows(c, db, limit);
            && (forall i :: 0 <= i < |rows| ==> rows[i] in db.sessions && rows[i] in db.parties)
            && (forall i :: 0 <= i < |rows| ==> rows[i] in EndAll(db, rows).sessions)
            && Sweep(c, db, limit).0 == ReleaseAll(EndAll(db, rows), rows)
  {
    EndAllKeepsKeys(db, DueRows(c, db, limit));
  }

  lemma ClosePrecedes(db: Db, sid: nat, status: Status)
    requires Inv(db) && status != Active
    ensures Precedes(db, CloseSession(db, sid, status).0)
  {
    assert db.sessions.Keys == db.parties.Keys;
    if sid in db.sessions && db.sessions[sid].status == Active {
      var ended, n := EndSession(db, sid, status), db.sessions[sid].number;
      EndPrecedes(db, sid, status);
      ReleasePrecedes(ended, n);
      hide Inv, EndSession, Release, Precedes;
      PrecedesTransitive(db, ended, Release(ended, n));
    } else {
      hide Inv;
    }
  }

  lemma OthersPrecede(c: Config, db: Db, op: Op)
    requires ValidSettings(c.settings) && Inv(db)
    requires op.OpAddNumber? || op.OpSetStatus? || op.OpResolve? || op.OpExtend? || op.OpTick? || op.OpPurge?
    ensures Precedes(db, Apply(c, db, op))
  {
    hide Inv, Phone.Normalize, Resolve, NewExpiry;
    match op
    case OpResolve(dialled, caller) => ResolveWrites(c, db, dialled, caller);
    case _ =>
  }

  lemma ApplyPrecedes(c: Config, db: Db, op: Op)
    requires ValidSettings(c.settings) && Inv(db)
    ensures Precedes(db, Apply(c, db, op))
  {
    hide Inv, Precedes;
    match op
    case OpCreate(request, locked) => CreatePrecedes(c, db, request, locked);
    case OpSweep(limit) => SweepPrecedes(c, db, limit);
    case OpClose(sid, expired) => ClosePrecedes(db, sid, if expired then Expired else Closed);
    case _ => OthersPrecede(c, db, op);
  }
}
