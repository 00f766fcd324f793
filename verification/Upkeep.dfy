/** Extending, ending, sweeping, purging, time, pool changes and resolving keep the state sound. */
module Upkeep {
  import opened Basics
  import opened Crypto
  import opened Schema
  import opened Allocation
  import opened Sessions
  import opened Routing
  import opened Invariant
  import opened Lifecycle
  import opened Steps
  import Phone

  // ---- Writing one row ------------------------------------------------------------------------

  /** A write of one existing row that keeps it well formed, and only ends or prolongs it. */
  ghost predicate Rewrites(db: Db, after: Db, sid: nat, row: Session, p: Parties) {
    && sid in db.sessions && sid in db.parties
    && after.numbers == db.numbers && after.nextNumber == db.nextNumber && after.nextSession == db.nextSession
    && after.now == db.now && after.cache == db.cache && after.forgotten == db.forgotten
    && after.sessions == db.sessions[sid := row] && after.parties == db.parties[sid := p]
    && row.number == db.sessions[sid].number && row.extCode == db.sessions[sid].extCode
    && (row.status == Active ==> db.sessions[sid].status == Active)
    && p.a.hash == db.parties[sid].a.hash && p.b.hash == db.parties[sid].b.hash
    && RowOk(row, db.now) && Mirrors(p, row)
  }

  lemma RewriteKeepsCore(db: Db, after: Db, sid: nat, row: Session, p: Parties)
    requires Core(db) && Rewrites(db, after, sid, row, p)
    ensures Core(after)
  {
    forall j | j in db.sessions && j != sid ensures Apart(row, p, db.sessions[j], db.parties[j]) {
      assert Apart(db.sessions[sid], db.parties[sid], db.sessions[j], db.parties[j]);
    }
    PutKeepsApart(db.sessions, db.parties, sid, row, p);
    PutKeepsRows(db.sessions, db.parties, db.numbers, db.nextSession, db.now, sid, row, p);
    hide RowsOk, AllApart, NumbersOk;
  }

  lemma RewriteKeepsCache(db: Db, after: Db, sid: nat, row: Session, p: Parties, stale: set<nat>)
    requires CacheOk(db, stale) && Rewrites(db, after, sid, row, p)
    ensures CacheOk(after, stale + {row.number})
  {
    var more := stale + {row.number};
    forall key | key in after.cache && !Stale(after, key.proxy, more)
      ensures !Stale(db, key.proxy, stale) && SameOnProxy(db, after, key.proxy)
    {
      assert row.number in more;
      assert E164Of(after, row.number) != key.proxy;
      forall m | m in stale ensures E164Of(db, m) != key.proxy { assert m in more; }
    }
    CacheFrame(db, after, stale, more);
  }

  // ---- Extend ---------------------------------------------------------------------------------

  lemma ExtendKeepsInv(s: Settings, db: Db, sid: nat, ttl: Option<int>, expiresAt: Option<int>)
    requires Inv(db)
    ensures Inv(ExtendSession(s, db, sid, ttl, expiresAt).0)
  {
    hide Core, CacheOk, History, Invalidate, NewExpiry;
    var expiry := NewExpiry(s, db.now, ttl, expiresAt);
    if sid in db.sessions && db.sessions[sid].status == Active && expiry.Ok? {
      var row := db.sessions[sid].(expiresAt := expiry.value);
      var after := WriteSession(db, sid, row);
      CoreRow(db, sid);
      assert after == db.(sessions := db.sessions[sid := row]);
      assert db.parties[sid := db.parties[sid]] == db.parties;
      assert Rewrites(db, after, sid, row, db.parties[sid]);
      ExtendWrite(db, after, sid, row);
      InvalidateClears(after, row.number, {}, {row.number});
      assert {row.number} - {row.number} == {} && E164Of(after, row.number) == E164Of(db, row.number);
      hide Inv, Sound;
      assert Inv(Invalidate(after, E164Of(db, row.number)));
    }
  }

  lemma SoundWhole(db: Db, idle: set<nat>, stale: set<nat>)
    requires Core(db) && db.sessions.Keys == db.parties.Keys && History(db, idle) && CacheOk(db, stale)
    ensures Sound(db, idle, stale)
  {
  }

  lemma ExtendWrite(db: Db, after: Db, sid: nat, row: Session)
    requires Inv(db) && sid in db.parties && Rewrites(db, after, sid, row, db.parties[sid])
    requires after == db.(sessions := db.sessions[sid := row])
    requires row.status == db.sessions[sid].status && row.closedAt == db.sessions[sid].closedAt
    ensures Sound(after, {}, {row.number})
  {
    CoreKeys(db);
    assert sid in db.sessions && row.number == db.sessions[sid].number;
    hide Core, CacheOk, History, Rewrites, Mirrors, RowOk;
    ExtendKeepsHistory(db, sid, row);
    assert {} + {row.number} == {row.number};
    hide *;
    RewriteKeepsCore(db, after, sid, row, db.parties[sid]);
    RewriteKeepsCache(db, after, sid, row, db.parties[sid], {});
    SoundWhole(after, {}, {row.number});
  }

  lemma ExtendKeepsHistory(db: Db, sid: nat, row: Session)
    requires db.sessions.Keys == db.parties.Keys && History(db, {})
    requires sid in db.sessions && row.number == db.sessions[sid].number
    requires row.status == db.sessions[sid].status && row.closedAt == db.sessions[sid].closedAt
    ensures History(db.(sessions := db.sessions[sid := row]), {})
  {
    forall c | c in db.closures ensures ReleasedAfter(db.numbers, db.sessions[sid := row], c) {
      assert ReleasedAfter(db.numbers, db.sessions, c);
      ActiveFrame(db.sessions, sid, row, c.number);
    }
    forall i | i in db.sessions ensures Recorded(db.closures, db.sessions[sid := row][i], db.parties[i]) {
      assert Recorded(db.closures, db.sessions[i], db.parties[i]);
    }
  }

  // ---- Ending and releasing --------------------------------------------------------------------

  function EndedRow(db: Db, sid: nat, status: Status): Session
    requires sid in db.sessions
  {
    db.sessions[sid].(status := status, closedAt := Some(db.now))
  }

  function EndedPair(db: Db, sid: nat, status: Status): Parties
    requires sid in db.sessions && sid in db.parties
  {
    SyncParties(db.parties[sid], EndedRow(db, sid, status))
  }

  lemma EndIs(db: Db, sid: nat, status: Status)
    requires sid in db.sessions && sid in db.parties && db.sessions[sid].status == Active && status != Active
    ensures var row, p := EndedRow(db, sid, status), EndedPair(db, sid, status);
            EndSession(db, sid, status) ==
            db.(sessions := db.sessions[sid := row], parties := db.parties[sid := p],
                closures := db.closures + {Closure(row.number, p.a.hash, db.now, db.nextSession),
                    Closure(row.number, p.b.hash, db.now, db.nextSession)})
  {
  }

  lemma EndWrites(db: Db, sid: nat, status: Status)
    requires Core(db) && sid in db.sessions && db.sessions[sid].status == Active && status != Active
    ensures Rewrites(db, EndSession(db, sid, status), sid, EndedRow(db, sid, status), EndedPair(db, sid, status))
  {
    CoreRow(db, sid);
    hide Core;
    var row, p := EndedRow(db, sid, status), EndedPair(db, sid, status);
    assert Mirrors(p, row) && RowOk(row, db.now);
    hide Mirrors, RowOk, EndSession;
    EndIs(db, sid, status);
  }

  /** Ending a session leaves its number's release and its cached decisions pending. */
  lemma EndKeepsSound(db: Db, sid: nat, status: Status, idle: set<nat>, stale: set<nat>)
    requires Sound(db, idle, stale)
    requires sid in db.sessions && db.sessions[sid].status == Active && status != Active
    ensures var n := db.sessions[sid].number;
            Sound(EndSession(db, sid, status), idle + {n}, stale + {n})
  {
    EndWrites(db, sid, status);
    EndIs(db, sid, status);
    var after := EndSession(db, sid, status);
    var row, p := EndedRow(db, sid, status), EndedPair(db, sid, status);
    RewriteKeepsCore(db, after, sid, row, p);
    RewriteKeepsCache(db, after, sid, row, p, stale);
    EndKeepsHistory(db, after, sid, row, p, idle);
    hide Core, History, CacheOk, EndSession;
  }

  lemma ActiveFrame(ss: map<nat, Session>, sid: nat, row: Session, n: nat)
    requires sid in ss && row.number == ss[sid].number && (row.number == n ==> row.status == ss[sid].status)
    ensures ActiveOn(ss[sid := row], n) == ActiveOn(ss, n)
  {
  }

  lemma EndKeepsHistory(db: Db, after: Db, sid: nat, row: Session, p: Parties, idle: set<nat>)
    requires db.sessions.Keys == db.parties.Keys && History(db, idle) && Rewrites(db, after, sid, row, p)
    requires row.closedAt == Some(db.now)
    requires after.closures == db.closures + {Closure(row.number, p.a.hash, db.now, db.nextSession),
               Closure(row.number, p.b.hash, db.now, db.nextSession)}
    requires row.number in db.numbers
    ensures History(after, idle + {row.number})
  {
    hide Mirrors, RowOk;
    forall i | i in after.sessions ensures Recorded(after.closures, after.sessions[i], after.parties[i]) {
      assert i != sid ==> Recorded(db.closures, db.sessions[i], db.parties[i]);
    }
    forall c | c in after.closures && c.number !in idle + {row.number}
      ensures ReleasedAfter(after.numbers, after.sessions, c)
    {
      assert c in db.closures && ReleasedAfter(db.numbers, db.sessions, c);
      ActiveFrame(db.sessions, sid, row, c.number);
    }
  }

  lemma MarkKeepsSound(db: Db, n: nat, idle: set<nat>, stale: set<nat>)
    requires Sound(db, idle, stale) && n in db.numbers
    ensures Sound(MarkReleased(db, n), idle - {n}, stale)
  {
    MarkKeepsHistory(db, n, idle);
    MarkKeepsCache(db, n, stale);
    MarkKeepsCore(db, n);
    hide Core, History, CacheOk, MarkReleased;
  }

  lemma MarkKeepsCache(db: Db, n: nat, stale: set<nat>)
    requires CacheOk(db, stale) && n in db.numbers
    ensures CacheOk(MarkReleased(db, n), stale)
  {
    var after := MarkReleased(db, n);
    assert after.now == db.now && after.sessions == db.sessions && after.parties == db.parties;
    forall m ensures E164Of(after, m) == E164Of(db, m) && (m in after.numbers <==> m in db.numbers) {}
    forall proxy ensures SameOnProxy(db, after, proxy) {
      MarkSameOnProxy(db, after, proxy);
    }
    forall proxy | Stale(db, proxy, stale) ensures Stale(after, proxy, stale) {
      var m :| m in stale && E164Of(db, m) == proxy;
      assert E164Of(after, m) == proxy;
    }
    hide MarkReleased, SameOnProxy;
    CacheFrame(db, after, stale, stale);
  }

  lemma MarkSameOnProxy(db: Db, after: Db, proxy: string)
    requires after.sessions == db.sessions && after.parties == db.parties
    requires forall m :: E164Of(after, m) == E164Of(db, m) && (m in after.numbers <==> m in db.numbers)
    ensures SameOnProxy(db, after, proxy)
  {
    forall sid ensures Belongs(db, sid, proxy) <==> Belongs(after, sid, proxy) {
      if sid in db.sessions { assert E164Of(after, db.sessions[sid].number) == E164Of(db, db.sessions[sid].number); }
    }
  }

  lemma MarkKeepsCore(db: Db, n: nat)
    requires Core(db) && n in db.numbers
    ensures Core(MarkReleased(db, n))
  {
    var after := MarkReleased(db, n);
    hide AllApart, ActiveOn, Mirrors, RowOk, Phone.IsE164;
    forall i, j | i in after.numbers && j in after.numbers && i != j
      ensures !SameE164(after.numbers[i], after.numbers[j])
    {
      assert !SameE164(db.numbers[i], db.numbers[j]);
    }
  }

  lemma MarkKeepsHistory(db: Db, n: nat, idle: set<nat>)
    requires db.sessions.Keys == db.parties.Keys && History(db, idle) && n in db.numbers
    ensures History(MarkReleased(db, n), idle - {n})
  {
    var after := MarkReleased(db, n);
    forall c | c in after.closures && c.number !in idle - {n} ensures ReleasedAfter(after.numbers, after.sessions, c) {
      if c.number != n { assert c.number !in idle && ReleasedAfter(db.numbers, db.sessions, c); }
    }
  }

  /** Releasing a number settles what was pending about it. */
  lemma ReleaseKeepsSound(db: Db, n: nat, idle: set<nat>, stale: set<nat>)
    requires Sound(db, idle, stale) && n in db.numbers
    ensures Sound(Release(db, n), idle - {n}, stale - {n})
  {
    MarkKeepsSound(db, n, idle, stale);
    var marked := MarkReleased(db, n);
    assert E164Of(marked, n) == E164Of(db, n);
    InvalidateClears(marked, n, idle - {n}, stale);
  }

  lemma CloseKeepsInv(db: Db, sid: nat, status: Status)
    requires Inv(db) && status != Active
    ensures Inv(CloseSession(db, sid, status).0)
  {
    if sid in db.sessions && db.sessions[sid].status == Active {
      var n := db.sessions[sid].number;
      EndKeepsSound(db, sid, status, {}, {});
      ReleaseKeepsSound(EndSession(db, sid, status), n, {} + {n}, {} + {n});
      assert {} + {n} - {n} == {};
    }
  }

  // ---- The sweep ---------------------------------------------------------------------------------

  function NumbersOf(db: Db, rows: seq<nat>): set<nat>
    requires forall i :: 0 <= i < |rows| ==> rows[i] in db.sessions
  {
    set i | 0 <= i < |rows| :: db.sessions[rows[i]].number
  }

  ghost predicate Sweepable(db: Db, rows: seq<nat>) {
    && (forall i :: 0 <= i < |rows| ==> rows[i] in db.sessions && db.sessions[rows[i]].status == Active)
    && (forall i, j :: 0 <= i < j < |rows| ==> rows[i] != rows[j])
  }

  lemma RestSweepable(db: Db, rows: seq<nat>)
    requires Sweepable(db, rows) && rows != [] && db.sessions.Keys == db.parties.Keys
    ensures var step := EndSession(db, rows[0], Expired);
            && Sweepable(step, rows[1..])
            && step.sessions.Keys == db.sessions.Keys && step.parties.Keys == step.sessions.Keys
            && (forall sid :: sid in db.sessions ==> step.sessions[sid].number == db.sessions[sid].number)
  {
    EndIs(db, rows[0], Expired);
    hide EndSession;
    assert forall i :: 0 <= i < |rows[1..]| ==> rows[1..][i] == rows[i + 1];
  }

  lemma {:induction false} EndAllKeepsSound(db: Db, rows: seq<nat>, idle: set<nat>, stale: set<nat>)
    requires db.sessions.Keys == db.parties.Keys
    requires Sound(db, idle, stale) && Sweepable(db, rows)
    ensures var after := EndAll(db, rows); var touched := NumbersOf(db, rows);
            && Sound(after, idle + touched, stale + touched)
            && after.sessions.Keys == db.sessions.Keys
            && (forall sid :: sid in db.sessions ==> after.sessions[sid].number == db.sessions[sid].number)
    decreases |rows|
  {
    hide Sound;
    if rows == [] {
      assert idle + NumbersOf(db, rows) == idle && stale + NumbersOf(db, rows) == stale;
    } else {
      var n := db.sessions[rows[0]].number;
      var step := EndSession(db, rows[0], Expired);
      EndKeepsSound(db, rows[0], Expired, idle, stale);
      RestSweepable(db, rows);
      TouchedSplit(db, step, rows, idle);
      TouchedSplit(db, step, rows, stale);
      hide EndSession, NumbersOf;
      EndAllKeepsSound(step, rows[1..], idle + {n}, stale + {n});
    }
  }

  lemma TouchedSplit(db: Db, step: Db, rows: seq<nat>, pending: set<nat>)
    requires rows != [] && forall i :: 0 <= i < |rows| ==> rows[i] in db.sessions
    requires step.sessions.Keys == db.sessions.Keys
    requires forall sid :: sid in db.sessions ==> step.sessions[sid].number == db.sessions[sid].number
    ensures pending + {db.sessions[rows[0]].number} + NumbersOf(step, rows[1..]) == pending + NumbersOf(db, rows)
  {
    assert forall i :: 1 <= i < |rows| ==> rows[1..][i - 1] == rows[i];
    forall n | n in NumbersOf(db, rows) ensures n == db.sessions[rows[0]].number || n in NumbersOf(step, rows[1..]) {
      var i :| 0 <= i < |rows| && db.sessions[rows[i]].number == n;
      if i > 0 { assert step.sessions[rows[1..][i - 1]].number == n; }
    }
  }

  lemma RestReleased(db: Db, step: Db, rows: seq<nat>, pending: set<nat>)
    requires rows != [] && forall i :: 0 <= i < |rows| ==> rows[i] in db.sessions
    requires step.sessions == db.sessions
    ensures pending - {db.sessions[rows[0]].number} - NumbersOf(step, rows[1..]) == pending - NumbersOf(db, rows)
  {
    TouchedSplit(db, step, rows, {});
    assert {} + {db.sessions[rows[0]].number} == {db.sessions[rows[0]].number};
    assert {} + NumbersOf(db, rows) == NumbersOf(db, rows);
  }

  lemma {:induction false} ReleaseAllKeepsSound(db: Db, rows: seq<nat>, idle: set<nat>, stale: set<nat>)
    requires Sound(db, idle, stale)
    requires forall i :: 0 <= i < |rows| ==> rows[i] in db.sessions && db.sessions[rows[i]].number in db.numbers
    ensures Sound(ReleaseAll(db, rows), idle - NumbersOf(db, rows), stale - NumbersOf(db, rows))
    decreases |rows|
  {
    hide Sound;
    if rows == [] {
      assert idle - NumbersOf(db, rows) == idle && stale - NumbersOf(db, rows) == stale;
    } else {
      var n := db.sessions[rows[0]].number;
      ReleaseKeepsSound(db, n, idle, stale);
      RestReleased(db, Release(db, n), rows, idle);
      RestReleased(db, Release(db, n), rows, stale);
      assert Release(db, n).sessions == db.sessions && Release(db, n).numbers.Keys == db.numbers.Keys;
      hide Release, NumbersOf;
      ReleaseAllKeepsSound(Release(db, n), rows[1..], idle - {n}, stale - {n});
    }
  }

  lemma SweepKeepsInv(c: Config, db: Db, limit: nat)
    requires Inv(db)
    ensures Inv(Sweep(c, db, limit).0)
  {
    assert db.sessions.Keys == db.parties.Keys;
    DueSweepable(c, db, limit);
    hide Sound, DueRows, Sweepable;
    EndAllKeepsKeys(db, DueRows(c, db, limit));
    EndAndRelease(db, DueRows(c, db, limit));
  }

  lemma DueSweepable(c: Config, db: Db, limit: nat)
    ensures Sweepable(db, DueRows(c, db, limit))
  {
  }

  lemma EndAndRelease(db: Db, rows: seq<nat>)
    requires db.sessions.Keys == db.parties.Keys
    requires Sound(db, {}, {}) && Sweepable(db, rows)
    requires EndAll(db, rows).sessions.Keys == db.sessions.Keys
    ensures Sound(ReleaseAll(EndAll(db, rows), rows), {}, {})
  {
    hide Sound, EndAll, ReleaseAll, NumbersOf;
    var touched := NumbersOf(db, rows);
    EndAllKeepsSound(db, rows, {}, {});
    var ended := EndAll(db, rows);
    assert Core(ended) by { SoundCore(ended, {} + touched, {} + touched); }
    hide Core;
    EndedNumbers(db, ended, rows);
    SameNumbers(db, ended, rows);
    assert {} + touched == touched && touched - touched == {};
    ReleaseAllKeepsSound(ended, rows, touched, touched);
  }

  lemma SoundCore(db: Db, idle: set<nat>, stale: set<nat>)
    requires Sound(db, idle, stale)
    ensures Core(db)
  {
  }

  lemma SameNumbers(db: Db, ended: Db, rows: seq<nat>)
    requires forall i :: 0 <= i < |rows| ==> rows[i] in db.sessions && rows[i] in ended.sessions
    requires forall sid :: sid in db.sessions && sid in ended.sessions ==>
               ended.sessions[sid].number == db.sessions[sid].number
    ensures NumbersOf(ended, rows) == NumbersOf(db, rows)
  {
  }

  lemma EndedNumbers(db: Db, ended: Db, rows: seq<nat>)
    requires Core(ended) && forall i :: 0 <= i < |rows| ==> rows[i] in ended.sessions
    ensures forall i :: 0 <= i < |rows| ==> ended.sessions[rows[i]].number in ended.numbers
  {
  }

  // ---- Purge, time, the pool -------------------------------------------------------------------------

  lemma PurgeKeepsInv(s: Settings, db: Db)
    requires Inv(db)
    ensures Inv(Purge(s, db))
  {
    PurgeKeepsHistory(s, db);
    PurgeKeepsCore(s, db);
    PurgeKeepsCache(s, db);
    hide Core, History, CacheOk, Purge;
  }

  lemma PurgeKeepsHistory(s: Settings, db: Db)
    requires db.sessions.Keys == db.parties.Keys && History(db, {})
    ensures History(Purge(s, db), {})
  {
    var after := Purge(s, db);
    forall c | c in after.closures ensures ReleasedAfter(after.numbers, after.sessions, c) {
      assert ReleasedAfter(db.numbers, db.sessions, c);
      PurgeKeepsActive(s, db, c.number);
    }
  }

  lemma PurgeKeepsActive(s: Settings, db: Db, n: nat)
    ensures ActiveOn(Purge(s, db).sessions, n) == ActiveOn(db.sessions, n)
  {
  }

  lemma PurgeKeepsCore(s: Settings, db: Db)
    requires Core(db)
    ensures Core(Purge(s, db))
  {
    PurgeKeepsApart(s, db);
    hide KeysOf, Doomed, NumbersOk, AllApart, Apart;
  }

  lemma PurgeKeepsApart(s: Settings, db: Db)
    requires Core(db)
    ensures var after := Purge(s, db); AllApart(after.sessions, after.parties)
  {
    var after := Purge(s, db);
    CoreKeys(db);
    hide Core, KeysOf, Doomed, AllApart, Apart;
    forall i, j | i in after.sessions && j in after.sessions && i != j
      ensures i in after.parties && j in after.parties
                && Apart(after.sessions[i], after.parties[i], after.sessions[j], after.parties[j])
    {
      CoreApart(db, i, j);
    }
    AllApartIs(after.sessions, after.parties);
  }

  lemma AllApartIs(ss: map<nat, Session>, ps: map<nat, Parties>)
    requires ss.Keys == ps.Keys
    requires forall i, j :: i in ss && j in ss && i != j ==> Apart(ss[i], ps[i], ss[j], ps[j])
    ensures AllApart(ss, ps)
  {
  }

  lemma PurgeKeepsLive(s: Settings, db: Db, proxy: string, caller: PartyHash)
    ensures Live(Purge(s, db), proxy, caller) == Live(db, proxy, caller)
    ensures HadSession(Purge(s, db), proxy, caller) ==> HadSession(db, proxy, caller)
    ensures HadSession(db, proxy, caller) && !HadSession(Purge(s, db), proxy, caller) ==>
              CacheKey(proxy, caller) in Purge(s, db).forgotten
  {
    var after := Purge(s, db);
    forall sid | IsLive(db, sid, proxy, caller) ensures IsLive(after, sid, proxy, caller) {}
    if HadSession(after, proxy, caller) {
      var sid :| sid in after.sessions && OnProxy(after, sid, proxy, caller);
      assert OnProxy(db, sid, proxy, caller);
    } else if HadSession(db, proxy, caller) {
      var sid :| sid in db.sessions && OnProxy(db, sid, proxy, caller);
      assert !OnProxy(after, sid, proxy, caller);
      assert sid in Doomed(db, db.now - s.sessionRetentionDays * DAY);
      assert CacheKey(E164Of(db, db.sessions[sid].number), db.parties[sid].a.hash) in after.forgotten;
      assert CacheKey(E164Of(db, db.sessions[sid].number), db.parties[sid].b.hash) in after.forgotten;
    }
  }

  lemma PurgeKeepsCache(s: Settings, db: Db)
    requires CacheOk(db, {})
    ensures CacheOk(Purge(s, db), {})
  {
    var after := Purge(s, db);
    forall key | key in after.cache && after.now < after.cache[key].deadline
        ensures EntryOk(after, key, after.cache[key]) {
      assert !Stale(db, key.proxy, {}) && EntryOk(db, key, db.cache[key]);
      PurgeKeepsLive(s, db, key.proxy, key.caller);
      var entry := db.cache[key];
      if entry.payload.Route? {
        assert entry.payload.session in Live(after, key.proxy, key.caller);
      }
    }
  }

  lemma TickKeepsInv(db: Db, elapsed: nat)
    requires Inv(db)
    ensures Inv(Tick(db, elapsed))
  {
    assert History(Tick(db, elapsed), {});
    TickKeepsCore(db, elapsed);
    TickKeepsCache(db, elapsed);
    hide Core, History, CacheOk;
  }

  lemma TickKeepsCore(db: Db, elapsed: nat)
    requires Core(db)
    ensures Core(Tick(db, elapsed))
  {
  }

  lemma TickKeepsCache(db: Db, elapsed: nat)
    requires CacheOk(db, {})
    ensures CacheOk(Tick(db, elapsed), {})
  {
    var after := Tick(db, elapsed);
    forall key | key in after.cache && after.now < after.cache[key].deadline
        ensures EntryOk(after, key, after.cache[key]) {
      var entry := db.cache[key];
      assert !Stale(db, key.proxy, {}) && EntryOk(db, key, entry);
      assert HadSession(after, key.proxy, key.caller) <==> HadSession(db, key.proxy, key.caller) by {
        forall sid ensures OnProxy(after, sid, key.proxy, key.caller) == OnProxy(db, sid, key.proxy, key.caller) {}
      }
      forall sid | IsLive(after, sid, key.proxy, key.caller) ensures IsLive(db, sid, key.proxy, key.caller) {}
      assert Live(after, key.proxy, key.caller) <= Live(db, key.proxy, key.caller);
      if entry.payload.Route? {
        var sid := entry.payload.session;
        assert sid in Live(db, key.proxy, key.caller);
        assert IsLive(after, sid, key.proxy, key.caller);
      }
    }
  }
}
