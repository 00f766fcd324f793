/**
 What each operation of the pool keeps: the invariant, the closing history and the cache.

 Inside a transaction a number can be `idle`-pending (a session of it ended, its release not yet
 recorded) or `stale`-pending (its cached decisions not yet dropped); outside, nothing is pending.
 */
module Lifecycle {
  import opened Basics
  import opened Crypto
  import opened Schema
  import opened Allocation
  import opened Sessions
  import opened Routing
  import opened Invariant
  import Phone

  // ---- History -----------------------------------------------------------------------------

  /** An idle number was released no earlier than this closure. */
  ghost predicate ReleasedAfter(numbers: map<nat, Number>, ss: map<nat, Session>, c: Closure) {
    ActiveOn(ss, c.number) == {} ==>
      c.number in numbers && numbers[c.number].releasedAt.Some? && c.at <= numbers[c.number].releasedAt.value
  }

  ghost predicate Recorded(closures: set<Closure>, row: Session, p: Parties) {
    row.closedAt.Some? ==>
      && Ended(closures, row.number, p.a.hash, row.closedAt.value)
      && Ended(closures, row.number, p.b.hash, row.closedAt.value)
  }

  ghost predicate Ended(closures: set<Closure>, n: nat, party: PartyHash, at: int) {
    exists before: nat :: Closure(n, party, at, before) in closures
  }

  ghost predicate History(db: Db, idle: set<nat>)
    requires db.sessions.Keys == db.parties.Keys
  {
    && (forall c :: c in db.closures ==> c.number in db.numbers && c.at <= db.now)
    && (forall n :: n in db.numbers && db.numbers[n].releasedAt.Some? ==> db.numbers[n].releasedAt.value <= db.now)
    && (forall sid {:trigger Recorded(db.closures, db.sessions[sid], db.parties[sid])} :: sid in db.sessions ==>
          Recorded(db.closures, db.sessions[sid], db.parties[sid]))
    && (forall c {:trigger ReleasedAfter(db.numbers, db.sessions, c)} :: c in db.closures && c.number !in idle ==>
          ReleasedAfter(db.numbers, db.sessions, c))
  }

  // ---- Cache -------------------------------------------------------------------------------

  /** A visible entry says what the query would. */
  ghost predicate EntryOk(db: Db, key: CacheKey, entry: CacheEntry) {
    match entry.payload
    case Miss(expired) =>
      && Live(db, key.proxy, key.caller) == {}
      && (HadSession(db, key.proxy, key.caller) ==> expired)
      && (expired && !HadSession(db, key.proxy, key.caller) ==> key in db.forgotten)
    case Route(sid, direction, callee, _, expiresAt) =>
      && Live(db, key.proxy, key.caller) == {sid}
      && sid in db.sessions && sid in db.parties
      && db.sessions[sid].maxCalls.None?
      && db.sessions[sid].expiresAt == expiresAt
      && entry.deadline <= expiresAt
      && direction == DirectionOf(db.parties[sid], key.caller)
      && callee == OtherRow(db.parties[sid], key.caller).sealed
  }

  ghost predicate Stale(db: Db, proxy: string, stale: set<nat>) {
    exists n :: n in stale && E164Of(db, n) == proxy
  }

  ghost predicate CacheOk(db: Db, stale: set<nat>) {
    forall key {:trigger EntryOk(db, key, db.cache[key])} ::
      key in db.cache && db.now < db.cache[key].deadline && !Stale(db, key.proxy, stale) ==>
      EntryOk(db, key, db.cache[key])
  }

  ghost predicate Sound(db: Db, idle: set<nat>, stale: set<nat>) {
    Core(db) && History(db, idle) && CacheOk(db, stale)
  }

  ghost predicate Inv(db: Db) {
    Sound(db, {}, {})
  }

  // ---- What a cache entry depends on ---------------------------------------------------------

  ghost predicate Belongs(db: Db, sid: nat, proxy: string) {
    && sid in db.sessions && sid in db.parties && db.sessions[sid].number in db.numbers
    && db.numbers[db.sessions[sid].number].e164 == proxy
  }

  ghost predicate SameSession(x: Db, y: Db, sid: nat)
    requires sid in x.sessions && sid in x.parties && sid in y.sessions && sid in y.parties
  {
    && x.sessions[sid].(extCode := y.sessions[sid].extCode) == y.sessions[sid]
    && SamePartyButPin(x.parties[sid].a, y.parties[sid].a)
    && SamePartyButPin(x.parties[sid].b, y.parties[sid].b)
  }

  /** The two states hold the same sessions on this proxy, PINs aside. */
  ghost predicate SameOnProxy(x: Db, y: Db, proxy: string) {
    && (forall sid :: Belongs(x, sid, proxy) <==> Belongs(y, sid, proxy))
    && (forall sid :: Belongs(x, sid, proxy) && Belongs(y, sid, proxy) ==> SameSession(x, y, sid))
  }

  lemma OnProxyFrame(x: Db, y: Db, sid: nat, proxy: string, caller: PartyHash)
    requires x.now == y.now && SameOnProxy(x, y, proxy)
    ensures OnProxy(x, sid, proxy, caller) <==> OnProxy(y, sid, proxy, caller)
    ensures IsLive(x, sid, proxy, caller) <==> IsLive(y, sid, proxy, caller)
  {
    assert Belongs(x, sid, proxy) <==> Belongs(y, sid, proxy);
    if Belongs(x, sid, proxy) && Belongs(y, sid, proxy) { assert SameSession(x, y, sid); }
  }

  lemma ViewFrame(x: Db, y: Db, proxy: string, caller: PartyHash)
    requires x.now == y.now && SameOnProxy(x, y, proxy)
    ensures Live(x, proxy, caller) == Live(y, proxy, caller)
    ensures HadSession(x, proxy, caller) <==> HadSession(y, proxy, caller)
  {
    forall sid ensures OnProxy(x, sid, proxy, caller) <==> OnProxy(y, sid, proxy, caller)
      ensures IsLive(x, sid, proxy, caller) <==> IsLive(y, sid, proxy, caller)
    {
      OnProxyFrame(x, y, sid, proxy, caller);
    }
    LiveIsLive(x, proxy, caller);
    LiveIsLive(y, proxy, caller);
    assert forall sid :: OnProxy(x, sid, proxy, caller) ==> sid in x.sessions;
    assert forall sid :: OnProxy(y, sid, proxy, caller) ==> sid in y.sessions;
  }

  lemma LiveIsLive(db: Db, proxy: string, caller: PartyHash)
    ensures forall sid :: sid in Live(db, proxy, caller) <==> IsLive(db, sid, proxy, caller)
  {
  }

  lemma EntryFrame(x: Db, y: Db, key: CacheKey, entry: CacheEntry)
    requires x.now == y.now && SameOnProxy(x, y, key.proxy) && x.forgotten <= y.forgotten
    requires EntryOk(x, key, entry)
    ensures EntryOk(y, key, entry)
  {
    ViewFrame(x, y, key.proxy, key.caller);
    if entry.payload.Route? {
      var sid := entry.payload.session;
      assert sid in Live(x, key.proxy, key.caller) && sid in Live(y, key.proxy, key.caller);
      assert Belongs(x, sid, key.proxy) && Belongs(y, sid, key.proxy);
      assert SameSession(x, y, sid);
    }
  }

  /** Entries of proxies where nothing changed stay right. */
  lemma CacheFrame(x: Db, y: Db, before: set<nat>, after: set<nat>)
    requires CacheOk(x, before)
    requires x.now == y.now && x.forgotten <= y.forgotten
    requires forall key :: key in y.cache ==> key in x.cache && y.cache[key] == x.cache[key]
    requires forall key :: key in y.cache && !Stale(y, key.proxy, after) ==>
               !Stale(x, key.proxy, before) && SameOnProxy(x, y, key.proxy)
    ensures CacheOk(y, after)
  {
    forall key | key in y.cache && y.now < y.cache[key].deadline && !Stale(y, key.proxy, after)
      ensures EntryOk(y, key, y.cache[key])
    {
      EntryFrame(x, y, key, x.cache[key]);
    }
  }
}
