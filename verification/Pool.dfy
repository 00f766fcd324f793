/** Pool changes and resolving keep the state sound; then every run does. */
module Pool {
  import opened Basics
  import opened Crypto
  import opened Schema
  import opened Allocation
  import opened Sessions
  import opened Routing
  import opened Invariant
  import opened Lifecycle
  import opened Steps
  import opened Upkeep
  import Phone

  // ---- Numbers ---------------------------------------------------------------------------

  /** A change of the pool that keeps every known number's digits. */
  ghost predicate Renumbers(db: Db, after: Db) {
    && after == db.(numbers := after.numbers, nextNumber := after.nextNumber)
    && NumbersOk(after.numbers, after.nextNumber)
    && (forall n :: n in db.numbers ==>
          n in after.numbers && after.numbers[n].e164 == db.numbers[n].e164
          && after.numbers[n].releasedAt == db.numbers[n].releasedAt)
    && (forall n :: n in after.numbers && n !in db.numbers ==> after.numbers[n].releasedAt.None?)
  }

  lemma RenumberKeepsInv(db: Db, after: Db)
    requires Inv(db) && Renumbers(db, after)
    ensures Inv(after)
  {
    RenumberKeepsCore(db, after);
    RenumberKeepsHistory(db, after);
    RenumberKeepsCache(db, after);
    hide Core, History, CacheOk, Renumbers;
  }

  lemma RenumberKeepsCore(db: Db, after: Db)
    requires Core(db) && Renumbers(db, after)
    ensures Core(after)
  {
  }

  lemma RenumberKeepsHistory(db: Db, after: Db)
    requires db.sessions.Keys == db.parties.Keys && History(db, {}) && Renumbers(db, after)
    ensures History(after, {})
  {
    forall c | c in after.closures ensures ReleasedAfter(after.numbers, after.sessions, c) {
      assert ReleasedAfter(db.numbers, db.sessions, c);
    }
  }

  lemma RenumberKeepsCache(db: Db, after: Db)
    requires Core(db) && CacheOk(db, {}) && Renumbers(db, after)
    ensures CacheOk(after, {})
  {
    forall proxy ensures SameOnProxy(db, after, proxy) {
      RenumberSameOnProxy(db, after, proxy);
    }
    hide Core, Renumbers, SameOnProxy;
    CacheFrame(db, after, {}, {});
  }

  lemma RenumberSameOnProxy(db: Db, after: Db, proxy: string)
    requires Core(db) && Renumbers(db, after)
    ensures SameOnProxy(db, after, proxy)
  {
    forall sid | sid in db.sessions ensures sid in db.parties && db.sessions[sid].number in db.numbers {
      CoreRow(db, sid);
    }
    hide Core;
    SameDigits(db, after, proxy);
  }

  lemma SameDigits(db: Db, after: Db, proxy: string)
    requires after == db.(numbers := after.numbers, nextNumber := after.nextNumber)
    requires forall sid :: sid in db.sessions ==> db.sessions[sid].number in db.numbers
    requires forall n :: n in db.numbers ==> n in after.numbers && after.numbers[n].e164 == db.numbers[n].e164
    ensures SameOnProxy(db, after, proxy)
  {
  }

  lemma AddNumberKeepsInv(db: Db, e164: string, enabled: bool)
    requires Inv(db)
    ensures Inv(AddNumber(db, e164, enabled).0)
  {
    hide Inv, Core, Phone.Normalize, Phone.IsE164, Renumbers;
    var (after, added) := AddNumber(db, e164, enabled);
    if added.Ok? {
      Phone.NormalizeIdempotent(e164);
      NumberAdded(db, Phone.Normalize(e164).value, enabled);
      RenumberKeepsInv(db, after);
    }
  }

  lemma NumberAdded(db: Db, e164: string, enabled: bool)
    requires Inv(db) && Phone.IsE164(e164)
    requires forall n :: n in db.numbers ==> db.numbers[n].e164 != e164
    ensures Renumbers(db,
              db.(numbers := db.numbers[db.nextNumber := Number(e164, enabled, None)], nextNumber := db.nextNumber + 1))
  {
    CoreKeys(db);
    assert NumbersOk(db.numbers, db.nextNumber);
    hide Inv, Phone.IsE164;
    var numbers := db.numbers[db.nextNumber := Number(e164, enabled, None)];
    forall m, n | m in numbers && n in numbers && m != n ensures !SameE164(numbers[m], numbers[n]) {
      if m in db.numbers && n in db.numbers { assert !SameE164(db.numbers[m], db.numbers[n]); }
    }
  }

  lemma SetNumberStatusKeepsInv(db: Db, e164: string, enabled: bool)
    requires Inv(db)
    ensures Inv(SetNumberStatus(db, e164, enabled).0)
  {
    var (after, result) := SetNumberStatus(db, e164, enabled);
    if result.Ok? {
      var n := result.value;
      var changed := db.(numbers := db.numbers[n := db.numbers[n].(enabled := enabled)]);
      forall i, j | i in changed.numbers && j in changed.numbers && i != j
        ensures !SameE164(changed.numbers[i], changed.numbers[j])
      {
        assert !SameE164(db.numbers[i], db.numbers[j]);
      }
      assert Renumbers(db, changed);
      RenumberKeepsInv(db, changed);
      InvalidateClears(changed, n, {}, {});
      assert {} - {n} == {};
    }
  }

  // ---- Resolving -------------------------------------------------------------------------

  lemma LiveCount(c: Config, db: Db, proxy: string, caller: PartyHash)
    ensures LoadCandidates(c, db, proxy, caller) == [] <==> Live(db, proxy, caller) == {}
    ensures |LoadCandidates(c, db, proxy, caller)| == 1 ==>
              Live(db, proxy, caller) == {LoadCandidates(c, db, proxy, caller)[0].session}
  {
    var rows, live := LiveRows(c, db, proxy, caller), Live(db, proxy, caller);
    if rows == [] {
      assert forall sid :: sid !in live;
    } else {
      assert rows[0] in live;
      if |rows| == 1 {
        assert rows == [rows[0]];
        assert forall sid :: sid in live <==> sid == rows[0];
        assert live == {rows[0]};
      }
    }
  }

  lemma SetKeepsCache(db: Db, key: CacheKey, payload: Payload, ttlSeconds: int)
    requires CacheOk(db, {})
    requires EntryOk(db, key, CacheEntry(payload, db.now + ttlSeconds * SECOND))
    ensures CacheOk(CacheSet(db, key, payload, ttlSeconds), {})
  {
    var after := CacheSet(db, key, payload, ttlSeconds);
    forall proxy ensures SameOnProxy(db, after, proxy) {}
    forall k | k in after.cache && after.now < after.cache[k].deadline ensures EntryOk(after, k, after.cache[k]) {
      if k != key { assert !Stale(db, k.proxy, {}) && EntryOk(db, k, db.cache[k]); }
      EntryFrame(db, after, k, after.cache[k]);
    }
  }

  lemma MirroredCipher(db: Db, sid: nat, caller: PartyHash)
    requires Core(db) && sid in db.sessions
    ensures OtherRow(db.parties[sid], caller).sealed == Sealed(CandidateOf(db, sid, caller).callee)
  {
  }

  lemma MissKeepsCache(c: Config, db: Db, key: CacheKey)
    requires CacheOk(db, {}) && LoadCandidates(c, db, key.proxy, key.caller) == []
    ensures CacheOk(CacheSet(db, key, Miss(HadSession(db, key.proxy, key.caller)), NEGATIVE_TTL_SECONDS), {})
  {
    LiveCount(c, db, key.proxy, key.caller);
    SetKeepsCache(db, key, Miss(HadSession(db, key.proxy, key.caller)), NEGATIVE_TTL_SECONDS);
  }

  lemma SingleEntryOk(c: Config, db: Db, key: CacheKey)
    requires Core(db) && |LoadCandidates(c, db, key.proxy, key.caller)| == 1
    ensures var only := LoadCandidates(c, db, key.proxy, key.caller)[0];
            only.maxCalls.None? ==>
              forall deadline :: deadline <= only.expiresAt ==>
                EntryOk(db, key,
                    CacheEntry(Route(only.session, only.direction, Sealed(only.callee), only.extCode, only.expiresAt),
                        deadline))
  {
    LiveCount(c, db, key.proxy, key.caller);
    var only := LoadCandidates(c, db, key.proxy, key.caller)[0];
    MirroredCipher(db, only.session, key.caller);
    hide Core;
  }

  lemma SingleKeepsCache(c: Config, db: Db, key: CacheKey)
    requires Core(db) && CacheOk(db, {}) && |LoadCandidates(c, db, key.proxy, key.caller)| == 1
    ensures CacheOk(CacheSingle(db, key, LoadCandidates(c, db, key.proxy, key.caller)[0]), {})
  {
    SingleEntryOk(c, db, key);
    hide *;
    EntryIsKept(db, key, LoadCandidates(c, db, key.proxy, key.caller)[0]);
  }

  lemma EntryIsKept(db: Db, key: CacheKey, only: Candidate)
    requires CacheOk(db, {})
    requires only.maxCalls.None? ==>
               forall deadline :: deadline <= only.expiresAt ==>
                 EntryOk(db, key,
                     CacheEntry(Route(only.session, only.direction, Sealed(only.callee), only.extCode, only.expiresAt),
                         deadline))
    ensures CacheOk(CacheSingle(db, key, only), {})
  {
    hide CacheOk, EntryOk, CacheSet;
    var left := only.expiresAt - db.now;
    var remaining := Min(left / SECOND, LOOKUP_TTL_SECONDS);
    if only.maxCalls.None? && remaining > 0 {
      assert remaining * SECOND <= left;
      SetKeepsCache(
        db, key, Route(only.session, only.direction, Sealed(only.callee), only.extCode, only.expiresAt), remaining);
    }
  }

  /** What an uncached decision stores is right for as long as it is visible. */
  lemma RememberKeepsCache(c: Config, db: Db, key: CacheKey)
    requires Core(db) && CacheOk(db, {})
    ensures CacheOk(Remember(db, key, Verdict(c, db, key.proxy, key.caller)), {})
  {
    hide Core, CacheOk, LoadCandidates, HadSession, CacheSet, CacheSingle;
    var candidates := LoadCandidates(c, db, key.proxy, key.caller);
    if candidates == [] {
      MissKeepsCache(c, db, key);
    } else if |candidates| == 1 {
      SingleKeepsCache(c, db, key);
    }
  }

  lemma CacheWriteKeepsSound(db: Db, after: Db)
    requires Inv(db) && after == db.(cache := after.cache) && CacheOk(after, {})
    ensures Inv(after)
  {
    HistoryFrame(db, after, {});
    assert Core(after);
    hide Core, History, CacheOk;
  }

  lemma ResolveKeepsInv(c: Config, db: Db, dialled: string, caller: string)
    requires Inv(db)
    ensures Inv(Resolve(c, db, dialled, caller).0)
  {
    var number := Phone.Normalize(caller);
    if number.Ok? {
      var key := CacheKey(ProxyOf(dialled), PartyHash(number.value));
      RememberKeepsCache(c, db, key);
      RememberWrites(db, key, Verdict(c, db, key.proxy, key.caller));
      hide Inv, Verdict, Remember;
      CacheWriteKeepsSound(db, Remember(db, key, Verdict(c, db, key.proxy, key.caller)));
    }
  }

  lemma RememberWrites(db: Db, key: CacheKey, decision: Decision)
    ensures Remember(db, key, decision) == db.(cache := Remember(db, key, decision).cache)
  {
  }

  lemma ResolveWrites(c: Config, db: Db, dialled: string, caller: string)
    ensures Resolve(c, db, dialled, caller).0 == db.(cache := Resolve(c, db, dialled, caller).0.cache)
  {
    var number := Phone.Normalize(caller);
    if number.Ok? {
      var key := CacheKey(ProxyOf(dialled), PartyHash(number.value));
      RememberWrites(db, key, Verdict(c, db, key.proxy, key.caller));
    }
    hide Verdict, Remember, Phone.Normalize, ProxyOf, FromCache;
  }

  // ---- Runs ------------------------------------------------------------------------------

  datatype Op =
    | OpAddNumber(e164: string, enabled: bool)
    | OpSetStatus(e164: string, enabled: bool)
    | OpCreate(request: Request, locked: set<nat>)
    | OpExtend(session: nat, ttl: Option<int>, expiresAt: Option<int>)
    | OpClose(session: nat, expired: bool)
    | OpSweep(limit: nat)
    | OpPurge
    | OpTick(elapsed: nat)
    | OpResolve(dialled: string, caller: string)

  /** One transaction, or the passing of time. */
  function Apply(c: Config, db: Db, op: Op): Db
    requires ValidSettings(c.settings)
  {
    match op
    case OpAddNumber(e164, enabled) => AddNumber(db, e164, enabled).0
    case OpSetStatus(e164, enabled) => SetNumberStatus(db, e164, enabled).0
    case OpCreate(request, locked) => CreateSession(c, db, request, locked).0
    case OpExtend(sid, ttl, expiresAt) => ExtendSession(c.settings, db, sid, ttl, expiresAt).0
    case OpClose(sid, expired) => CloseSession(db, sid, if expired then Expired else Closed).0
    case OpSweep(limit) => Sweep(c, db, limit).0
    case OpPurge => Purge(c.settings, db)
    case OpTick(elapsed) => Tick(db, elapsed)
    case OpResolve(dialled, caller) => Resolve(c, db, dialled, caller).0
  }

  lemma ApplyKeepsInv(c: Config, db: Db, op: Op)
    requires ValidSettings(c.settings) && Inv(db)
    ensures Inv(Apply(c, db, op))
  {
    hide Inv;
    match op
    case OpAddNumber(e164, enabled) => AddNumberKeepsInv(db, e164, enabled);
    case OpSetStatus(e164, enabled) => SetNumberStatusKeepsInv(db, e164, enabled);
    case OpCreate(request, locked) => CreateKeepsInv(c, db, request, locked);
    case OpExtend(sid, ttl, expiresAt) => ExtendKeepsInv(c.settings, db, sid, ttl, expiresAt);
    case OpClose(sid, expired) => CloseKeepsInv(db, sid, if expired then Expired else Closed);
    case OpSweep(limit) => SweepKeepsInv(c, db, limit);
    case OpPurge => PurgeKeepsInv(c.settings, db);
    case OpTick(elapsed) => TickKeepsInv(db, elapsed);
    case OpResolve(dialled, caller) => ResolveKeepsInv(c, db, dialled, caller);
  }

  /** The state after the operations, from an empty database at `start`. */
  function Run(c: Config, start: int, ops: seq<Op>): (db: Db)
    requires ValidSettings(c.settings)
  {
    if ops == [] then EmptyDb(start) else Apply(c, Run(c, start, ops[..|ops| - 1]), ops[|ops| - 1])
  }

  lemma {:induction false} RunInv(c: Config, start: int, ops: seq<Op>)
    requires ValidSettings(c.settings)
    ensures Inv(Run(c, start, ops))
    decreases |ops|
  {
    hide Inv, Apply;
    if ops == [] {
      EmptyInv(start);
    } else {
      var k := |ops| - 1;
      RunInv(c, start, ops[..k]);
      ApplyKeepsInv(c, Run(c, start, ops[..k]), ops[k]);
    }
  }

  lemma EmptyInv(start: int)
    ensures Inv(EmptyDb(start))
  {
  }

  /**
    Over every run: each party row mirrors its session, no index entry collides, and no creation can
    be refused by one.
   */
  lemma MirrorsAndIndexes(c: Config, start: int, ops: seq<Op>, r: Request, locked: set<nat>)
    requires ValidSettings(c.settings)
    ensures var db := Run(c, start, ops);
            && db.sessions.Keys == db.parties.Keys
            && (forall sid :: sid in db.sessions ==> Mirrors(db.parties[sid], db.sessions[sid]))
            && ExtCodesUnique(db) && PartiesUnique(db)
            && CreateSession(c, db, r, locked).1 != Err(AllocationConflict)
  {
    var db := Run(c, start, ops);
    RunInv(c, start, ops);
    IndexesHold(db);
    CreateKeepsInv(c, db, r, locked);
    hide CreateSession, ExtCodesUnique, PartiesUnique, Run, AllApart, NumbersOk;
  }
}
