/**
 The services as they run: one object holding the tables and the cache, whose methods change them
 step by step. Each method is proved to compute the function of the state that specifies it, so
 every theorem about those functions is one about these methods. A query is the comprehension its
 SQL denotes, its rows in the order the plan gives; `locked` holds what SKIP LOCKED skips.
 */
module Store {
  import opened Basics
  import opened Crypto
  import opened Schema
  import opened Allocation
  import opened Sessions
  import opened Routing
  import opened Invariant
  import opened Lifecycle
  import opened Steps
  import opened Upkeep
  import opened Pool
  import Phone

  class Store {
    const config: Config
    var now: int
    var numbers: map<nat, Number>
    var sessions: map<nat, Session>
    var parties: map<nat, Parties>
    var cache: map<CacheKey, CacheEntry>
    var nextNumber: nat
    var nextSession: nat
    var drawn: nat
    var closures: set<Closure>
    var forgotten: set<CacheKey>

    function State(): Db
      reads this
    {
      Db(now, numbers, sessions, parties, cache, nextNumber, nextSession, drawn, closures, forgotten)
    }

    ghost predicate Valid()
      reads this
    {
      ValidSettings(config.settings) && Inv(State())
    }

    constructor (config: Config, start: int)
      requires ValidSettings(config.settings)
      ensures this.config == config && State() == EmptyDb(start) && Valid()
    {
      this.config, now := config, start;
      numbers, sessions, parties, cache := map[], map[], map[], map[];
      nextNumber, nextSession, drawn, closures, forgotten := 0, 0, 0, {}, {};
      new;
      EmptyInv(start);
    }

    method Advance(elapsed: nat)
      requires Valid()
      modifies this
      ensures Valid() && State() == Tick(old(State()), elapsed)
    {
      hide Inv;
      TickKeepsInv(State(), elapsed);
      now := now + elapsed;
    }

    // ---- Writes --------------------------------------------------------------------------

    /** An UPDATE of a session row, with its trigger. */
    method UpdateSession(sid: nat, row: Session)
      requires sid in sessions
      modifies this
      ensures State() == WriteSession(old(State()), sid, row)
    {
      var was := sessions[sid];
      sessions := sessions[sid := row];
      if was.status != row.status || was.extCode != row.extCode || was.closedAt != row.closedAt {
        if sid in parties {
          parties := parties[sid := SyncParties(parties[sid], row)];
        }
      }
    }

    /** Deletes, one key at a time, what a scan of the number's keys finds. */
    method InvalidateNumber(proxy: string)
      modifies this
      ensures State() == Invalidate(old(State()), proxy)
    {
      var keys := set k | k in cache && k.proxy == proxy;
      while keys != {}
        invariant State() == old(State()).(cache := cache)
        invariant forall k :: k in cache <==> k in old(cache) && (k.proxy != proxy || k in keys)
        invariant forall k :: k in cache ==> cache[k] == old(cache)[k]
        decreases keys
      {
        var key :| key in keys;
        cache := cache - {key};
        keys := keys - {key};
      }
      assert cache == Invalidate(old(State()), proxy).cache;
    }

    method CacheSetJson(key: CacheKey, payload: Payload, ttlSeconds: int)
      modifies this
      ensures State() == CacheSet(old(State()), key, payload, ttlSeconds)
    {
      cache := cache[key := CacheEntry(payload, now + ttlSeconds * SECOND)];
    }

    /** Undoes a failed transaction; the random source is not part of it. */
    method Rollback(begin: Db)
      modifies this
      ensures State() == begin.(drawn := old(drawn))
    {
      now, numbers, sessions, parties, cache := begin.now, begin.numbers, begin.sessions, begin.parties, begin.cache;
      nextNumber, nextSession, closures, forgotten := begin.nextNumber, begin.nextSession, begin.closures,
          begin.forgotten;
    }

    // ---- Allocation ------------------------------------------------------------------------

    method FreshCode(used: set<string>) returns (code: Option<string>)
      requires ValidSettings(config.settings)
      modifies this
      ensures (code, drawn) == Allocation.FreshCode(config, used, old(drawn), GENERATION_ATTEMPTS)
      ensures State() == old(State()).(drawn := drawn)
    {
      for tries := 0 to GENERATION_ATTEMPTS
        invariant State() == old(State()).(drawn := drawn)
        invariant Allocation.FreshCode(config, used, drawn, GENERATION_ATTEMPTS - tries)
               == Allocation.FreshCode(config, used, old(drawn), GENERATION_ATTEMPTS)
      {
        var pin := ExtCode(config.draws(drawn), config.settings.pinLength);
        drawn := drawn + 1;
        if pin !in used {
          return Some(pin);
        }
      }
      return None;
    }

    /** One session's promotion: a draw and, if it succeeds, the update. */
    method IssueCode(sid: nat, used: set<string>) returns (code: Option<string>)
      requires ValidSettings(config.settings) && sid in sessions
      modifies this
      ensures var (pin, next) := Allocation.FreshCode(config, used, old(drawn), GENERATION_ATTEMPTS);
              && code == pin
              && var db := old(State()).(drawn := next);
                 State() == if code.None? then db else Promote(db, sid, code.value)
      ensures sessions.Keys == old(sessions).Keys
    {
      code := FreshCode(used);
      if code.Some? {
        UpdateSession(sid, sessions[sid].(extCode := code));
      }
    }

    method PromoteConflictingSessions(n: nat, hashes: set<PartyHash>, usedCodes: set<string>)
          returns (promoted: Option<seq<nat>>)
      requires ValidSettings(config.settings)
      modifies this
      ensures var rows := PromotionRows(config, old(State()), n, hashes);
              && (forall i :: 0 <= i < |rows| ==> rows[i] in old(sessions))
              && var (after, complete) := PromoteAll(config, old(State()), rows, usedCodes);
                 State() == after && promoted == if complete then Some(rows) else None
    {
      var rows := PromotionRows(config, State(), n, hashes);
      hide PromotionRows, Allocation.FreshCode, Promote;
      var used, done := usedCodes, [];
      for i := 0 to |rows|
        invariant done == rows[..i]
        invariant forall j :: 0 <= j < |rows| ==> rows[j] in sessions
        invariant PromoteAll(config, State(), rows[i..], used) == PromoteAll(config, old(State()), rows, usedCodes)
      {
        assert rows[i..][0] == rows[i] && rows[i..][1..] == rows[i + 1..];
        var code := IssueCode(rows[i], used);
        if code.None? {
          return None;
        }
        used := used + {code.value};
        done := done + [rows[i]];
      }
      assert rows[|rows|..] == [] && done == rows;
      return Some(done);
    }

    /** One candidate, once its row is locked. */
    method TryCandidate(n: nat, hashes: set<PartyHash>) returns (choice: Option<Allocated>)
      requires ValidSettings(config.settings)
      modifies this
      ensures (State(), choice) == Allocation.TryCandidate(config, old(State()), n, hashes)
    {
      var used := ActiveCodes(sessions, n);
      var code := FreshCode(used);
      if code.None? {
        return None;
      }
      DrawnRows(config, old(State()), drawn, n, hashes);
      var promoted := PromoteConflictingSessions(n, hashes, used + {code.value});
      if promoted.None? {
        return None;
      }
      return Some(Allocated(n, code, promoted.value));
    }

    method AllocateWithExtensionCode(hashes: set<PartyHash>, locked: set<nat>) returns (choice: Option<Allocated>)
      requires ValidSettings(config.settings)
      modifies this
      ensures (State(), choice) == AllocateShared(config, old(State()), hashes, locked)
    {
      var rows, counts := CandidateRows(config, State(), hashes), CandidateKeys(State(), config.settings, hashes);
      for i := 0 to |rows|
        invariant TryCandidates(config, State(), rows[i..], counts, hashes, locked)
               == AllocateShared(config, old(State()), hashes, locked)
      {
        assert rows[i..][0] == rows[i] && rows[i..][1..] == rows[i + 1..];
        if counts[rows[i]].first >= config.settings.maxPerNumber {
          continue;
        }
        if rows[i] in locked {
          continue;
        }
        choice := TryCandidate(rows[i], hashes);
        if choice.Some? {
          return;
        }
      }
      return None;
    }

    method AllocateNumber(hashes: set<PartyHash>, allowExtCode: bool, locked: set<nat>)
          returns (choice: Option<Allocated>)
      requires ValidSettings(config.settings)
      modifies this
      ensures (State(), choice) == Allocate(config, old(State()), hashes, allowExtCode, locked)
    {
      if config.settings.mode != Always {
        var row := ExclusiveChoice(config, State(), hashes, locked);
        if row.Some? {
          return Some(Allocated(row.value, None, []));
        }
      }
      if config.settings.mode == Never || !allowExtCode {
        return None;
      }
      choice := AllocateWithExtensionCode(hashes, locked);
    }

    // ---- Sessions --------------------------------------------------------------------------

    method CheckRequest(r: Request) returns (checked: Result<(string, string), DomainError>)
      ensures checked == Sessions.CheckRequest(config.settings, r)
    {
      var a, b := Phone.Normalize(r.partyA), Phone.Normalize(r.partyB);
      if a.Err? || b.Err? {
        return Err(InvalidPhoneNumber);
      }
      if a.value == b.value {
        return Err(ValidationFailed);
      }
      var ttl := EffectiveTtl(config.settings, r.ttl);
      if ttl <= 0 || ttl > config.settings.maxTtl {
        return Err(ValidationFailed);
      }
      if r.maxCalls.Some? && r.maxCalls.value <= 0 {
        return Err(ValidationFailed);
      }
      return Ok((a.value, b.value));
    }

    /** Adds the rows of a session, unless a unique index refuses them. */
    method InsertSession(row: Session, p: Parties) returns (conflict: bool)
      modifies this
      ensures State() == Insert(old(State()), row, p)
      ensures conflict == !(ExtCodesUnique(State()) && PartiesUnique(State()))
    {
      sessions := sessions[nextSession := row];
      parties := parties[nextSession := p];
      nextSession := nextSession + 1;
      conflict := !(ExtCodesUnique(State()) && PartiesUnique(State()));
    }

    method CreateSession(r: Request, locked: set<nat>) returns (result: Result<Created, DomainError>)
      requires Valid()
      modifies this
      ensures Valid()
      ensures (State(), result) == Sessions.CreateSession(config, old(State()), r, locked)
      ensures result != Err(AllocationConflict)
    {
      hide Inv;
      var begin := State();
      result := Attempt(r, locked);
      CreateKeepsInv(config, begin, r, locked);
    }

    /** The transaction of `create_session`: it commits, or leaves no trace. */
    method Attempt(r: Request, locked: set<nat>) returns (result: Result<Created, DomainError>)
      requires Valid()
      modifies this
      ensures (State(), result) == Sessions.CreateSession(config, old(State()), r, locked)
    {
      hide Inv, Sessions.CheckRequest, Allocate, ExtCodesUnique, PartiesUnique, NewRow, NewPair, PairHashes, Invalidate;
      var begin := State();
      var checked := CheckRequest(r);
      if checked.Err? {
        return Err(checked.error);
      }
      var (a, b) := checked.value;
      AllocateClock(config, begin, PairHashes(a, b), r.allowExtCode, locked);
      var choice := AllocateNumber(PairHashes(a, b), r.allowExtCode, locked);
      if choice.None? {
        Rollback(begin);
        return Err(NoNumberAvailable);
      }
      var n, code := choice.value.number, choice.value.extCode;
      var conflict := InsertSession(NewRow(now, n, code, EffectiveTtl(config.settings, r.ttl), r.maxCalls),
          NewPair(a, b, n, code));
      if conflict {
        Rollback(begin);
        return Err(AllocationConflict);
      }
      InvalidateNumber(E164Of(State(), n));
      return Ok(Created(begin.nextSession, choice.value));
    }

    method NewExpiry(ttl: Option<int>, expiresAt: Option<int>) returns (expiry: Result<int, DomainError>)
      ensures expiry == Sessions.NewExpiry(config.settings, now, ttl, expiresAt)
    {
      var newExpiry: int;
      if expiresAt.Some? {
        newExpiry := expiresAt.value;
      } else if ttl.Some? {
        if ttl.value <= 0 || ttl.value > config.settings.maxTtl {
          return Err(ValidationFailed);
        }
        newExpiry := now + ttl.value * SECOND;
      } else {
        return Err(ValidationFailed);
      }
      if newExpiry <= now {
        return Err(ValidationFailed);
      }
      return Ok(newExpiry);
    }

    method ExtendSession(sid: nat, ttl: Option<int>, expiresAt: Option<int>) returns (result: Result<int, DomainError>)
      requires Valid()
      modifies this
      ensures Valid()
      ensures (State(), result) == Sessions.ExtendSession(config.settings, old(State()), sid, ttl, expiresAt)
    {
      hide Inv, Sessions.NewExpiry, WriteSession, Invalidate;
      ExtendKeepsInv(config.settings, State(), sid, ttl, expiresAt);
      if sid !in sessions {
        return Err(SessionNotFound);
      }
      if sessions[sid].status != Active {
        return Err(SessionNotActive);
      }
      result := NewExpiry(ttl, expiresAt);
      if result.Err? {
        return;
      }
      var n := sessions[sid].number;
      UpdateSession(sid, sessions[sid].(expiresAt := result.value));
      assert E164Of(State(), n) == E164Of(old(State()), n) by {
        WriteKeepsNumbers(old(State()), sid, old(sessions)[sid].(expiresAt := result.value));
      }
      InvalidateNumber(E164Of(State(), n));
    }

    /** The assignments of a session's end, and the record of the event. */
    method End(sid: nat, status: Status)
      requires sid in sessions && sid in parties
      modifies this
      ensures State() == EndSession(old(State()), sid, status)
    {
      var n, p := sessions[sid].number, parties[sid];
      UpdateSession(sid, sessions[sid].(status := status, closedAt := Some(now)));
      closures := closures + {Closure(n, p.a.hash, now, nextSession), Closure(n, p.b.hash, now, nextSession)};
    }

    method MarkNumberReleased(n: nat)
      modifies this
      ensures State() == MarkReleased(old(State()), n)
    {
      var remaining := |ActiveOn(sessions, n)|;
      if remaining == 0 && n in numbers {
        numbers := numbers[n := numbers[n].(releasedAt := Some(now))];
      }
    }

    method CloseSession(sid: nat, status: Status) returns (result: Result<Session, DomainError>)
      requires Valid() && status != Active
      modifies this
      ensures Valid()
      ensures (State(), result) == Sessions.CloseSession(old(State()), sid, status)
    {
      hide Inv;
      SameKeys(State());
      CloseKeepsInv(State(), sid, status);
      if sid !in sessions {
        return Err(SessionNotFound);
      }
      if sessions[sid].status != Active {
        return Ok(sessions[sid]);
      }
      End(sid, status);
      var n := sessions[sid].number;
      MarkNumberReleased(n);
      InvalidateNumber(E164Of(State(), n));
      return Ok(sessions[sid]);
    }

    /** The first loop of the sweep: each due row is assigned its end. */
    method EndDue(rows: seq<nat>)
      requires forall i :: 0 <= i < |rows| ==> rows[i] in sessions && rows[i] in parties
      modifies this
      ensures State() == EndAll(old(State()), rows)
    {
      for i := 0 to |rows|
        invariant forall j :: 0 <= j < |rows| ==> rows[j] in sessions && rows[j] in parties
        invariant EndAll(State(), rows[i..]) == EndAll(old(State()), rows)
      {
        assert rows[i..][0] == rows[i] && rows[i..][1..] == rows[i + 1..];
        End(rows[i], Expired);
      }
      assert rows[|rows|..] == [];
    }

    /** The second loop: each ended row's number is released and its decisions dropped. */
    method ReleaseDue(rows: seq<nat>)
      requires forall i :: 0 <= i < |rows| ==> rows[i] in sessions
      modifies this
      ensures State() == ReleaseAll(old(State()), rows)
    {
      for i := 0 to |rows|
        invariant forall j :: 0 <= j < |rows| ==> rows[j] in sessions
        invariant ReleaseAll(State(), rows[i..]) == ReleaseAll(old(State()), rows)
      {
        assert rows[i..][0] == rows[i] && rows[i..][1..] == rows[i + 1..];
        var n := sessions[rows[i]].number;
        MarkNumberReleased(n);
        InvalidateNumber(E164Of(State(), n));
      }
      assert rows[|rows|..] == [];
    }

    method ExpireDueSessions(limit: nat := EXPIRY_SWEEP_LIMIT) returns (expired: seq<nat>)
      requires Valid()
      modifies this
      ensures Valid()
      ensures (State(), expired) == Sweep(config, old(State()), limit)
    {
      hide Inv, DueRows, EndAll, ReleaseAll;
      SameKeys(State());
      SweepKeepsInv(config, State(), limit);
      expired := DueRows(config, State(), limit);
      EndAllKeepsKeys(State(), expired);
      EndDue(expired);
      ReleaseDue(expired);
    }

    method PurgeOldRecords() returns (deletedSessions: nat)
      requires Valid()
      modifies this
      ensures Valid()
      ensures State() == Purge(config.settings, old(State()))
      ensures deletedSessions == |Doomed(old(State()), old(now) - config.settings.sessionRetentionDays * DAY)|
    {
      hide Inv, Doomed, KeysOf, Purge;
      var db := State();
      PurgeKeepsInv(config.settings, db);
      var doomed := Doomed(db, now - config.settings.sessionRetentionDays * DAY);
      forgotten := forgotten + KeysOf(db, doomed);
      sessions, parties := sessions - doomed, parties - doomed;
      deletedSessions := |doomed|;
      PurgeWrites(config.settings, db, State(), doomed);
    }

    // ---- Routing -----------------------------------------------------------------------------

    method LoadCandidates(proxy: string, caller: PartyHash) returns (candidates: seq<Candidate>)
      ensures candidates == Routing.LoadCandidates(config, State(), proxy, caller)
    {
      var rows := LiveRows(config, State(), proxy, caller);
      candidates := [];
      for i := 0 to |rows|
        invariant |candidates| == i
        invariant forall j :: 0 <= j < i ==>
                    rows[j] in sessions && rows[j] in parties && candidates[j] == CandidateOf(State(), rows[j], caller)
      {
        assert rows[i] in Live(State(), proxy, caller);
        candidates := candidates + [CandidateOf(State(), rows[i], caller)];
      }
    }

    method SelectByCode(candidates: seq<Candidate>, code: string) returns (found: Option<Candidate>)
      ensures found == Routing.SelectByCode(candidates, code)
    {
      for i := 0 to |candidates|
        invariant Routing.SelectByCode(candidates[i..], code) == Routing.SelectByCode(candidates, code)
      {
        assert candidates[i..][0] == candidates[i] && candidates[i..][1..] == candidates[i + 1..];
        if Coded(candidates[i]) && candidates[i].extCode.value == code {
          return Some(candidates[i]);
        }
      }
      return None;
    }

    method RejectWithoutSession(key: CacheKey) returns (decision: Decision)
      modifies this
      ensures decision == Reject(if HadSession(old(State()), key.proxy, key.caller) then SessionExpired
                else UnknownCaller)
      ensures State() == Remember(old(State()), key, decision)
    {
      var had := HadSession(State(), key.proxy, key.caller);
      CacheSetJson(key, Miss(had), NEGATIVE_TTL_SECONDS);
      decision := Reject(if had then SessionExpired else UnknownCaller);
    }

    method CacheSingle(key: CacheKey, candidate: Candidate)
      modifies this
      ensures State() == Routing.CacheSingle(old(State()), key, candidate)
    {
      if candidate.maxCalls.Some? {
        return;
      }
      var remaining := Min((candidate.expiresAt - now) / SECOND, LOOKUP_TTL_SECONDS);
      if remaining <= 0 {
        return;
      }
      CacheSetJson(
        key, Route(candidate.session, candidate.direction, Sealed(candidate.callee), candidate.extCode,
            candidate.expiresAt),
        remaining);
    }

    method ResolveCall(dialled: string, caller: string) returns (routed: Routed)
      requires Valid()
      modifies this
      ensures Valid()
      ensures (State(), routed) == Resolve(config, old(State()), dialled, caller)
    {
      hide Inv;
      ResolveKeepsInv(config, State(), dialled, caller);
      var proxy, number := ProxyOf(dialled), Phone.Normalize(caller);
      if number.Err? {
        return Routed(proxy, None, Reject(UnknownCaller));
      }
      var key := CacheKey(proxy, PartyHash(number.value));
      var cached := CacheGet(State(), key);
      if cached.Some? {
        var quick := FromCache(State(), cached.value);
        if quick.Some? {
          return Routed(proxy, Some(key.caller), quick.value);
        }
      }
      var decision := Query(key);
      return Routed(proxy, Some(key.caller), decision);
    }

    /** The part of `resolve_call` that asks the database. */
    method Query(key: CacheKey) returns (decision: Decision)
      modifies this
      ensures decision == Verdict(config, old(State()), key.proxy, key.caller)
      ensures State() == Remember(old(State()), key, decision)
    {
      var candidates := LoadCandidates(key.proxy, key.caller);
      if candidates == [] {
        decision := RejectWithoutSession(key);
        return;
      }
      if |candidates| == 1 {
        CacheSingle(key, candidates[0]);
        return Connect(candidates[0]);
      }
      var withCode := WithCode(candidates);
      if withCode == [] {
        return Reject(RoutingFailed);
      }
      return AskCode(withCode);
    }

    // ---- Numbers -----------------------------------------------------------------------------

    method AddNumber(e164: string, enabled: bool) returns (result: Result<nat, DomainError>)
      requires Valid()
      modifies this
      ensures Valid()
      ensures (State(), result) == Sessions.AddNumber(old(State()), e164, enabled)
    {
      hide Inv, Phone.Normalize, Phone.IsE164;
      AddNumberKeepsInv(State(), e164, enabled);
      var number := Phone.Normalize(e164);
      if number.Err? {
        return Err(InvalidPhoneNumber);
      }
      var taken := exists n :: n in numbers && numbers[n].e164 == number.value;
      if taken {
        return Err(NumberAlreadyExists);
      }
      result := Ok(nextNumber);
      numbers := numbers[nextNumber := Number(number.value, enabled, None)];
      nextNumber := nextNumber + 1;
    }

    method SetNumberStatus(e164: string, enabled: bool) returns (result: Result<nat, DomainError>)
      requires Valid()
      modifies this
      ensures Valid()
      ensures (State(), result) == Sessions.SetNumberStatus(old(State()), e164, enabled)
    {
      hide Inv;
      SetNumberStatusKeepsInv(State(), e164, enabled);
      var number := Phone.Normalize(e164);
      if number.Err? {
        return Err(InvalidPhoneNumber);
      }
      var found := set n | n in numbers && numbers[n].e164 == number.value;
      if found == {} {
        return Err(NumberNotFound);
      }
      var n := Least(found);
      numbers := numbers[n := numbers[n].(enabled := enabled)];
      InvalidateNumber(number.value);
      return Ok(n);
    }
  }

  lemma AllocateClock(c: Config, db: Db, hashes: set<PartyHash>, allowExtCode: bool, locked: set<nat>)
    requires ValidSettings(c.settings) && Inv(db)
    ensures var pool := Allocate(c, db, hashes, allowExtCode, locked).0;
            pool.now == db.now && pool.nextSession == db.nextSession
  {
    AllocateOk(c, db, hashes, allowExtCode, locked);
    hide Core, Allocate;
  }

  lemma PurgeWrites(s: Settings, db: Db, after: Db, doomed: set<nat>)
    requires doomed == Doomed(db, db.now - s.sessionRetentionDays * DAY)
    requires after == Db(db.now, db.numbers, db.sessions - doomed, db.parties - doomed, db.cache, db.nextNumber,
               db.nextSession,
                         db.drawn, db.closures, db.forgotten + KeysOf(db, doomed))
    ensures after == Purge(s, db)
  {
    hide Doomed, KeysOf;
  }

  lemma SameKeys(db: Db)
    requires Inv(db)
    ensures db.sessions.Keys == db.parties.Keys
  {
  }

  lemma WriteKeepsNumbers(db: Db, sid: nat, row: Session)
    requires sid in db.sessions
    ensures WriteSession(db, sid, row).numbers == db.numbers
  {
  }

  lemma DrawnRows(c: Config, db: Db, drawn: nat, n: nat, hashes: set<PartyHash>)
    ensures PromotionRows(c, db.(drawn := drawn), n, hashes) == PromotionRows(c, db, n, hashes)
  {
    assert ToPromote(db.(drawn := drawn), n, hashes) == ToPromote(db, n, hashes);
  }
}
