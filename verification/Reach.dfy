/** The cache answers as the query would, and every live session can be reached by both its parties. */
module Reach {
  import opened Basics
  import opened Crypto
  import opened Schema
  import opened Allocation
  import opened Sessions
  import opened Routing
  import opened Invariant
  import opened Lifecycle
  import opened Pool
  import Phone

  // ---- The cache refines the query --------------------------------------------------------

  /** The same action on the same session, callee and direction; only a PIN may be out of date. */
  predicate SameRoute(x: Decision, y: Decision) {
    match x
    case Connect(p) => y.Connect? && p.(extCode := y.candidate.extCode) == y.candidate
    case AskCode(_) => y == x
    case Reject(_) => y.Reject?
  }

  lemma SingleRow(c: Config, db: Db, proxy: string, caller: PartyHash, sid: nat)
    requires Live(db, proxy, caller) == {sid}
    ensures LiveRows(c, db, proxy, caller) == [sid]
  {
    var rows := LiveRows(c, db, proxy, caller);
    assert sid in Live(db, proxy, caller);
    assert sid in rows;
    DistinctLength(rows, {sid});
  }

  /**
    In every sound state: the decision taken with the cache is the one the query gives. A reject
    status alone may lag, saying "expired" of a party whose last rows a purge has deleted.
   */
  lemma CacheRefines(c: Config, db: Db, key: CacheKey)
    requires Inv(db)
    ensures var cached, queried := ResolveKey(c, db, key).1, Verdict(c, db, key.proxy, key.caller);
            && SameRoute(cached, queried)
            && (cached.Reject? && cached != queried ==>
                  cached == Reject(SessionExpired) && queried == Reject(UnknownCaller) && key in db.forgotten)
  {
    var cached := CacheGet(db, key);
    if cached.Some? {
      assert !Stale(db, key.proxy, {});
      assert EntryOk(db, key, db.cache[key]);
      LiveCount(c, db, key.proxy, key.caller);
      if cached.value.Route? {
        SingleRow(c, db, key.proxy, key.caller, cached.value.session);
      }
      hide Core, History;
    }
  }

  /** The same over every run, and with exact statuses while nothing has been purged. */
  lemma CacheRefinesOnRuns(c: Config, start: int, ops: seq<Op>, key: CacheKey)
    requires ValidSettings(c.settings)
    ensures var db := Run(c, start, ops);
            var cached, queried := ResolveKey(c, db, key).1, Verdict(c, db, key.proxy, key.caller);
            SameRoute(cached, queried) && (cached.Reject? && OpPurge !in ops ==> cached == queried)
  {
    RunInv(c, start, ops);
    CacheRefines(c, Run(c, start, ops), key);
    if OpPurge !in ops { NothingForgotten(c, start, ops); }
  }

  lemma {:induction false} NothingForgotten(c: Config, start: int, ops: seq<Op>)
    requires ValidSettings(c.settings) && OpPurge !in ops
    ensures Run(c, start, ops).forgotten == {}
  {
    hide Inv, Apply;
    if ops != [] {
      var k := |ops| - 1;
      assert ops[k] in ops;
      RunInv(c, start, ops[..k]);
      NothingForgotten(c, start, ops[..k]);
      ForgetsOnlyByPurge(c, Run(c, start, ops[..k]), ops[k]);
    }
  }

  lemma ForgetsOnlyByPurge(c: Config, db: Db, op: Op)
    requires ValidSettings(c.settings) && Inv(db) && op != OpPurge
    ensures Apply(c, db, op).forgotten == db.forgotten
  {
    hide Inv;
    match op
    case OpCreate(request, locked) => CreateForgets(c, db, request, locked);
    case OpSweep(limit) => SweepForgets(c, db, limit);
    case OpClose(sid, expired) => CloseForgets(db, sid, if expired then Expired else Closed);
    case _ => OthersForget(c, db, op);
  }

  lemma OthersForget(c: Config, db: Db, op: Op)
    requires ValidSettings(c.settings) && Inv(db)
    requires op.OpAddNumber? || op.OpSetStatus? || op.OpResolve? || op.OpExtend? || op.OpTick?
    ensures Apply(c, db, op).forgotten == db.forgotten
  {
    hide Inv, Phone.Normalize, Resolve, NewExpiry;
    match op
    case OpResolve(dialled, caller) => ResolveWrites(c, db, dialled, caller);
    case _ =>
  }

  lemma CloseForgets(db: Db, sid: nat, status: Status)
    requires Inv(db) && status != Active
    ensures CloseSession(db, sid, status).0.forgotten == db.forgotten
  {
    hide Core, History, CacheOk, EndSession, Release;
    CoreKeys(db);
    if sid in db.sessions && db.sessions[sid].status == Active {
      EndForgets(db, sid, status);
      ReleaseForgets(EndSession(db, sid, status), db.sessions[sid].number);
    }
  }

  lemma EndForgets(db: Db, sid: nat, status: Status)
    requires sid in db.sessions && sid in db.parties
    ensures EndSession(db, sid, status).forgotten == db.forgotten
  {
  }

  lemma ReleaseForgets(db: Db, n: nat)
    ensures Release(db, n).forgotten == db.forgotten
  {
  }

  lemma CreateForgets(c: Config, db: Db, r: Request, locked: set<nat>)
    requires ValidSettings(c.settings) && Inv(db)
    ensures CreateSession(c, db, r, locked).0.forgotten == db.forgotten
  {
    var checked := CheckRequest(c.settings, r);
    if checked.Ok? {
      var hashes := PairHashes(checked.value.0, checked.value.1);
      AllocateOk(c, db, hashes, r.allowExtCode, locked);
      assert Allocate(c, db, hashes, r.allowExtCode, locked).0.forgotten == db.forgotten;
      hide Core, PinsOnly, Allocate, CheckRequest, Placeable, ExtCodesUnique, PartiesUnique;
    }
  }

  lemma SweepForgets(c: Config, db: Db, limit: nat)
    requires Inv(db)
    ensures Sweep(c, db, limit).0.forgotten == db.forgotten
  {
    assert db.sessions.Keys == db.parties.Keys;
    hide Inv;
    var rows := DueRows(c, db, limit);
    EndAllKeepsKeys(db, rows);
    EndAllForgets(db, rows);
    ReleaseAllForgets(EndAll(db, rows), rows);
  }

  lemma {:induction false} EndAllForgets(db: Db, rows: seq<nat>)
    requires forall i :: 0 <= i < |rows| ==> rows[i] in db.sessions && rows[i] in db.parties
    ensures EndAll(db, rows).forgotten == db.forgotten
    decreases |rows|
  {
    if rows != [] { EndAllForgets(EndSession(db, rows[0], Expired), rows[1..]); }
  }

  lemma {:induction false} ReleaseAllForgets(db: Db, rows: seq<nat>)
    requires forall i :: 0 <= i < |rows| ==> rows[i] in db.sessions
    ensures ReleaseAll(db, rows).forgotten == db.forgotten
    decreases |rows|
  {
    if rows != [] { ReleaseAllForgets(Release(db, db.sessions[rows[0]].number), rows[1..]); }
  }

  // ---- Selecting by PIN -------------------------------------------------------------------

  /** With every PIN present and no two alike, a PIN selects its own candidate, in any order of rows. */
  lemma {:induction false} SelectByOwnCode(candidates: seq<Candidate>, k: nat)
    requires k < |candidates|
    requires Coded(candidates[k])
    requires forall i :: 0 <= i < |candidates| && i != k ==> candidates[i].extCode != candidates[k].extCode
    ensures SelectByCode(candidates, candidates[k].extCode.value) == Some(candidates[k])
  {
    if k > 0 {
      assert candidates[1..][k - 1] == candidates[k];
      forall i | 0 <= i < |candidates[1..]| && i != k - 1
        ensures candidates[1..][i].extCode != candidates[1..][k - 1].extCode
      {
        assert candidates[1..][i] == candidates[i + 1];
      }
      SelectByOwnCode(candidates[1..], k - 1);
    }
  }

  lemma {:induction false} WithCodeAll(candidates: seq<Candidate>)
    requires forall i :: 0 <= i < |candidates| ==> Coded(candidates[i])
    ensures WithCode(candidates) == candidates
  {
    if candidates != [] {
      forall i | 0 <= i < |candidates[1..]| ensures Coded(candidates[1..][i]) {
        assert candidates[1..][i] == candidates[i + 1];
      }
      WithCodeAll(candidates[1..]);
    }
  }

  /** A wrong PIN selects nothing. */
  lemma {:induction false} SelectNothingElse(candidates: seq<Candidate>, code: string)
    ensures var found := SelectByCode(candidates, code);
            if found.Some? then found.value in candidates && found.value.extCode == Some(code)
            else forall i :: 0 <= i < |candidates| ==> candidates[i].extCode != Some(code) || code == ""
  {
    if candidates != [] && !(Coded(candidates[0]) && candidates[0].extCode.value == code) {
      SelectNothingElse(candidates[1..], code);
      forall i | 0 <= i < |candidates|
        ensures SelectByCode(candidates, code).None? ==> candidates[i].extCode != Some(code) || code == ""
      {
        if i > 0 { assert candidates[i] == candidates[1..][i - 1]; }
      }
    }
  }

  // ---- Two live sessions of one caller ------------------------------------------------------

  /** Live sessions of one caller on one proxy carry PINs, all different. */
  lemma LiveApart(db: Db, proxy: string, caller: PartyHash, i: nat, j: nat)
    requires Core(db) && i != j
    requires i in Live(db, proxy, caller) && j in Live(db, proxy, caller)
    ensures db.sessions[i].extCode.Some? && db.sessions[j].extCode.Some?
    ensures db.sessions[i].extCode != db.sessions[j].extCode
    ensures db.sessions[i].extCode.value != "" && db.sessions[j].extCode.value != ""
  {
    assert RowOk(db.sessions[i], db.now) && RowOk(db.sessions[j], db.now);
    assert db.sessions[i].number == db.sessions[j].number by {
      assert !(db.sessions[i].number != db.sessions[j].number) ||
        !SameE164(db.numbers[db.sessions[i].number], db.numbers[db.sessions[j].number]);
    }
    assert Apart(db.sessions[i], db.parties[i], db.sessions[j], db.parties[j]);
    assert Share(db.parties[i], db.parties[j]);
  }

  /** So when several are live every candidate has its own PIN, and none is dropped for lack of one. */
  lemma SeveralAreCoded(c: Config, db: Db, proxy: string, caller: PartyHash)
    requires Core(db)
    requires |LoadCandidates(c, db, proxy, caller)| >= 2
    ensures var candidates := LoadCandidates(c, db, proxy, caller);
            && WithCode(candidates) == candidates
            && (forall i, j :: 0 <= i < |candidates| && 0 <= j < |candidates| && i != j ==>
                  candidates[i].extCode != candidates[j].extCode)
  {
    hide *;
    var candidates := LoadCandidates(c, db, proxy, caller);
    forall i, j | 0 <= i < |candidates| && 0 <= j < |candidates| && i != j
      ensures Coded(candidates[i]) && candidates[i].extCode != candidates[j].extCode
    {
      TwoCandidates(c, db, proxy, caller, i, j);
    }
    forall i | 0 <= i < |candidates| ensures Coded(candidates[i]) {
      var other := if i == 0 then 1 else 0;
      assert candidates[i].extCode != candidates[other].extCode;
    }
    WithCodeAll(candidates);
  }

  lemma TwoCandidates(c: Config, db: Db, proxy: string, caller: PartyHash, i: nat, j: nat)
    requires Core(db)
    requires i < |LoadCandidates(c, db, proxy, caller)| && j < |LoadCandidates(c, db, proxy, caller)| && i != j
    ensures var candidates := LoadCandidates(c, db, proxy, caller);
            Coded(candidates[i]) && candidates[i].extCode != candidates[j].extCode
  {
    var rows := LiveRows(c, db, proxy, caller);
    assert rows[i] != rows[j] by { if i < j { assert rows[i] != rows[j]; } else { assert rows[j] != rows[i]; } }
    LiveApart(db, proxy, caller, rows[i], rows[j]);
    hide Core, LiveRows;
  }

  /** Routing never rejects for ambiguity, and never leaves a live session out of the PIN choice. */
  lemma NeverAmbiguous(c: Config, db: Db, proxy: string, caller: PartyHash)
    requires Core(db)
    ensures var verdict := Verdict(c, db, proxy, caller); var candidates := LoadCandidates(c, db, proxy, caller);
            && verdict != Reject(RoutingFailed)
            && (|candidates| >= 2 ==> verdict == AskCode(candidates))
  {
    if |LoadCandidates(c, db, proxy, caller)| >= 2 {
      SeveralAreCoded(c, db, proxy, caller);
    }
  }

  // ---- Reachability -----------------------------------------------------------------------------

  /** What a caller must be offered to reach session `sid`: its candidate, at once or for its PIN. */
  predicate Reaches(decision: Decision, wanted: Candidate) {
    match decision
    case Connect(candidate) => candidate.(extCode := wanted.extCode) == wanted
    case AskCode(candidates) => Coded(wanted) && SelectByCode(candidates, wanted.extCode.value) == Some(wanted)
    case Reject(_) => false
  }

  lemma VerdictReaches(c: Config, db: Db, sid: nat, proxy: string, caller: PartyHash)
    requires Core(db) && sid in Live(db, proxy, caller)
    ensures Reaches(Verdict(c, db, proxy, caller), CandidateOf(db, sid, caller))
    ensures Verdict(c, db, proxy, caller).Connect? <==> Live(db, proxy, caller) == {sid}
  {
    hide Core, SelectByCode;
    var candidates, rows := LoadCandidates(c, db, proxy, caller), LiveRows(c, db, proxy, caller);
    var k :| 0 <= k < |rows| && rows[k] == sid;
    assert candidates[k] == CandidateOf(db, sid, caller);
    hide LoadCandidates, LiveRows, WithCode;
    NeverAmbiguous(c, db, proxy, caller);
    LiveCount(c, db, proxy, caller);
    if |candidates| >= 2 {
      SeveralReach(c, db, proxy, caller, k);
    }
    if Live(db, proxy, caller) == {sid} { SingleRow(c, db, proxy, caller, sid); }
  }

  /** Each of several candidates is reached by its PIN. */
  lemma SeveralReach(c: Config, db: Db, proxy: string, caller: PartyHash, k: nat)
    requires Core(db) && |LoadCandidates(c, db, proxy, caller)| >= 2 && k < |LoadCandidates(c, db, proxy, caller)|
    ensures var candidates := LoadCandidates(c, db, proxy, caller); Reaches(AskCode(candidates), candidates[k])
  {
    hide Core, SelectByCode, LoadCandidates, WithCode;
    var candidates := LoadCandidates(c, db, proxy, caller);
    TwoCandidates(c, db, proxy, caller, k, if k == 0 then 1 else 0);
    SeveralAreCoded(c, db, proxy, caller);
    SelectByOwnCode(candidates, k);
  }

  predicate IsParty(p: Parties, number: string) {
    p.a.sealed.plain == number || p.b.sealed.plain == number
  }

  /**
    Reachability. Whatever history produced the pool: when either party of a live session dials
    its proxy number, in any notation, the call is routed to that session and to the other party,
    directly if it is the caller's only live session there and by that session's PIN otherwise.
   */
  lemma LiveSessionReachable(c: Config, start: int, ops: seq<Op>, sid: nat, dialled: string, caller: string,
                             number: string)
    requires ValidSettings(c.settings)
    requires var db := Run(c, start, ops);
             && sid in db.sessions && db.sessions[sid].status == Active && db.sessions[sid].expiresAt > db.now
             && Phone.Normalize(dialled) == Ok(E164Of(db, db.sessions[sid].number))
             && Phone.Normalize(caller) == Ok(number) && sid in db.parties && IsParty(db.parties[sid], number)
    ensures var db := Run(c, start, ops);
            var wanted := CandidateOf(db, sid, PartyHash(number));
            && Reaches(Resolve(c, db, dialled, caller).1.decision, wanted)
            && wanted.session == sid && wanted.callee != number && IsParty(db.parties[sid], wanted.callee)
            && wanted.direction == (if db.parties[sid].a.sealed.plain == number then A2B else B2A)
  {
    RunInv(c, start, ops);
    ResolveReaches(c, Run(c, start, ops), sid, dialled, caller, number);
    hide *;
  }

  /** The same in any sound state. */
  lemma ResolveReaches(c: Config, db: Db, sid: nat, dialled: string, caller: string, number: string)
    requires Inv(db)
    requires sid in db.sessions && db.sessions[sid].status == Active && db.sessions[sid].expiresAt > db.now
    requires Phone.Normalize(dialled) == Ok(E164Of(db, db.sessions[sid].number))
    requires Phone.Normalize(caller) == Ok(number) && sid in db.parties && IsParty(db.parties[sid], number)
    ensures var wanted := CandidateOf(db, sid, PartyHash(number));
            && Reaches(Resolve(c, db, dialled, caller).1.decision, wanted)
            && wanted.session == sid && wanted.callee != number && IsParty(db.parties[sid], wanted.callee)
            && wanted.direction == (if db.parties[sid].a.sealed.plain == number then A2B else B2A)
  {
    hide Core, History, CacheOk, Phone.Normalize, LoadCandidates;
    PartyIsLive(db, sid, number);
    var key := CacheKey(E164Of(db, db.sessions[sid].number), PartyHash(number));
    VerdictReaches(c, db, sid, key.proxy, key.caller);
    CacheRefines(c, db, key);
    hide Inv, Verdict, ResolveKey, CandidateOf;
  }

  lemma PartyIsLive(db: Db, sid: nat, number: string)
    requires Core(db)
    requires sid in db.sessions && db.sessions[sid].status == Active && db.sessions[sid].expiresAt > db.now
    requires IsParty(db.parties[sid], number)
    ensures db.sessions[sid].number in db.numbers
    ensures sid in Live(db, E164Of(db, db.sessions[sid].number), PartyHash(number))
    ensures var wanted := CandidateOf(db, sid, PartyHash(number));
            && wanted.session == sid && wanted.callee != number && IsParty(db.parties[sid], wanted.callee)
            && wanted.direction == (if db.parties[sid].a.sealed.plain == number then A2B else B2A)
  {
    assert Mirrors(db.parties[sid], db.sessions[sid]);
  }

  /** Conversely, a call is only ever offered live sessions of its caller on the dialled proxy. */
  lemma OffersAreLive(c: Config, db: Db, key: CacheKey)
    requires Inv(db)
    ensures match ResolveKey(c, db, key).1
            case Connect(candidate) => Live(db, key.proxy, key.caller) == {candidate.session}
            case AskCode(candidates) =>
              forall i :: 0 <= i < |candidates| ==>
                candidates[i].session in Live(db, key.proxy, key.caller)
                && candidates[i] == CandidateOf(db, candidates[i].session, key.caller)
            case Reject(_) => Live(db, key.proxy, key.caller) == {}
  {
    CacheRefines(c, db, key);
    LiveCount(c, db, key.proxy, key.caller);
    NeverAmbiguous(c, db, key.proxy, key.caller);
    hide Inv, ResolveKey;
  }
}
