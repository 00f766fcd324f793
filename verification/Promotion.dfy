/** How far promotion reaches, the supply of PINs, and resting numbers. */
module Promotion {
  import opened Basics
  import opened Crypto
  import opened Schema
  import opened Allocation
  import opened Sessions
  import opened Invariant
  import opened Lifecycle
  import opened Steps
  import opened Upkeep
  import opened Pool
  import opened Routing
  import opened Cooling
  import Phone

  // ---- At most two promotions a number ----------------------------------------------------

  /** Session `sid` is the only active one of party `h` on its number. */
  ghost predicate OnlyActiveOf(db: Db, sid: nat, n: nat, h: PartyHash) {
    && IsActiveOn(db.sessions, sid, n) && sid in db.parties && HasParty(db.parties[sid], h)
    && (forall other ::
          (other in db.sessions && other in db.parties && IsActiveOn(db.sessions, other, n)
           && HasParty(db.parties[other], h)) ==>
            other == sid)
  }

  /** A session without a PIN is alone with each of its parties. */
  lemma UncodedIsAlone(db: Db, sid: nat, n: nat, h: PartyHash)
    requires Core(db) && IsActiveOn(db.sessions, sid, n) && db.sessions[sid].extCode.None?
    requires HasParty(db.parties[sid], h)
    ensures OnlyActiveOf(db, sid, n, h)
  {
    forall other | other in db.sessions && IsActiveOn(db.sessions, other, n) && HasParty(db.parties[other], h)
      ensures other == sid
    {
      if other != sid { UncodedShares(db, sid, other, h); }
    }
  }

  lemma UncodedShares(db: Db, sid: nat, other: nat, h: PartyHash)
    requires Core(db) && sid in db.sessions && other in db.sessions && sid != other
    requires HasParty(db.parties[sid], h) && HasParty(db.parties[other], h)
    requires db.sessions[sid].number == db.sessions[other].number
    requires db.sessions[sid].status == Active && db.sessions[other].status == Active
    ensures db.sessions[sid].extCode.Some?
  {
    assert Apart(db.sessions[sid], db.parties[sid], db.sessions[other], db.parties[other]);
  }

  /** One candidate number promotes at most two sessions, each the only one of a requested party there. */
  lemma PromotionBounded(db: Db, n: nat, a: PartyHash, b: PartyHash)
    requires Core(db)
    ensures |ToPromote(db, n, {a, b})| <= 2
    ensures forall sid :: sid in ToPromote(db, n, {a, b}) ==> OnlyActiveOf(db, sid, n, a) || OnlyActiveOf(db, sid, n, b)
  {
    var all := ToPromote(db, n, {a, b});
    forall sid | sid in all ensures OnlyActiveOf(db, sid, n, a) || OnlyActiveOf(db, sid, n, b) {
      PromotedIsAlone(db, n, a, b, sid);
    }
    hide Core, ToPromote, OnlyActiveOf;
    TwoAtMost(db, n, a, b, all);
  }

  lemma TwoAtMost(db: Db, n: nat, a: PartyHash, b: PartyHash, all: set<nat>)
    requires forall sid :: sid in all ==> OnlyActiveOf(db, sid, n, a) || OnlyActiveOf(db, sid, n, b)
    ensures |all| <= 2
  {
    hide OnlyActiveOf;
    var ofA := set sid | sid in all && OnlyActiveOf(db, sid, n, a);
    var ofB := set sid | sid in all && OnlyActiveOf(db, sid, n, b);
    AloneIsOne(db, n, a, ofA);
    AloneIsOne(db, n, b, ofB);
    assert all == ofA + ofB;
    UnionCard(ofA, ofB);
  }

  lemma PromotedIsAlone(db: Db, n: nat, a: PartyHash, b: PartyHash, sid: nat)
    requires Core(db) && sid in ToPromote(db, n, {a, b})
    ensures OnlyActiveOf(db, sid, n, a) || OnlyActiveOf(db, sid, n, b)
  {
    if HasParty(db.parties[sid], a) { UncodedIsAlone(db, sid, n, a); } else { UncodedIsAlone(db, sid, n, b); }
  }

  lemma AloneIsOne(db: Db, n: nat, h: PartyHash, ids: set<nat>)
    requires forall sid :: sid in ids ==> OnlyActiveOf(db, sid, n, h)
    ensures |ids| <= 1
  {
    if ids != {} {
      var x :| x in ids;
      assert forall y :: y in ids ==> y == x;
      assert ids == {x};
    }
  }

  // ---- PIN supply --------------------------------------------------------------------------

  /** Sessions on `n` that carry a PIN. */
  function CodedOn(db: Db, n: nat): set<nat> {
    set sid | sid in db.sessions && IsActiveOn(db.sessions, sid, n) && db.sessions[sid].extCode.Some?
  }

  lemma {:induction false} CodesCounted(ss: map<nat, Session>, ids: set<nat>)
    requires forall sid :: sid in ids ==> sid in ss && ss[sid].extCode.Some?
    ensures |set sid | sid in ids :: ss[sid].extCode.value| <= |ids|
    decreases ids
  {
    if ids != {} {
      var x :| x in ids;
      CodesCounted(ss, ids - {x});
      var rest := set sid | sid in ids - {x} :: ss[sid].extCode.value;
      assert (set sid | sid in ids :: ss[sid].extCode.value) == rest + {ss[x].extCode.value};
    }
  }

  /**
    While a number is under its cap and the cap is at most the size of the PIN space, every draw
    the allocator makes for it has an unused PIN to find: the first, with no PIN issued yet, and
    each promotion, with the PINs of the new session and of the sessions promoted before it.
   */
  lemma PinSupply(c: Config, db: Db, n: nat, hashes: set<PartyHash>, issued: set<string>) returns (v: nat)
    requires ValidSettings(c.settings)
    requires |ActiveOn(db.sessions, n)| < c.settings.maxPerNumber <= Pow10(c.settings.pinLength)
    requires issued == {} || |issued| <= |ToPromote(db, n, hashes)|
    ensures v < Pow10(c.settings.pinLength)
    ensures ExtCode(v, c.settings.pinLength) !in ActiveCodes(db.sessions, n) + issued
  {
    var coded, plain, active := CodedOn(db, n), ToPromote(db, n, hashes), ActiveOn(db.sessions, n);
    assert coded !! plain && coded + plain <= active;
    SubsetCard(coded + plain, active);
    CodesCounted(db.sessions, coded);
    assert ActiveCodes(db.sessions, n) == set sid | sid in coded :: db.sessions[sid].extCode.value;
    var used := ActiveCodes(db.sessions, n) + issued;
    UnionCard(ActiveCodes(db.sessions, n), issued);
    v := UnusedPinExists(used, c.settings.pinLength);
  }

  lemma UnionCard<T>(a: set<T>, b: set<T>)
    ensures |a + b| <= |a| + |b|
  {
    assert a + b == a + (b - a);
    SubsetCard(b - a, b);
  }

  // ---- Mode "always" promotes nothing --------------------------------------------------------

  ghost predicate AllCoded(ss: map<nat, Session>) {
    forall sid :: sid in ss && ss[sid].status == Active ==> ss[sid].extCode.Some?
  }

  lemma CodedTriesPromoteNothing(c: Config, db: Db, n: nat, hashes: set<PartyHash>)
    requires ValidSettings(c.settings) && AllCoded(db.sessions)
    ensures var (after, won) := TryCandidate(c, db, n, hashes);
            after == db.(drawn := after.drawn) && (won.Some? ==> won.value.promoted == [] && won.value.extCode.Some?)
  {
    assert ToPromote(db, n, hashes) == {};
    DistinctLength(PromotionRows(c, db, n, hashes), {});
  }

  lemma {:induction false} CodedCandidatesPromoteNothing(
    c: Config, db: Db, rows: seq<nat>, counts: map<nat, SortKey>, hashes: set<PartyHash>, locked: set<nat>)
    requires ValidSettings(c.settings) && AllCoded(db.sessions)
    requires forall i :: 0 <= i < |rows| ==> rows[i] in counts
    ensures var (after, won) := TryCandidates(c, db, rows, counts, hashes, locked);
            after == db.(drawn := after.drawn) && (won.Some? ==> won.value.promoted == [] && won.value.extCode.Some?)
    decreases |rows|
  {
    if rows != [] {
      if counts[rows[0]].first >= c.settings.maxPerNumber || rows[0] in locked {
        CodedCandidatesPromoteNothing(c, db, rows[1..], counts, hashes, locked);
      } else {
        CodedTriesPromoteNothing(c, db, rows[0], hashes);
        CodedCandidatesPromoteNothing(c, TryCandidate(c, db, rows[0], hashes).0, rows[1..], counts, hashes, locked);
      }
    }
  }

  lemma AlwaysAllocates(c: Config, db: Db, hashes: set<PartyHash>, allowExtCode: bool, locked: set<nat>)
    requires ValidSettings(c.settings) && c.settings.mode == Always && AllCoded(db.sessions)
    ensures var (after, choice) := Allocate(c, db, hashes, allowExtCode, locked);
            after == db.(drawn := after.drawn)
                && (choice.Some? ==> choice.value.promoted == [] && choice.value.extCode.Some?)
  {
    CodedCandidatesPromoteNothing(
      c, db, CandidateRows(c, db, hashes), CandidateKeys(db, c.settings, hashes), hashes, locked);
    hide TryCandidates, CandidateRows, CandidateKeys;
  }

  /** In mode "always" a creation adds its own row, with a PIN, and touches no other session. */
  lemma AlwaysCreates(c: Config, db: Db, r: Request, locked: set<nat>)
    requires ValidSettings(c.settings) && c.settings.mode == Always && AllCoded(db.sessions) && Core(db)
    ensures var (after, result) := CreateSession(c, db, r, locked);
            && (forall sid :: sid in db.sessions ==> sid in after.sessions && after.sessions[sid] == db.sessions[sid])
            && (result.Ok? ==> result.value.allocation.promoted == [])
            && AllCoded(after.sessions)
  {
    hide Core, AllCoded, CreateSession, Allocate, CheckRequest, PairHashes;
    CreatedFrom(c, db, r, locked);
    var (after, result) := CreateSession(c, db, r, locked);
    if result.Ok? {
      var (a, b) := CheckRequest(c.settings, r).value;
      AlwaysAllocates(c, db, PairHashes(a, b), r.allowExtCode, locked);
      NextIsNew(db);
      PutCoded(db.sessions, db.nextSession, after.sessions[db.nextSession]);
    }
  }

  lemma NextIsNew(db: Db)
    requires Core(db)
    ensures db.nextSession !in db.sessions
  {
  }

  lemma PutCoded(ss: map<nat, Session>, sid: nat, row: Session)
    requires AllCoded(ss) && row.extCode.Some?
    ensures AllCoded(ss[sid := row])
  {
  }

  /** A created session is the row the allocator's choice asks for, put into the pool it left. */
  lemma CreatedFrom(c: Config, db: Db, r: Request, locked: set<nat>)
    requires ValidSettings(c.settings)
    ensures var (after, result) := CreateSession(c, db, r, locked);
            if result.Ok? then
              && CheckRequest(c.settings, r).Ok?
              && var (a, b) := CheckRequest(c.settings, r).value;
                 var (pool, choice) := Allocate(c, db, PairHashes(a, b), r.allowExtCode, locked);
                 && choice == Some(result.value.allocation)
                 && after.sessions == pool.sessions[pool.nextSession :=
                      NewRow(db.now, choice.value.number, choice.value.extCode, EffectiveTtl(c.settings, r.ttl),
                          r.maxCalls)]
            else after.sessions == db.sessions
  {
    hide Allocate, CheckRequest, ExtCodesUnique, PartiesUnique, PairHashes, NewPair, NewRow;
  }

  // ---- Two facts about every run ----------------------------------------------------------------

  /** In number scope no number inside its quarantine window carries an active session. */
  ghost predicate NumbersRest(numbers: map<nat, Number>, ss: map<nat, Session>, s: Settings, edge: int) {
    s.numberScope ==>
      forall sid :: sid in ss && ss[sid].status == Active && ss[sid].number in numbers ==>
        numbers[ss[sid].number].releasedAt.Some? ==> numbers[ss[sid].number].releasedAt.value < edge
  }

  ghost predicate Habits(db: Db, s: Settings) {
    && NumbersRest(db.numbers, db.sessions, s, CooldownEdge(db, s))
    && (s.mode == Always ==> AllCoded(db.sessions))
  }

  /** No session became active or lost its PIN, and no number with an active session was released. */
  ghost predicate Calmer(db: Db, after: Db) {
    && db.now <= after.now
    && (forall sid :: sid in after.sessions && after.sessions[sid].status == Active ==>
          && sid in db.sessions && db.sessions[sid].status == Active
          && after.sessions[sid].number == db.sessions[sid].number
          && (db.sessions[sid].extCode.Some? ==> after.sessions[sid].extCode.Some?))
    && (forall n :: n in after.numbers && ActiveOn(after.sessions, n) != {} ==>
          n in db.numbers && after.numbers[n].releasedAt == db.numbers[n].releasedAt)
  }

  lemma HabitsFrame(db: Db, after: Db, s: Settings)
    requires Habits(db, s) && Calmer(db, after)
    ensures Habits(after, s)
  {
    forall sid | sid in after.sessions && after.sessions[sid].status == Active
      ensures sid in ActiveOn(after.sessions, after.sessions[sid].number)
    {
    }
  }

  lemma CreateKeepsHabits(c: Config, db: Db, r: Request, locked: set<nat>)
    requires ValidSettings(c.settings) && Core(db) && Habits(db, c.settings)
    ensures Habits(CreateSession(c, db, r, locked).0, c.settings)
  {
    hide CreateSession, Core, AllCoded, NumbersRest, Fresh, Mirrors, PinsOnly, Eligible;
    var pool, row, p := CreateShape(c, db, r, locked);
    var (after, result) := CreateSession(c, db, r, locked);
    if c.settings.mode == Always { AlwaysCreates(c, db, r, locked); }
    if result.Ok? {
      CoreKeys(pool);
      NewRowRests(db, pool, row, p, c.settings);
    }
  }

  lemma NewRowRests(db: Db, pool: Db, row: Session, p: Parties, s: Settings)
    requires PinsOnly(db, pool) && pool.nextSession !in pool.sessions
    requires NumbersRest(db.numbers, db.sessions, s, CooldownEdge(db, s))
    requires Eligible(pool, s, row.number, {p.a.hash, p.b.hash})
    ensures var after := Insert(pool, row, p);
            after.now == db.now && NumbersRest(after.numbers, after.sessions, s, CooldownEdge(db, s))
  {
    var after := Insert(pool, row, p);
    forall sid | sid in after.sessions && after.sessions[sid].status == Active && s.numberScope
      ensures after.sessions[sid].number in after.numbers
                && after.numbers[after.sessions[sid].number].releasedAt.Some? ==>
                after.numbers[after.sessions[sid].number].releasedAt.value < CooldownEdge(db, s)
    {
      if sid != pool.nextSession { assert SameRowButPin(db.sessions[sid], pool.sessions[sid]); }
    }
  }

  lemma {:induction false} EndAllEnds(db: Db, rows: seq<nat>)
    requires db.sessions.Keys == db.parties.Keys && Sweepable(db, rows)
    ensures var after := EndAll(db, rows);
            && after.numbers == db.numbers && after.now == db.now && after.sessions.Keys == db.sessions.Keys
            && (forall sid :: sid in db.sessions ==>
                  after.sessions[sid] == db.sessions[sid] || after.sessions[sid].status != Active)
    decreases |rows|
  {
    if rows != [] {
      RestSweepable(db, rows);
      EndIs(db, rows[0], Expired);
      EndAllEnds(EndSession(db, rows[0], Expired), rows[1..]);
    }
  }

  lemma {:induction false} ReleaseAllReleases(db: Db, rows: seq<nat>)
    requires forall i :: 0 <= i < |rows| ==> rows[i] in db.sessions
    ensures var after := ReleaseAll(db, rows);
            && after.sessions == db.sessions && after.now == db.now && after.numbers.Keys == db.numbers.Keys
            && (forall n :: n in db.numbers && ActiveOn(db.sessions, n) != {} ==> after.numbers[n] == db.numbers[n])
    decreases |rows|
  {
    if rows != [] { ReleaseAllReleases(Release(db, db.sessions[rows[0]].number), rows[1..]); }
  }

  lemma SweepKeepsHabits(c: Config, db: Db, limit: nat)
    requires Core(db) && Habits(db, c.settings)
    ensures Habits(Sweep(c, db, limit).0, c.settings)
  {
    CoreKeys(db);
    hide Core, Habits, DueRows, EndAll, ReleaseAll, Calmer, Sweepable;
    var rows := DueRows(c, db, limit);
    DueSweepable(c, db, limit);
    EndAllKeepsKeys(db, rows);
    SweepCalms(db, rows);
    HabitsFrame(db, ReleaseAll(EndAll(db, rows), rows), c.settings);
  }

  lemma SweepCalms(db: Db, rows: seq<nat>)
    requires db.sessions.Keys == db.parties.Keys && Sweepable(db, rows)
    requires EndAll(db, rows).sessions.Keys == db.sessions.Keys
    ensures Calmer(db, ReleaseAll(EndAll(db, rows), rows))
  {
    EndAllEnds(db, rows);
    ReleaseAllReleases(EndAll(db, rows), rows);
    hide EndAll, ReleaseAll;
  }

  lemma CloseKeepsHabits(s: Settings, db: Db, sid: nat, status: Status)
    requires Core(db) && Habits(db, s) && status != Active
    ensures Habits(CloseSession(db, sid, status).0, s)
  {
    CoreKeys(db);
    hide Core, Habits, EndSession, Release, Calmer;
    if sid in db.sessions && db.sessions[sid].status == Active {
      var ended, n := EndSession(db, sid, status), db.sessions[sid].number;
      EndCalms(db, sid, status);
      HabitsFrame(db, ended, s);
      ReleaseCalms(ended, n);
      HabitsFrame(ended, Release(ended, n), s);
    }
  }

  lemma EndCalms(db: Db, sid: nat, status: Status)
    requires sid in db.sessions && sid in db.parties && db.sessions[sid].status == Active && status != Active
    ensures Calmer(db, EndSession(db, sid, status))
  {
    EndIs(db, sid, status);
    hide EndSession;
  }

  lemma ReleaseCalms(db: Db, n: nat)
    ensures Calmer(db, Release(db, n))
  {
    ReleaseReleases(db, n);
    hide Release;
  }

  lemma ReleaseReleases(db: Db, n: nat)
    ensures var after := Release(db, n);
            && after.sessions == db.sessions && after.now == db.now && after.numbers.Keys == db.numbers.Keys
            && (forall m :: m in db.numbers && ActiveOn(db.sessions, m) != {} ==> after.numbers[m] == db.numbers[m])
  {
  }

  lemma AddKeepsHabits(db: Db, s: Settings, e164: string, enabled: bool)
    requires Core(db) && Habits(db, s)
    ensures Habits(AddNumber(db, e164, enabled).0, s)
  {
    CoreKeys(db);
    forall sid | sid in db.sessions ensures db.sessions[sid].number in db.numbers { CoreRow(db, sid); }
    hide Core, Phone.Normalize, AllCoded;
  }

  lemma ApplyKeepsHabits(c: Config, db: Db, op: Op)
    requires ValidSettings(c.settings) && Inv(db) && Habits(db, c.settings)
    ensures Habits(Apply(c, db, op), c.settings)
  {
    InvCore(db);
    hide Inv, Core, Habits, AddNumber, SetNumberStatus, CreateSession;
    hide CloseSession, ExtendSession, Sweep, Purge, Tick, Resolve;
    match op
    case OpAddNumber(e164, enabled) => AddKeepsHabits(db, c.settings, e164, enabled);
    case OpCreate(request, locked) => CreateKeepsHabits(c, db, request, locked);
    case OpClose(sid, expired) => CloseKeepsHabits(c.settings, db, sid, if expired then Expired else Closed);
    case OpSweep(limit) => SweepKeepsHabits(c, db, limit);
    case _ =>
      OtherOpsUnmoved(c, db, op);
      UnmovedKeepsHabits(db, Apply(c, db, op), c.settings);
  }

  lemma UnmovedKeepsHabits(db: Db, after: Db, s: Settings)
    requires Habits(db, s) && Unmoved(db, after)
    ensures Habits(after, s)
  {
    assert Calmer(db, after);
    hide Calmer, Unmoved, Habits;
    HabitsFrame(db, after, s);
  }

  lemma InvCore(db: Db)
    requires Inv(db)
    ensures Core(db)
  {
  }

  /** No row became active or changed while active, and no release was recorded. */
  ghost predicate Unmoved(db: Db, after: Db) {
    && db.now <= after.now
    && (forall sid :: sid in after.sessions && after.sessions[sid].status == Active ==>
          && sid in db.sessions && db.sessions[sid].status == Active
          && after.sessions[sid].number == db.sessions[sid].number
          && after.sessions[sid].extCode == db.sessions[sid].extCode)
    && (forall n :: n in after.numbers ==> n in db.numbers && after.numbers[n].releasedAt == db.numbers[n].releasedAt)
  }

  lemma OtherOpsUnmoved(c: Config, db: Db, op: Op)
    requires ValidSettings(c.settings) && Inv(db)
    requires op.OpSetStatus? || op.OpExtend? || op.OpPurge? || op.OpTick? || op.OpResolve?
    ensures Unmoved(db, Apply(c, db, op))
  {
    hide Inv, Unmoved;
    match op
    case OpExtend(sid, ttl, expiresAt) => ExtendUnmoved(c.settings, db, sid, ttl, expiresAt);
    case OpSetStatus(e164, enabled) => StatusUnmoved(db, e164, enabled);
    case OpResolve(dialled, caller) => ResolveUnmoved(c, db, dialled, caller);
    case OpPurge => PurgeUnmoved(c.settings, db);
    case OpTick(elapsed) => TickUnmoved(db, elapsed);
  }

  lemma StatusUnmoved(db: Db, e164: string, enabled: bool)
    ensures Unmoved(db, SetNumberStatus(db, e164, enabled).0)
  {
    hide Phone.Normalize;
  }

  lemma ResolveUnmoved(c: Config, db: Db, dialled: string, caller: string)
    ensures Unmoved(db, Resolve(c, db, dialled, caller).0)
  {
    ResolveWrites(c, db, dialled, caller);
    hide Resolve;
  }

  lemma PurgeUnmoved(s: Settings, db: Db)
    ensures Unmoved(db, Purge(s, db))
  {
  }

  lemma TickUnmoved(db: Db, elapsed: nat)
    ensures Unmoved(db, Tick(db, elapsed))
  {
  }

  lemma ExtendUnmoved(s: Settings, db: Db, sid: nat, ttl: Option<int>, expiresAt: Option<int>)
    ensures Unmoved(db, ExtendSession(s, db, sid, ttl, expiresAt).0)
  {
  }

  lemma {:induction false} RunKeepsHabits(c: Config, start: int, ops: seq<Op>)
    requires ValidSettings(c.settings)
    ensures Habits(Run(c, start, ops), c.settings)
  {
    hide Inv, Habits, Apply;
    if ops == [] {
      EmptyHabits(start, c.settings);
    } else {
      var k := |ops| - 1;
      RunInv(c, start, ops[..k]);
      RunKeepsHabits(c, start, ops[..k]);
      ApplyKeepsHabits(c, Run(c, start, ops[..k]), ops[k]);
    }
  }

  lemma EmptyHabits(start: int, s: Settings)
    ensures Habits(EmptyDb(start), s)
  {
  }

  /** Number scope, over every run: a number released within the cooldown has no active session. */
  lemma QuarantinedNumberIsIdle(c: Config, start: int, ops: seq<Op>, n: nat)
    requires ValidSettings(c.settings) && c.settings.numberScope
    requires var db := Run(c, start, ops);
             n in db.numbers && db.numbers[n].releasedAt.Some?
             && db.numbers[n].releasedAt.value >= db.now - c.settings.cooldownHours * HOUR
    ensures ActiveOn(Run(c, start, ops).sessions, n) == {}
  {
    RunKeepsHabits(c, start, ops);
    var db := Run(c, start, ops);
    hide Inv, Run;
    assert NumbersRest(db.numbers, db.sessions, c.settings, CooldownEdge(db, c.settings));
  }

  /** In runs that always use mode "always" no session is ever promoted. */
  lemma AlwaysNeverPromotes(c: Config, start: int, ops: seq<Op>, r: Request, locked: set<nat>)
    requires ValidSettings(c.settings) && c.settings.mode == Always
    ensures var db := Run(c, start, ops); var (after, result) := CreateSession(c, db, r, locked);
            && (forall sid :: sid in db.sessions ==> sid in after.sessions && after.sessions[sid] == db.sessions[sid])
            && (result.Ok? ==> result.value.allocation.promoted == [])
  {
    RunInv(c, start, ops);
    RunKeepsHabits(c, start, ops);
    AlwaysCreates(c, Run(c, start, ops), r, locked);
    hide Core, History, CacheOk, Run, CreateSession;
  }
}
