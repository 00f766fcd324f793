/** Short runs of the pool, settings left open: what they reach, and what they show about other promises. */
module Scenes {
  import opened Basics
  import opened Crypto
  import opened Schema
  import opened Allocation
  import opened Sessions
  import opened Routing
  import opened Invariant
  import opened Lifecycle
  import opened Steps
  import opened Pool
  import opened Cooling
  import opened Serial
  import Phone

  const ALICE: string := "+77011230001"
  const BOB: string := "+77011230002"
  const CAROL: string := "+77011230003"
  const DAVE: string := "+77011230004"
  const PROXY: string := "+77172000101"

  lemma Names()
    ensures Phone.IsE164(ALICE) && Phone.IsE164(BOB) && Phone.IsE164(CAROL) && Phone.IsE164(DAVE) && Phone.IsE164(PROXY)
    ensures ALICE != BOB && ALICE != CAROL && ALICE != DAVE && BOB != CAROL && BOB != DAVE && CAROL != DAVE
  {
    assert ALICE[11] == '1' && BOB[11] == '2' && CAROL[11] == '3' && DAVE[11] == '4';
  }

  lemma RunStep(c: Config, start: int, ops: seq<Op>, op: Op)
    requires ValidSettings(c.settings)
    ensures Run(c, start, ops + [op]) == Apply(c, Run(c, start, ops), op)
  {
    assert (ops + [op])[..|ops|] == ops;
    hide Apply;
  }

  // ---- One number ------------------------------------------------------------------------

  function Numbered(start: int): Db {
    EmptyDb(start).(numbers := map[0 := Number(PROXY, true, None)], nextNumber := 1)
  }

  predicate OneNumber(db: Db) {
    && db.numbers.Keys == {0} && db.numbers[0].e164 == PROXY && db.numbers[0].enabled
    && db.cache == map[]
  }

  const ADD: Op := OpAddNumber(PROXY, true)

  lemma NumberIsAdded(c: Config, start: int)
    requires ValidSettings(c.settings)
    ensures Run(c, start, [ADD]) == Numbered(start) && OneNumber(Numbered(start))
  {
    RunStep(c, start, [], ADD);
    assert [] + [ADD] == [ADD] && Run(c, start, []) == EmptyDb(start);
    Names();
    Phone.NormalizeFixesE164(PROXY);
    hide Phone.IsE164, Phone.Normalize, Run;
    assert AddNumber(EmptyDb(start), PROXY, true).0 == Numbered(start);
  }

  // ---- A session on it ---------------------------------------------------------------------

  /** A session of one second between two parties. */
  function Ask(a: string, b: string): Request {
    Request(a, b, Some(1), None, true)
  }

  function CodeAt(c: Config, at: nat): Option<string>
    requires ValidSettings(c.settings)
  {
    if c.settings.mode == Always then Some(Pin(c, at)) else None
  }

  /** The state with that session added on the only number. */
  function Placed(c: Config, db: Db, a: string, b: string): Db
    requires ValidSettings(c.settings)
  {
    var code := CodeAt(c, db.drawn);
    Insert(db.(drawn := if c.settings.mode == Always then db.drawn + 1 else db.drawn),
           NewRow(db.now, 0, code, 1, None), NewPair(a, b, 0, code))
  }

  lemma OnlyRow(c: Config, keys: map<nat, SortKey>, n: nat)
    requires keys.Keys == {n}
    ensures c.plan(keys) == [n]
  {
    var rows := c.plan(keys);
    assert Answers(rows, keys) && n in keys;
    DistinctLength(rows, {n});
  }

  /** The only number takes a pair that is neither engaged nor in quarantine there. */
  predicate Takes(c: Config, db: Db, a: string, b: string)
    requires ValidSettings(c.settings)
  {
    && c.settings.maxTtl >= 1 && Phone.IsE164(a) && Phone.IsE164(b) && a != b
    && if c.settings.mode == Always then
         && Eligible(db, c.settings, 0, PairHashes(a, b)) && ToPromote(db, 0, PairHashes(a, b)) == {}
         && |ActiveOn(db.sessions, 0)| < c.settings.maxPerNumber
         && CodeAt(c, db.drawn).value !in ActiveCodes(db.sessions, 0)
       else PassesExclusive(db, c.settings, 0, PairHashes(a, b))
  }

  /** In mode always the only number is shared under the next PIN of the tape. */
  lemma SharesOnly(c: Config, db: Db, hashes: set<PartyHash>)
    requires ValidSettings(c.settings) && c.settings.mode == Always
    requires db.numbers.Keys == {0} && Eligible(db, c.settings, 0, hashes) && ToPromote(db, 0, hashes) == {}
    requires |ActiveOn(db.sessions, 0)| < c.settings.maxPerNumber
               && CodeAt(c, db.drawn).value !in ActiveCodes(db.sessions, 0)
    ensures AllocateShared(c, db, hashes, {}) == (db.(drawn := db.drawn + 1),
              Some(Allocated(0, CodeAt(c, db.drawn), [])))
  {
    var keys := CandidateKeys(db, c.settings, hashes);
    OnlyRow(c, keys, 0);
    assert CandidateRows(c, db, hashes) == [0];
    NothingToPromote(c, db, hashes);
    hide Eligible, CandidateRows, ActiveOn, ToPromote, ActiveCodes, PromotionRows, PromoteAll;
    TriesOnly(c, db, hashes);
    hide TryCandidate;
    assert [0][1..] == [];
  }

  lemma NothingToPromote(c: Config, db: Db, hashes: set<PartyHash>)
    requires ToPromote(db, 0, hashes) == {}
    ensures PromotionRows(c, db, 0, hashes) == []
  {
    var rows := PromotionRows(c, db, 0, hashes);
    DistinctLength(rows, ToPromote(db, 0, hashes));
  }

  lemma TriesOnly(c: Config, db: Db, hashes: set<PartyHash>)
    requires ValidSettings(c.settings) && c.settings.mode == Always
    requires PromotionRows(c, db, 0, hashes) == [] && CodeAt(c, db.drawn).value !in ActiveCodes(db.sessions, 0)
    ensures TryCandidate(c, db, 0, hashes) == (db.(drawn := db.drawn + 1), Some(Allocated(0, CodeAt(c, db.drawn), [])))
  {
    hide ActiveCodes, PromotionRows;
  }

  lemma AllocatesOnly(c: Config, db: Db, a: string, b: string)
    requires ValidSettings(c.settings) && OneNumber(db) && Takes(c, db, a, b)
    ensures Allocate(c, db, PairHashes(a, b), true, {}) ==
            (db.(drawn := if c.settings.mode == Always then db.drawn + 1 else db.drawn),
             Some(Allocated(0, CodeAt(c, db.drawn), [])))
  {
    var hashes := PairHashes(a, b);
    hide Phone.IsE164, PassesExclusive, Eligible;
    if c.settings.mode == Always {
      SharesOnly(c, db, hashes);
    } else {
      OnlyRow(c, ExclusiveKeys(db, c.settings, hashes, {}), 0);
    }
    hide AllocateShared;
  }

  lemma PairIsAsked(c: Config, a: string, b: string)
    requires Phone.IsE164(a) && Phone.IsE164(b) && a != b && c.settings.maxTtl >= 1
    ensures CheckRequest(c.settings, Ask(a, b)) == Ok((a, b)) && EffectiveTtl(c.settings, Ask(a, b).ttl) == 1
  {
    Phone.NormalizeFixesE164(a);
    Phone.NormalizeFixesE164(b);
    hide Phone.IsE164, Phone.Normalize;
  }

  lemma PairIsCreated(c: Config, db: Db, a: string, b: string)
    requires ValidSettings(c.settings) && Inv(db) && OneNumber(db) && Takes(c, db, a, b)
    ensures var placed := Placed(c, db, a, b);
            CreateSession(c, db, Ask(a, b), {}).0 == Invalidate(placed, E164Of(placed, 0))
  {
    PairIsAsked(c, a, b);
    AllocatesOnly(c, db, a, b);
    CreateKeepsInv(c, db, Ask(a, b), {});
    hide Inv, Phone.IsE164, Takes, Allocate, CheckRequest, ExtCodesUnique, PartiesUnique, NewPair, NewRow, EffectiveTtl;
    hide Invalidate, E164Of, CodeAt;
  }

  lemma PairIsPlaced(c: Config, db: Db, a: string, b: string)
    requires ValidSettings(c.settings) && Inv(db) && OneNumber(db) && Takes(c, db, a, b)
    ensures Apply(c, db, OpCreate(Ask(a, b), {})) == Placed(c, db, a, b)
    ensures OneNumber(Placed(c, db, a, b))
  {
    hide Inv, Takes;
    PairIsCreated(c, db, a, b);
    hide CreateSession, NewRow, NewPair, CodeAt;
    var placed := Placed(c, db, a, b);
    assert Invalidate(placed, E164Of(placed, 0)) == placed;
  }

  // ---- One pair, and two ------------------------------------------------------------------------

  /** The settings admit a session at all. */
  predicate CanCreate(c: Config) {
    c.settings.maxTtl >= 1 && (c.settings.mode == Always ==> c.settings.maxPerNumber >= 1)
  }

  /** The settings admit two sessions on one number; in mode always the first two PINs drawn must differ. */
  predicate CanShare(c: Config)
    requires ValidSettings(c.settings)
  {
    c.settings.maxTtl >= 1
        && (c.settings.mode == Always ==> c.settings.maxPerNumber >= 2 && CodeAt(c, 0) != CodeAt(c, 1))
  }

  function Create(a: string, b: string): Op {
    OpCreate(Ask(a, b), {})
  }

  function OnePair(c: Config, start: int, a: string, b: string): Db
    requires ValidSettings(c.settings)
  {
    Placed(c, Numbered(start), a, b)
  }

  lemma OnePairRuns(c: Config, start: int, a: string, b: string)
    requires ValidSettings(c.settings) && CanCreate(c) && Phone.IsE164(a) && Phone.IsE164(b) && a != b
    ensures Run(c, start, [ADD, Create(a, b)]) == OnePair(c, start, a, b) && OneNumber(OnePair(c, start, a, b))
  {
    hide *;
    NumberIsAdded(c, start);
    TakesFirst(c, start, a, b);
    PlacedRuns(c, start, [ADD], a, b);
    OnePairIs(c, start, a, b);
    assert [ADD] + [Create(a, b)] == [ADD, Create(a, b)];
  }

  /** The pair is placed next. */
  lemma PlacedRuns(c: Config, start: int, ops: seq<Op>, a: string, b: string)
    requires ValidSettings(c.settings) && OneNumber(Run(c, start, ops)) && Takes(c, Run(c, start, ops), a, b)
    ensures Run(c, start, ops + [Create(a, b)]) == Placed(c, Run(c, start, ops), a, b)
    ensures OneNumber(Placed(c, Run(c, start, ops), a, b))
  {
    RunInv(c, start, ops);
    RunStep(c, start, ops, Create(a, b));
    hide Run, Inv, Takes, Placed, Apply, OneNumber;
    PairIsPlaced(c, Run(c, start, ops), a, b);
  }

  lemma OnePairIs(c: Config, start: int, a: string, b: string)
    requires ValidSettings(c.settings)
    ensures OnePair(c, start, a, b) == Placed(c, Numbered(start), a, b)
  {
    hide Placed, Numbered;
  }

  lemma TakesFirst(c: Config, start: int, a: string, b: string)
    requires ValidSettings(c.settings) && CanCreate(c) && Phone.IsE164(a) && Phone.IsE164(b) && a != b
    ensures Takes(c, Numbered(start), a, b)
  {
    hide Phone.IsE164;
    assert ActiveOn(Numbered(start).sessions, 0) == {} && ToPromote(Numbered(start), 0, PairHashes(a, b)) == {};
  }

  function TwoPairs(c: Config, start: int, a: string, b: string, x: string, y: string): Db
    requires ValidSettings(c.settings)
  {
    Placed(c, OnePair(c, start, a, b), x, y)
  }

  predicate Companions(c: Config, a: string, b: string, x: string, y: string) {
    && Phone.IsE164(a) && Phone.IsE164(b) && a != b && Phone.IsE164(x) && Phone.IsE164(y) && x != y
    && (c.settings.mode != Always ==> x != a && x != b && y != a && y != b)
  }

  lemma TwoPairsRun(c: Config, start: int, a: string, b: string, x: string, y: string)
    requires ValidSettings(c.settings) && CanShare(c) && Companions(c, a, b, x, y)
    ensures Run(c, start, [ADD, Create(a, b), Create(x, y)]) == TwoPairs(c, start, a, b, x, y)
    ensures OneNumber(TwoPairs(c, start, a, b, x, y))
  {
    OnePairRuns(c, start, a, b);
    TakesSecond(c, start, a, b, x, y);
    assert TwoPairs(c, start, a, b, x, y) == Placed(c, OnePair(c, start, a, b), x, y);
    assert [ADD, Create(a, b)] + [Create(x, y)] == [ADD, Create(a, b), Create(x, y)];
    hide *;
    PlacedRuns(c, start, [ADD, Create(a, b)], x, y);
  }

  lemma TakesSecond(c: Config, start: int, a: string, b: string, x: string, y: string)
    requires ValidSettings(c.settings) && CanShare(c) && Companions(c, a, b, x, y)
    ensures Takes(c, OnePair(c, start, a, b), x, y)
  {
    hide Phone.IsE164, Pin;
    var db := OnePair(c, start, a, b);
    assert db.sessions.Keys == {0} && db.parties.Keys == {0};
    assert ActiveOn(db.sessions, 0) == {0};
    if c.settings.mode == Always {
      assert ToPromote(db, 0, PairHashes(x, y)) == {};
    }
  }

  // ---- A shorter retention forgets ----------------------------------------------------------------

  /** Alice and Bob have a session on the number, and Carol and Dave one too if both pairs do. */
  function Opening(both: bool): seq<Op> {
    if both then [ADD, Create(ALICE, BOB), Create(CAROL, DAVE)] else [ADD, Create(ALICE, BOB)]
  }

  function Opened(c: Config, start: int, both: bool): Db
    requires ValidSettings(c.settings)
  {
    if both then TwoPairs(c, start, ALICE, BOB, CAROL, DAVE) else OnePair(c, start, ALICE, BOB)
  }

  /** The first session is closed, and time passes. */
  function Forgetting(elapsed: nat, both: bool): seq<Op> {
    Opening(both) + [OpClose(0, false)] + [OpTick(elapsed)]
  }

  /** The other pair keeps the number from being released, which in number scope would quarantine it. */
  predicate CanForget(c: Config, both: bool)
    requires ValidSettings(c.settings)
  {
    if both then CanShare(c) && (c.settings.mode == Always ==> CodeAt(c, 1) != CodeAt(c, 2))
    else CanCreate(c) && !c.settings.numberScope
  }

  lemma OpeningRuns(c: Config, start: int, both: bool)
    requires ValidSettings(c.settings) && CanForget(c, both)
    ensures Run(c, start, Opening(both)) == Opened(c, start, both)
  {
    Names();
    hide Phone.IsE164, Run, CanShare, CanCreate, OnePair, TwoPairs, OneNumber;
    if both { TwoPairsRun(c, start, ALICE, BOB, CAROL, DAVE); } else { OnePairRuns(c, start, ALICE, BOB); }
  }

  /** Carol and Dave's session, if there is one, is the next and active. */
  predicate Companion(c: Config, db: Db, both: bool)
    requires ValidSettings(c.settings)
  {
    && OneNumber(db) && db.nextSession == (if both then 2 else 1)
    && (both ==>
          && db.numbers[0].releasedAt.None? && 1 in db.sessions && 1 in db.parties
          && IsActiveOn(db.sessions, 1, 0) && db.sessions[1].extCode == CodeAt(c, 1)
          && db.parties[1] == NewPair(CAROL, DAVE, 0, CodeAt(c, 1)))
    && db.drawn == if c.settings.mode == Always then db.nextSession else 0
  }

  /** The number after that: quarantined for Alice and Bob, in use by Carol and Dave if they are there. */
  predicate FirstEnded(c: Config, db: Db, start: int, elapsed: nat, both: bool)
    requires ValidSettings(c.settings)
  {
    && Companion(c, db, both) && db.now == start + elapsed
    && db.sessions.Keys == db.parties.Keys == (if both then {0, 1} else {0})
    && db.sessions[0].status == Closed && db.sessions[0].closedAt == Some(start)
    && db.parties[0] == SyncParties(NewPair(ALICE, BOB, 0, CodeAt(c, 0)), db.sessions[0])
    && Closure(0, PartyHash(ALICE), start, db.nextSession) in db.closures
  }

  lemma ForgettingRuns(c: Config, start: int, elapsed: nat, both: bool)
    requires ValidSettings(c.settings) && CanForget(c, both)
    ensures FirstEnded(c, Run(c, start, Forgetting(elapsed, both)), start, elapsed, both)
  {
    OpeningRuns(c, start, both);
    FirstCloses(c, start, both);
    hide Opened, CanForget, CodeAt, FirstEnded;
    ClosedThenLater(c, start, Opening(both), elapsed);
    hide Run, CloseSession, Tick;
    LaterFirstEnded(c, CloseSession(Run(c, start, Opening(both)), 0, Closed).0, start, elapsed, both);
  }

  lemma ClosedThenLater(c: Config, start: int, ops: seq<Op>, elapsed: nat)
    requires ValidSettings(c.settings)
    ensures Run(c, start, ops + [OpClose(0, false)] + [OpTick(elapsed)]) ==
            Tick(CloseSession(Run(c, start, ops), 0, Closed).0, elapsed)
  {
    RunStep(c, start, ops, OpClose(0, false));
    RunStep(c, start, ops + [OpClose(0, false)], OpTick(elapsed));
    hide Run, CloseSession, Tick;
  }

  lemma LaterFirstEnded(c: Config, db: Db, start: int, elapsed: nat, both: bool)
    requires ValidSettings(c.settings) && FirstEnded(c, db, start, 0, both)
    ensures FirstEnded(c, Tick(db, elapsed), start, elapsed, both)
  {
    hide CodeAt, NewPair, SyncParties;
  }

  lemma FirstCloses(c: Config, start: int, both: bool)
    requires ValidSettings(c.settings)
    ensures FirstEnded(c, CloseSession(Opened(c, start, both), 0, Closed).0, start, 0, both)
  {
    var db := Opened(c, start, both);
    var ended := EndSession(db, 0, Closed);
    assert both ==> 1 in ActiveOn(ended.sessions, 0);
    hide CodeAt, NewParty;
  }

  /** Long enough for a purge to delete the closed session, too short for its quarantine to end. */
  predicate Between(s: Settings, elapsed: nat) {
    Retention(s) < elapsed < Cooldown(s)
  }

  /** A shorter retention leaves such a moment: both windows are whole hours. */
  lemma ShortRetention(s: Settings) returns (elapsed: nat)
    requires !RetentionCovers(s)
    ensures Between(s, elapsed)
  {
    assert Retention(s) == (24 * s.sessionRetentionDays) * HOUR;
    assert 24 * s.sessionRetentionDays < s.cooldownHours;
    elapsed := if Retention(s) < 0 then 0 else Retention(s) + 1;
  }

  /** What the purge leaves: Carol and Dave's session, or nothing. */
  predicate FirstForgotten(c: Config, db: Db, start: int, elapsed: nat, both: bool)
    requires ValidSettings(c.settings)
  {
    && Companion(c, db, both) && db.now == start + elapsed
    && db.sessions.Keys == db.parties.Keys == (if both then {1} else {})
    && Closure(0, PartyHash(ALICE), start, db.nextSession) in db.closures
  }

  lemma PurgeFirst(c: Config, db: Db, start: int, elapsed: nat, both: bool)
    requires ValidSettings(c.settings) && FirstEnded(c, db, start, elapsed, both) && Between(c.settings, elapsed)
    ensures FirstForgotten(c, Purge(c.settings, db), start, elapsed, both)
  {
    assert Doomed(db, db.now - Retention(c.settings)) == {0};
    hide CodeAt, NewPair, SyncParties, KeysOf;
  }

  /** The purge lets the number be given to Alice again before her quarantine there has ended. */
  lemma PurgeFrees(c: Config, db: Db, start: int, elapsed: nat, both: bool)
    requires ValidSettings(c.settings) && FirstEnded(c, db, start, elapsed, both) && Between(c.settings, elapsed)
    requires c.settings.numberScope ==> both
    ensures var hashes := PairHashes(ALICE, BOB);
            && !Eligible(db, c.settings, 0, hashes)
            && PassesExclusive(Purge(c.settings, db), c.settings, 0, hashes)
  {
    StillQuarantined(c, db, start, elapsed, both);
    PurgeFirst(c, db, start, elapsed, both);
    hide FirstEnded, Purge, Eligible, PassesExclusive;
    FreeAfterPurge(c, Purge(c.settings, db), start, elapsed, both);
  }

  lemma StillQuarantined(c: Config, db: Db, start: int, elapsed: nat, both: bool)
    requires ValidSettings(c.settings) && FirstEnded(c, db, start, elapsed, both) && Between(c.settings, elapsed)
    ensures !Eligible(db, c.settings, 0, PairHashes(ALICE, BOB))
  {
    hide CodeAt;
    assert Quarantines(db.parties[0].a, 0, PairHashes(ALICE, BOB), CooldownEdge(db, c.settings));
  }

  lemma FreeAfterPurge(c: Config, db: Db, start: int, elapsed: nat, both: bool)
    requires ValidSettings(c.settings) && FirstForgotten(c, db, start, elapsed, both)
    requires c.settings.numberScope ==> both
    ensures PassesExclusive(db, c.settings, 0, PairHashes(ALICE, BOB))
  {
    Names();
    hide CodeAt, Phone.IsE164;
  }

  // ---- What retention decides ------------------------------------------------------------------

  /** No session can be created at all. */
  predicate Barren(s: Settings) {
    s.maxTtl <= 0 || (s.mode == Always && s.maxPerNumber <= 0)
  }

  /** A purge can forget a quarantine: retention is shorter, and nothing else keeps the cooldown. */
  predicate Forgetful(s: Settings) {
    !RetentionCovers(s) && !Barren(s) && !OneAtATime(s)
  }

  predicate SameEligibility(s: Settings, db: Db, n: nat, hashes: set<PartyHash>) {
    Eligible(db, s, n, hashes) == Eligible(Purge(s, db), s, n, hashes)
  }

  /** The same settings with a tape that draws 0, 1, 2, ... */
  function Counting(c: Config): Config {
    c.(draws := (i: nat) => i)
  }

  lemma CountingApart(c: Config, i: nat)
    requires ValidSettings(c.settings) && i <= 1
    ensures Pin(Counting(c), i) != Pin(Counting(c), i + 1)
  {
    var length := c.settings.pinLength;
    assert Pow10(length) >= 10 by { TenAtLeast(length); }
    ExtCodeRoundTrip(i, length);
    ExtCodeRoundTrip(i + 1, length);
    SmallMod(i, Pow10(length));
    SmallMod(i + 1, Pow10(length));
    hide ExtCode, Pow10, Value;
  }

  lemma {:induction false} TenAtLeast(n: nat)
    requires n >= 1
    ensures Pow10(n) >= 10
  {
    if n > 1 { TenAtLeast(n - 1); } else { assert Pow10(1) == 10 * Pow10(0); }
  }

  lemma ForgetfulCanForget(c: Config)
    requires ValidSettings(c.settings) && Forgetful(c.settings)
    ensures CanForget(Counting(c), c.settings.numberScope)
  {
    CountingApart(c, 0);
    CountingApart(c, 1);
    hide Pin, RetentionCovers;
  }

  /**
    For all settings, exactly: a purge may make a number eligible for a pair that was quarantined from
    it, on some run with some PINs drawn, if and only if retention is shorter than the cooldown, a
    session can be created, and mode "always" in number scope does not leave one session a number.
   */
  lemma PurgeTransparentExactly(c: Config)
    requires ValidSettings(c.settings)
    ensures !Forgetful(c.settings) <==>
              forall d: Config, start, ops, n, hashes :: d.settings == c.settings ==>
                SameEligibility(c.settings, Run(d, start, ops), n, hashes)
  {
    hide Run, SameEligibility, Forgetful;
    if !Forgetful(c.settings) {
      forall d: Config, start, ops, n, hashes | d.settings == c.settings
        ensures SameEligibility(c.settings, Run(d, start, ops), n, hashes)
      {
        TransparentOnRuns(d, start, ops, n, hashes);
      }
    } else {
      PurgeIsSeen(c);
    }
  }

  lemma TransparentOnRuns(c: Config, start: int, ops: seq<Op>, n: nat, hashes: set<PartyHash>)
    requires ValidSettings(c.settings) && !Forgetful(c.settings)
    ensures SameEligibility(c.settings, Run(c, start, ops), n, hashes)
  {
    var db := Run(c, start, ops);
    RunInv(c, start, ops);
    hide Run, Eligible, RetentionCovers, OneAtATime, Barren;
    if RetentionCovers(c.settings) {
      PurgeTransparent(c.settings, db, 0, n, hashes);
      hide Inv, Purge;
    } else if OneAtATime(c.settings) {
      SerialTransparent(c, start, ops, n, hashes);
    } else {
      NoSessions(c, start, ops);
      assert Purge(c.settings, db) == db;
    }
  }

  lemma PurgeIsSeen(c: Config)
    requires ValidSettings(c.settings) && Forgetful(c.settings)
    ensures exists d: Config, start, ops, n, hashes ::
              d.settings == c.settings && !SameEligibility(c.settings, Run(d, start, ops), n, hashes)
  {
    var d, both := Counting(c), c.settings.numberScope;
    var elapsed := ShortRetention(c.settings);
    ForgetfulCanForget(c);
    ForgettingRuns(d, 0, elapsed, both);
    var db := Run(d, 0, Forgetting(elapsed, both));
    hide Run, FirstEnded, CanForget, Between;
    PurgeFrees(d, db, 0, elapsed, both);
    assert !SameEligibility(c.settings, db, 0, PairHashes(ALICE, BOB)) by { hide Purge, Forgetful; }
  }

  /** With no lifetime or no room allowed nothing is ever stored. */
  lemma {:induction false} NoSessions(c: Config, start: int, ops: seq<Op>)
    requires ValidSettings(c.settings) && Barren(c.settings)
    ensures var db := Run(c, start, ops); db.sessions == map[] && db.parties == map[]
    decreases |ops|
  {
    if ops != [] {
      var k := |ops| - 1;
      NoSessions(c, start, ops[..k]);
      RunInv(c, start, ops[..k]);
      hide Inv, Apply;
      NothingStored(c, Run(c, start, ops[..k]), ops[k]);
    }
  }

  lemma NothingStored(c: Config, db: Db, op: Op)
    requires ValidSettings(c.settings) && Barren(c.settings) && Inv(db) && db.sessions == map[] && db.parties == map[]
    ensures var after := Apply(c, db, op); after.sessions == map[] && after.parties == map[]
  {
    hide Inv;
    match op
    case OpCreate(request, locked) => NothingCreated(c, db, request, locked);
    case OpSweep(limit) => NothingSwept(c, db, limit);
    case OpAddNumber(_, _) => PoolOpsFrame(c, db, op);
    case OpSetStatus(_, _) => PoolOpsFrame(c, db, op);
    case OpResolve(_, _) => PoolOpsFrame(c, db, op);
    case _ =>
  }

  lemma NothingCreated(c: Config, db: Db, r: Request, locked: set<nat>)
    requires ValidSettings(c.settings) && Barren(c.settings)
    ensures CreateSession(c, db, r, locked).0 == db
  {
    if c.settings.maxTtl > 0 && CheckRequest(c.settings, r).Ok? {
      var (a, b) := CheckRequest(c.settings, r).value;
      NoRoom(c, db, CandidateRows(c, db, PairHashes(a, b)), CandidateKeys(db, c.settings, PairHashes(a, b)),
          PairHashes(a, b), locked);
      hide CheckRequest, CandidateRows, CandidateKeys, TryCandidates;
    } else {
      hide Phone.Normalize, Allocate;
    }
  }

  lemma {:induction false} NoRoom(c: Config, db: Db, rows: seq<nat>, counts: map<nat, SortKey>, hashes: set<PartyHash>,
                                  locked: set<nat>)
    requires ValidSettings(c.settings) && c.settings.maxPerNumber <= 0
    requires forall i :: 0 <= i < |rows| ==> rows[i] in counts && counts[rows[i]].first >= 0
    ensures TryCandidates(c, db, rows, counts, hashes, locked) == (db, None)
    decreases |rows|
  {
    if rows != [] { NoRoom(c, db, rows[1..], counts, hashes, locked); }
  }

  lemma NothingSwept(c: Config, db: Db, limit: nat)
    requires db.sessions == map[]
    ensures Sweep(c, db, limit).0 == db
  {
    var rows := DueRows(c, db, limit);
    DistinctLength(rows, {});
  }

  /** The session started no sooner than the cooldown after this end, if it is one the end concerns. */
  predicate Respects(s: Settings, db: Db, closure: Closure, sid: nat) {
    && closure in db.closures && sid in db.sessions && sid in db.parties
    && db.sessions[sid].number == closure.number && HasParty(db.parties[sid], closure.party)
    && sid >= closure.before
    ==> closure.at + Cooldown(s) <= db.sessions[sid].createdAt
  }

  /** For all settings, exactly: the cooldown is respected on every run, whatever is drawn, under the same condition. */
  lemma CooldownExactly(c: Config)
    requires ValidSettings(c.settings)
    ensures !Forgetful(c.settings) <==>
              forall d: Config, start, ops, closure, sid: nat :: d.settings == c.settings ==>
                Respects(c.settings, Run(d, start, ops), closure, sid)
  {
    hide Run, Respects, Forgetful;
    if !Forgetful(c.settings) {
      forall d: Config, start, ops, closure, sid: nat | d.settings == c.settings
        ensures Respects(c.settings, Run(d, start, ops), closure, sid)
      {
        RespectedOnRuns(d, start, ops, closure, sid);
      }
    } else {
      GivenTooSoon(c);
    }
  }

  lemma RespectedOnRuns(c: Config, start: int, ops: seq<Op>, closure: Closure, sid: nat)
    requires ValidSettings(c.settings) && !Forgetful(c.settings)
    ensures Respects(c.settings, Run(c, start, ops), closure, sid)
  {
    hide Run, RetentionCovers, OneAtATime, Barren;
    if !Respects(c.settings, Run(c, start, ops), closure, sid) {
      if RetentionCovers(c.settings) {
        CooldownRespected(c, start, ops, closure, sid);
      } else if OneAtATime(c.settings) {
        SerialRespects(c, start, ops, closure, sid);
      } else {
        NoSessions(c, start, ops);
      }
    }
  }

  lemma GivenTooSoon(c: Config)
    requires ValidSettings(c.settings) && Forgetful(c.settings)
    ensures exists d: Config, start, ops, closure, sid: nat ::
              d.settings == c.settings && !Respects(c.settings, Run(d, start, ops), closure, sid)
  {
    var d, both := Counting(c), c.settings.numberScope;
    var elapsed := ShortRetention(c.settings);
    ForgetfulCanForget(c);
    hide Run, CanForget, Between, Forgetful, Respects;
    TooSoon(d, 0, elapsed, both);
  }

  lemma TakesAgain(c: Config, db: Db, start: int, elapsed: nat, both: bool)
    requires ValidSettings(c.settings) && CanForget(c, both) && FirstForgotten(c, db, start, elapsed, both)
    ensures Takes(c, db, ALICE, BOB)
  {
    Names();
    hide Phone.IsE164, Pin;
    assert ActiveOn(db.sessions, 0) == if both then {1} else {};
    if c.settings.mode == Always {
      assert ToPromote(db, 0, PairHashes(ALICE, BOB)) == {};
    }
  }

  lemma ReplacedTooSoon(c: Config, db: Db, start: int, elapsed: nat, both: bool)
    requires ValidSettings(c.settings) && FirstForgotten(c, db, start, elapsed, both) && Between(c.settings, elapsed)
    ensures var next := db.nextSession;
            !Respects(c.settings, Placed(c, db, ALICE, BOB), Closure(0, PartyHash(ALICE), start, next), next)
  {
    hide CodeAt, Retention;
  }

  /** After the purge Alice and Bob get the number again too soon. */
  lemma TooSoon(c: Config, start: int, elapsed: nat, both: bool)
    requires ValidSettings(c.settings) && CanForget(c, both) && Between(c.settings, elapsed)
    ensures var ops, next := Forgetting(elapsed, both) + [OpPurge] + [Create(ALICE, BOB)], if both then 2 else 1;
            !Respects(c.settings, Run(c, start, ops), Closure(0, PartyHash(ALICE), start, next), next)
  {
    var ops := Forgetting(elapsed, both);
    var purged := Run(c, start, ops + [OpPurge]);
    ForgettingRuns(c, start, elapsed, both);
    RunStep(c, start, ops, OpPurge);
    PurgeFirst(c, Run(c, start, ops), start, elapsed, both);
    TakesAgain(c, purged, start, elapsed, both);
    ReplacedTooSoon(c, purged, start, elapsed, both);
    assert OneNumber(purged) && purged.nextSession == if both then 2 else 1;
    hide *;
    PlacedRuns(c, start, ops + [OpPurge], ALICE, BOB);
  }

  // ---- The edge of the cooldown, and the ceiling of an extension ----------------------------------

  /** The instant a number's cooldown ends: it is counted free, and in number scope still refused. */
  lemma EdgeInstant(c: Config, start: int)
    requires ValidSettings(c.settings) && CanCreate(c) && c.settings.numberScope && c.settings.cooldownHours >= 0
    ensures var db := Run(c, start, [ADD, Create(ALICE, BOB)] + [OpClose(0, false)] + [OpTick(Cooldown(c.settings))]);
            0 in db.numbers && CountedFree(db, c.settings, 0) && !Eligible(db, c.settings, 0, {})
  {
    var ops, cooldown: nat := [ADD, Create(ALICE, BOB)], Cooldown(c.settings);
    hide Run, Phone.IsE164, CanCreate, OneNumber, Cooldown;
    Names();
    OnePairRuns(c, start, ALICE, BOB);
    OnlyOneCloses(c, start);
    hide OnePair, CloseSession, Tick, ActiveOn, Eligible, CountedFree;
    ClosedThenLater(c, start, ops, cooldown);
    AtTheEdge(c.settings, CloseSession(Run(c, start, ops), 0, Closed).0);
  }

  lemma AtTheEdge(s: Settings, db: Db)
    requires db.numbers == map[0 := Number(PROXY, true, Some(db.now))] && ActiveOn(db.sessions, 0) == {}
    requires s.numberScope && s.cooldownHours >= 0
    ensures var later := Tick(db, Cooldown(s));
            0 in later.numbers && CountedFree(later, s, 0) && !Eligible(later, s, 0, {})
  {
  }

  lemma OnlyOneCloses(c: Config, start: int)
    requires ValidSettings(c.settings)
    ensures var db := CloseSession(OnePair(c, start, ALICE, BOB), 0, Closed).0;
            && db.now == start && db.numbers == map[0 := Number(PROXY, true, Some(start))]
            && ActiveOn(db.sessions, 0) == {}
  {
    hide CodeAt, NewParty;
    var ended := EndSession(OnePair(c, start, ALICE, BOB), 0, Closed);
    assert ActiveOn(ended.sessions, 0) == {};
  }

  /** An extension to an explicit instant beyond the ceiling is accepted. */
  lemma BeyondCeiling(c: Config, start: int)
    requires ValidSettings(c.settings) && CanCreate(c)
    ensures var db := Run(c, start, [ADD, Create(ALICE, BOB)]);
            var beyond := db.now + c.settings.maxTtl * SECOND + 1;
            ExtendSession(c.settings, db, 0, None, Some(beyond)).1 == Ok(beyond)
  {
    Names();
    hide Run, Phone.IsE164, OneNumber;
    OnePairRuns(c, start, ALICE, BOB);
    PairIsActive(c, start);
    hide OnePair, ExtendSession;
    ExtendsBeyond(c.settings, OnePair(c, start, ALICE, BOB));
  }

  lemma PairIsActive(c: Config, start: int)
    requires ValidSettings(c.settings)
    ensures var db := OnePair(c, start, ALICE, BOB); 0 in db.sessions && db.sessions[0].status == Active
  {
    hide CodeAt, NewPair;
  }

  lemma ExtendsBeyond(s: Settings, db: Db)
    requires 0 in db.sessions && db.sessions[0].status == Active && s.maxTtl >= 1
    ensures var beyond := db.now + s.maxTtl * SECOND + 1; ExtendSession(s, db, 0, None, Some(beyond)).1 == Ok(beyond)
  {
    hide WriteSession, Invalidate;
  }
}
