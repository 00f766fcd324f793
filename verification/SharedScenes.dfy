/** A run whose last creation leaves a promotion unlisted: two numbers, each shared by two pairs. */
module SharedScenes {
  import opened Basics
  import opened Crypto
  import opened Schema
  import opened Allocation
  import opened Sessions
  import opened Invariant
  import opened Lifecycle
  import opened Steps
  import opened Pool
  import opened Promotion
  import opened Exhaustion
  import opened Reporting
  import opened Scenes
  import Phone

  const SECOND_PROXY: string := "+77172000102"

  function TwoNumbers(start: int): Db {
    EmptyDb(start).(numbers := map[0 := Number(PROXY, true, None), 1 := Number(SECOND_PROXY, true, None)],
        nextNumber := 2)
  }

  predicate Bare(db: Db) {
    db.numbers == map[0 := Number(PROXY, true, None), 1 := Number(SECOND_PROXY, true, None)] && db.cache == map[]
  }

  const ADD_SECOND: Op := OpAddNumber(SECOND_PROXY, true)

  lemma NumbersAreAdded(c: Config, start: int)
    requires ValidSettings(c.settings)
    ensures Run(c, start, [ADD, ADD_SECOND]) == TwoNumbers(start)
  {
    NumberIsAdded(c, start);
    RunStep(c, start, [ADD], ADD_SECOND);
    assert [ADD] + [ADD_SECOND] == [ADD, ADD_SECOND];
    SecondIsNew();
    Phone.NormalizeFixesE164(SECOND_PROXY);
    hide Phone.IsE164, Phone.Normalize, Run;
    assert AddNumber(Numbered(start), SECOND_PROXY, true).0 == TwoNumbers(start);
  }

  lemma SecondIsNew()
    ensures Phone.IsE164(SECOND_PROXY) && SECOND_PROXY != PROXY
  {
    assert SECOND_PROXY[11] == '2' && PROXY[11] == '1';
  }

  // ---- Pairs on them -----------------------------------------------------------------------

  /** The state with a session of this pair added on number `n`, without a PIN. */
  function PlacedOn(db: Db, n: nat, a: string, b: string): Db {
    Insert(db, NewRow(db.now, n, None, 1, None), NewPair(a, b, n, None))
  }

  predicate Pair(a: string, b: string) {
    Phone.IsE164(a) && Phone.IsE164(b) && a != b
  }

  /** With the other number locked, a pair that passes the exclusive query is placed on this one. */
  lemma PlacedByLock(c: Config, db: Db, n: nat, a: string, b: string)
    requires ValidSettings(c.settings) && Inv(db) && Bare(db) && n <= 1 && Pair(a, b)
    requires c.settings.mode == Auto && c.settings.maxTtl >= 1 && PassesExclusive(db, c.settings, n, PairHashes(a, b))
    ensures Apply(c, db, OpCreate(Ask(a, b), {1 - n})) == PlacedOn(db, n, a, b) && Bare(PlacedOn(db, n, a, b))
  {
    PairIsAsked(c, a, b);
    OnlyRow(c, ExclusiveKeys(db, c.settings, PairHashes(a, b), {1 - n}), n);
    CreateKeepsInv(c, db, Ask(a, b), {1 - n});
    assert Allocate(c, db, PairHashes(a, b), true, {1 - n}) == (db, Some(Allocated(n, None, [])));
    PlacedUncached(db, n, a, b);
    hide Inv, Phone.IsE164, Allocate, CheckRequest, ExtCodesUnique, Bare, Invalidate, E164Of;
    hide PartiesUnique, NewPair, NewRow, EffectiveTtl, PassesExclusive;
  }

  lemma PlacedUncached(db: Db, n: nat, a: string, b: string)
    requires Bare(db) && n <= 1
    ensures var placed := PlacedOn(db, n, a, b); Bare(placed) && Invalidate(placed, E164Of(placed, n)) == placed
  {
    hide NewPair, NewRow;
  }

  /** Alice with Carol and Bob with Dave, on both numbers. */
  function Crowding(): seq<Op> {
    [ADD, ADD_SECOND] + [OpCreate(Ask(ALICE, CAROL), {1})] + [OpCreate(Ask(BOB, DAVE), {1})]
    + [OpCreate(Ask(ALICE, CAROL), {0})] + [OpCreate(Ask(BOB, DAVE), {0})]
  }

  function HalfCrowded(start: int): Db {
    PlacedOn(PlacedOn(TwoNumbers(start), 0, ALICE, CAROL), 0, BOB, DAVE)
  }

  function Crowded(start: int): Db {
    PlacedOn(PlacedOn(HalfCrowded(start), 1, ALICE, CAROL), 1, BOB, DAVE)
  }

  lemma HalfRuns(c: Config, start: int)
    requires ValidSettings(c.settings) && c.settings.mode == Auto && c.settings.maxTtl >= 1
    ensures Run(c, start, [ADD, ADD_SECOND] + [OpCreate(Ask(ALICE, CAROL), {1})] + [OpCreate(Ask(BOB, DAVE), {1})]) ==
            HalfCrowded(start)
    ensures Bare(HalfCrowded(start))
  {
    hide Run, PlacedOn, TwoNumbers, Phone.IsE164, PassesExclusive, Apply, Bare;
    var ops := [ADD, ADD_SECOND];
    Names();
    NumbersAreAdded(c, start);
    FirstHalfPasses(c.settings, start);
    OneMore(c, start, ops, TwoNumbers(start), 0, ALICE, CAROL);
    OneMore(c, start, ops + [OpCreate(Ask(ALICE, CAROL), {1})], PlacedOn(TwoNumbers(start), 0, ALICE, CAROL), 0, BOB,
        DAVE);
  }

  lemma CrowdingRuns(c: Config, start: int)
    requires ValidSettings(c.settings) && c.settings.mode == Auto && c.settings.maxTtl >= 1
    ensures Run(c, start, Crowding()) == Crowded(start)
  {
    var ops := [ADD, ADD_SECOND] + [OpCreate(Ask(ALICE, CAROL), {1})] + [OpCreate(Ask(BOB, DAVE), {1})];
    hide Run, PlacedOn, HalfCrowded, Phone.IsE164, PassesExclusive, Apply, Bare;
    Names();
    HalfRuns(c, start);
    SecondHalfPasses(c.settings, start);
    OneMore(c, start, ops, HalfCrowded(start), 1, ALICE, CAROL);
    OneMore(c, start, ops + [OpCreate(Ask(ALICE, CAROL), {0})], PlacedOn(HalfCrowded(start), 1, ALICE, CAROL), 1, BOB,
        DAVE);
  }

  lemma OneMore(c: Config, start: int, ops: seq<Op>, db: Db, n: nat, a: string, b: string)
    requires ValidSettings(c.settings) && c.settings.mode == Auto && c.settings.maxTtl >= 1
    requires Run(c, start, ops) == db && Bare(db) && n <= 1 && Pair(a, b)
    requires PassesExclusive(db, c.settings, n, PairHashes(a, b))
    ensures Run(c, start, ops + [OpCreate(Ask(a, b), {1 - n})]) == PlacedOn(db, n, a, b) && Bare(PlacedOn(db, n, a, b))
  {
    RunInv(c, start, ops);
    RunStep(c, start, ops, OpCreate(Ask(a, b), {1 - n}));
    hide Run, Inv, PlacedOn, PassesExclusive, Phone.IsE164, Apply;
    PlacedByLock(c, db, n, a, b);
  }

  lemma FirstHalfPasses(s: Settings, start: int)
    ensures Bare(TwoNumbers(start)) && PassesExclusive(TwoNumbers(start), s, 0, PairHashes(ALICE, CAROL))
    ensures PassesExclusive(PlacedOn(TwoNumbers(start), 0, ALICE, CAROL), s, 0, PairHashes(BOB, DAVE))
  {
    Names();
    hide Phone.IsE164;
  }

  lemma SecondHalfPasses(s: Settings, start: int)
    ensures PassesExclusive(HalfCrowded(start), s, 1, PairHashes(ALICE, CAROL))
    ensures PassesExclusive(PlacedOn(HalfCrowded(start), 1, ALICE, CAROL), s, 1, PairHashes(BOB, DAVE))
  {
    assert PassesExclusive(HalfCrowded(start), s, 1, PairHashes(ALICE, CAROL));
    LastHalfPasses(s, start);
    hide *;
  }

  lemma LastHalfPasses(s: Settings, start: int)
    ensures PassesExclusive(PlacedOn(HalfCrowded(start), 1, ALICE, CAROL), s, 1, PairHashes(BOB, DAVE))
  {
    Names();
    hide Phone.IsE164;
  }

  // ---- Both numbers promote two ------------------------------------------------------------------

  lemma CrowdedFacts(s: Settings, start: int)
    ensures var db, hashes := Crowded(start), PairHashes(ALICE, BOB);
            && ToPromote(db, 0, hashes) == ActiveOn(db.sessions, 0) == {0, 1}
            && ToPromote(db, 1, hashes) == ActiveOn(db.sessions, 1) == {2, 3}
            && ActiveCodes(db.sessions, 0) == ActiveCodes(db.sessions, 1) == {}
            && db.drawn == 0 && 0 in db.numbers
  {
    Names();
    hide Phone.IsE164;
    var db := Crowded(start);
    assert db.sessions.Keys == db.parties.Keys == {0, 1, 2, 3};
  }

  lemma CrowdedKeys(s: Settings, start: int)
    ensures var db, hashes := Crowded(start), PairHashes(ALICE, BOB);
            && !PassesExclusive(db, s, 0, hashes) && !PassesExclusive(db, s, 1, hashes)
            && Eligible(db, s, 0, hashes) && Eligible(db, s, 1, hashes)
  {
    Names();
    hide Phone.IsE164;
    var db, hashes := Crowded(start), PairHashes(ALICE, BOB);
    assert Engages(db.parties[0].a, 0, hashes) && Engages(db.parties[2].a, 1, hashes);
  }

  lemma NoneExclusive(c: Config, start: int)
    ensures ExclusiveChoice(c, Crowded(start), PairHashes(ALICE, BOB), {}) == None
  {
    CrowdedKeys(c.settings, start);
    var keys := ExclusiveKeys(Crowded(start), c.settings, PairHashes(ALICE, BOB), {});
    hide PassesExclusive, Eligible, NewRow, NewPair;
    assert keys.Keys == {};
    assert Answers(c.plan(keys), keys);
    DistinctLength(c.plan(keys), {});
  }

  /** Both numbers carry two sessions, so they are tried in the order of their identifiers. */
  lemma TriedInOrder(c: Config, start: int)
    ensures var keys := CandidateKeys(Crowded(start), c.settings, PairHashes(ALICE, BOB));
            && keys == map[0 := SortKey(2, 0, 0), 1 := SortKey(2, 1, 0)]
            && CandidateRows(c, Crowded(start), PairHashes(ALICE, BOB)) == [0, 1]
  {
    CrowdedKeys(c.settings, start);
    CrowdedFacts(c.settings, start);
    var keys := CandidateKeys(Crowded(start), c.settings, PairHashes(ALICE, BOB));
    hide PassesExclusive, Eligible, ActiveOn, ToPromote, ActiveCodes;
    assert keys == map[0 := SortKey(2, 0, 0), 1 := SortKey(2, 1, 0)];
    hide PlacedOn, Crowded;
    InOrder(c, keys);
  }

  lemma InOrder(c: Config, keys: map<nat, SortKey>)
    requires keys == map[0 := SortKey(2, 0, 0), 1 := SortKey(2, 1, 0)]
    ensures c.plan(keys) == [0, 1]
  {
    var rows := c.plan(keys);
    assert Answers(rows, keys);
    assert 0 in rows && 1 in rows;
    DistinctLength(rows, {0, 1});
    CoveredLength(rows, {0, 1});
  }

  // ---- The creation --------------------------------------------------------------------------------

  /** The first number runs out of PINs after one promotion, the second does not. */
  predicate Draws(c: Config)
    requires ValidSettings(c.settings)
  {
    Repeats(c, 0) && ThreePins(c, 2 + GENERATION_ATTEMPTS)
  }

  lemma TryMisses(c: Config, db: Db, rows: seq<nat>, counts: map<nat, SortKey>, hashes: set<PartyHash>)
    requires ValidSettings(c.settings) && rows != [] && forall i :: 0 <= i < |rows| ==> rows[i] in counts
    requires counts[rows[0]].first < c.settings.maxPerNumber && TryCandidate(c, db, rows[0], hashes).1.None?
    ensures TryCandidates(c, db, rows, counts, hashes, {}) ==
            TryCandidates(c, TryCandidate(c, db, rows[0], hashes).0, rows[1..], counts, hashes, {})
    ensures Abandons(c, db, rows[0], hashes) ==> LeavesStrays(c, db, rows, counts, hashes, {})
  {
    hide TryCandidate, Abandons;
  }

  lemma TryWins(c: Config, db: Db, rows: seq<nat>, counts: map<nat, SortKey>, hashes: set<PartyHash>)
    requires ValidSettings(c.settings) && rows != [] && forall i :: 0 <= i < |rows| ==> rows[i] in counts
    requires counts[rows[0]].first < c.settings.maxPerNumber && TryCandidate(c, db, rows[0], hashes).1.Some?
    ensures TryCandidates(c, db, rows, counts, hashes, {}) == TryCandidate(c, db, rows[0], hashes)
  {
    hide TryCandidate;
  }

  lemma LoopWins(c: Config, start: int)
    requires ValidSettings(c.settings) && c.settings.maxPerNumber >= 3 && Draws(c) && Core(Crowded(start))
    ensures var db, hashes := Crowded(start), PairHashes(ALICE, BOB); var won := AllocateShared(c, db, hashes, {}).1;
            won.Some? && won.value.extCode.Some? && SharingLeavesStrays(c, db, hashes, {})
  {
    hide Core, Crowded, ActiveCodes, ToPromote, ActiveOn;
    hide TryCandidates, CandidateRows, LeavesStrays, CandidateKeys, Draws;
    var db, hashes := Crowded(start), PairHashes(ALICE, BOB);
    CrowdedFacts(c.settings, start);
    TriedInOrder(c, start);
    TwoTries(c, db, CandidateRows(c, db, hashes), CandidateKeys(db, c.settings, hashes), hashes);
  }

  lemma TwoTries(c: Config, db: Db, rows: seq<nat>, counts: map<nat, SortKey>, hashes: set<PartyHash>)
    requires ValidSettings(c.settings) && Draws(c) && Core(db) && db.drawn == 0 && 0 in db.numbers
    requires rows == [0, 1] && forall i :: 0 <= i < |rows| ==>
               rows[i] in counts && counts[rows[i]].first < c.settings.maxPerNumber
    requires forall i :: 0 <= i < |rows| ==>
               ActiveCodes(db.sessions, rows[i]) == {} && |ToPromote(db, rows[i], hashes)| == 2
    ensures var won := TryCandidates(c, db, rows, counts, hashes, {}).1; won.Some? && won.value.extCode.Some?
    ensures LeavesStrays(c, db, rows, counts, hashes, {})
  {
    hide Core, ActiveCodes, ToPromote, Repeats, ThreePins;
    hide PinsOnly, TryCandidate, TryCandidates, Abandons, LeavesStrays;
    hide TouchesOnly, Placeable;
    assert ActiveCodes(db.sessions, rows[0]) == {} && ActiveCodes(db.sessions, rows[1]) == {};
    RepeatedDraws(c, db, 0, hashes);
    TryCandidateOk(c, db, 0, hashes);
    TryElsewhere(c, db, 0, hashes, 1);
    var tried := TryCandidate(c, db, 0, hashes).0;
    DistinctDraws(c, tried, 1, hashes);
    TryMisses(c, db, rows, counts, hashes);
    TryWins(c, tried, rows[1..], counts, hashes);
  }

  /**
    Alice and Bob get the second number with both its sessions promoted and listed; the session
    promoted on the first number is not listed.
   */
  lemma UnlistedPromotion(c: Config, start: int)
    requires ValidSettings(c.settings) && c.settings.mode == Auto && c.settings.maxTtl >= 1
               && c.settings.maxPerNumber >= 3
    requires Draws(c)
    ensures var db := Run(c, start, Crowding());
            var (after, result) := CreateSession(c, db, Ask(ALICE, BOB), {});
            result.Ok? && exists sid :: Gains(db, after, sid) && sid !in result.value.allocation.promoted
  {
    var db := Crowded(start);
    CrowdingRuns(c, start);
    RunInv(c, start, Crowding());
    InvCore(db);
    hide Run, Inv, Core, Crowded, Draws, Gains;
    LoopWins(c, start);
    NoneExclusive(c, start);
    CreationWins(c, db);
    PromotedExactly(c, db, Ask(ALICE, BOB), {});
  }

  lemma CreationWins(c: Config, db: Db)
    requires ValidSettings(c.settings) && c.settings.mode == Auto && c.settings.maxTtl >= 1 && Core(db)
    requires var hashes := PairHashes(ALICE, BOB);
             && ExclusiveChoice(c, db, hashes, {}) == None
             && AllocateShared(c, db, hashes, {}).1.Some? && AllocateShared(c, db, hashes, {}).1.value.extCode.Some?
    ensures CheckRequest(c.settings, Ask(ALICE, BOB)) == Ok((ALICE, BOB))
    ensures var result := CreateSession(c, db, Ask(ALICE, BOB), {}).1;
            result.Ok? && result.value.allocation.extCode.Some?
  {
    hide Core, Fresh, PinsOnly, Eligible, Phone.IsE164, CheckRequest, ExclusiveChoice, AllocateShared;
    Names();
    PairIsAsked(c, ALICE, BOB);
    var pool, row, p := CreateShape(c, db, Ask(ALICE, BOB), {});
    hide ExtCodesUnique, PartiesUnique, NewPair, NewRow, EffectiveTtl, Insert, Invalidate;
  }
}
