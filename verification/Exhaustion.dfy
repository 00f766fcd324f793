/** When the allocator refuses, and which number it picks when it does not. */
module Exhaustion {
  import opened Basics
  import opened Crypto
  import opened Schema
  import opened Allocation
  import opened Invariant
  import opened Promotion

  function Load(db: Db, n: nat): nat {
    |ActiveOn(db.sessions, n)|
  }

  /** Of `need` fresh PINs drawn in a row from position `at` on, one finds all its twenty draws used. */
  predicate RunsDry(c: Config, used: set<string>, need: nat, at: nat)
    requires ValidSettings(c.settings)
    decreases need
  {
    && need > 0
    && var (code, next) := FreshCode(c, used, at, GENERATION_ATTEMPTS);
       code.None? || RunsDry(c, used + {code.value}, need - 1, next)
  }

  /** The PINs number `n` needs are its own and one for each session to promote: from `at` on there is a lack. */
  predicate Unlucky(c: Config, db: Db, n: nat, hashes: set<PartyHash>, at: nat)
    requires ValidSettings(c.settings)
  {
    RunsDry(c, ActiveCodes(db.sessions, n), |ToPromote(db, n, hashes)| + 1, at)
  }

  /** Then twenty consecutive draws fell on PINs in use there or issued just before. */
  lemma {:induction false} DryDraws(c: Config, used: set<string>, need: nat, from: nat)
        returns (at: nat, issued: set<string>)
    requires ValidSettings(c.settings) && RunsDry(c, used, need, from)
    ensures from <= at && |issued| < need && AllDrawsUsed(c, used + issued, at)
    decreases need
  {
    var (code, next) := FreshCode(c, used, from, GENERATION_ATTEMPTS);
    FreshCodeFacts(c, used, from, GENERATION_ATTEMPTS);
    if code.None? {
      at, issued := from, {};
      assert used + {} == used;
    } else {
      var more: set<string>;
      at, more := DryDraws(c, used + {code.value}, need - 1, next);
      issued := more + {code.value};
      assert used + {code.value} + more == used + issued;
    }
  }

  /** It was luck: a number under its cap has an unused PIN at that moment, if the cap fits the PIN length. */
  lemma UnluckyHadSupply(c: Config, db: Db, n: nat, hashes: set<PartyHash>, turn: nat)
        returns (at: nat, issued: set<string>, v: nat)
    requires ValidSettings(c.settings) && Unlucky(c, db, n, hashes, turn)
    requires Load(db, n) < c.settings.maxPerNumber <= Pow10(c.settings.pinLength)
    ensures turn <= at && AllDrawsUsed(c, ActiveCodes(db.sessions, n) + issued, at)
    ensures v < Pow10(c.settings.pinLength)
    ensures ExtCode(v, c.settings.pinLength) !in ActiveCodes(db.sessions, n) + issued
  {
    at, issued := DryDraws(c, ActiveCodes(db.sessions, n), |ToPromote(db, n, hashes)| + 1, turn);
    v := PinSupply(c, db, n, hashes, issued);
  }

  predicate Distinct(rows: seq<nat>) {
    forall i, j :: 0 <= i < j < |rows| ==> rows[i] != rows[j]
  }

  // ---- One candidate --------------------------------------------------------------------

  lemma PromoteDraws(db: Db, sid: nat, code: string)
    requires sid in db.sessions
    ensures var after := Promote(db, sid, code); after.drawn == db.drawn && after.sessions.Keys == db.sessions.Keys
  {
  }

  lemma {:induction false} PromotionFails(c: Config, db: Db, rows: seq<nat>, used: set<string>)
    requires ValidSettings(c.settings)
    requires forall i :: 0 <= i < |rows| ==> rows[i] in db.sessions
    ensures PromoteAll(c, db, rows, used).1 <==> !RunsDry(c, used, |rows|, db.drawn)
    decreases |rows|
  {
    hide FreshCode, Promote;
    if rows != [] {
      var (code, next) := FreshCode(c, used, db.drawn, GENERATION_ATTEMPTS);
      if code.Some? {
        var promoted := Promote(db.(drawn := next), rows[0], code.value);
        PromoteDraws(db.(drawn := next), rows[0], code.value);
        assert forall sid :: sid in db.sessions ==> sid in promoted.sessions;
        PromotionFails(c, promoted, rows[1..], used + {code.value});
      }
    }
  }

  lemma {:induction false} RowsCounted(rows: seq<nat>, ids: set<nat>)
    requires Distinct(rows) && (forall i :: 0 <= i < |rows| ==> rows[i] in ids) && forall id :: id in ids ==> id in rows
    ensures |rows| == |ids|
    decreases |rows|
  {
    if rows == [] {
      assert ids == {};
    } else {
      forall id | id in ids - {rows[0]} ensures id in rows[1..] { assert id in rows; }
      RowsCounted(rows[1..], ids - {rows[0]});
    }
  }

  /** A candidate is given up exactly when it is unlucky from the draw its turn begins with. */
  lemma GivenUpExactly(c: Config, db: Db, n: nat, hashes: set<PartyHash>)
    requires ValidSettings(c.settings)
    ensures TryCandidate(c, db, n, hashes).1.None? <==> Unlucky(c, db, n, hashes, db.drawn)
  {
    var used, rows := ActiveCodes(db.sessions, n), PromotionRows(c, db, n, hashes);
    RowsCounted(rows, ToPromote(db, n, hashes));
    var (code, next) := FreshCode(c, used, db.drawn, GENERATION_ATTEMPTS);
    hide FreshCode, ActiveCodes, PromotionRows, ToPromote, Distinct;
    if code.Some? { PromotionFails(c, db.(drawn := next), rows, used + {code.value}); }
    hide PromoteAll, RunsDry;
    GivenUpBy(c, db, n, hashes);
  }

  lemma GivenUpBy(c: Config, db: Db, n: nat, hashes: set<PartyHash>)
    requires ValidSettings(c.settings)
    ensures var used, rows := ActiveCodes(db.sessions, n), PromotionRows(c, db, n, hashes);
            var (code, next) := FreshCode(c, used, db.drawn, GENERATION_ATTEMPTS);
            && (TryCandidate(c, db, n, hashes).1.None? <==>
                  code.None? || !PromoteAll(c, db.(drawn := next), rows, used + {code.value}).1)
            && (RunsDry(c, used, |ToPromote(db, n, hashes)| + 1, db.drawn) <==>
                  code.None? || RunsDry(c, used + {code.value}, |ToPromote(db, n, hashes)|, next))
  {
    hide FreshCode, ActiveCodes, PromotionRows, ToPromote, PromoteAll;
  }

  /** Trying one number issues PINs on that number only. */
  lemma TryElsewhere(c: Config, db: Db, n: nat, hashes: set<PartyHash>, m: nat)
    requires ValidSettings(c.settings) && Core(db) && n in db.numbers && m != n
    ensures var after := TryCandidate(c, db, n, hashes).0;
            && ActiveCodes(after.sessions, m) == ActiveCodes(db.sessions, m)
            && ToPromote(after, m, hashes) == ToPromote(db, m, hashes)
  {
    var after := TryCandidate(c, db, n, hashes).0;
    TryCandidateOk(c, db, n, hashes);
    TryTouches(c, db, n, hashes);
    hide Core, TryCandidate;
    SameElsewhere(db, after, n, m, hashes);
  }

  predicate TouchesOnly(db: Db, after: Db, n: nat) {
    forall sid :: sid in db.sessions && db.sessions[sid].number != n ==>
      sid in after.sessions && after.sessions[sid] == db.sessions[sid]
  }

  lemma TryTouches(c: Config, db: Db, n: nat, hashes: set<PartyHash>)
    requires ValidSettings(c.settings) && Core(db)
    ensures TouchesOnly(db, TryCandidate(c, db, n, hashes).0, n)
  {
    hide Core, FreshCode, ActiveCodes, PromoteAll, PromotionRows, TouchesOnly;
    var used := ActiveCodes(db.sessions, n);
    FreshCodeFacts(c, used, db.drawn, GENERATION_ATTEMPTS);
    var (code, next) := FreshCode(c, used, db.drawn, GENERATION_ATTEMPTS);
    match code
    case None => DrawTouches(db, next, n);
    case Some(pin) => PromotionTouches(c, db, next, n, hashes, pin);
  }

  lemma DrawTouches(db: Db, next: nat, n: nat)
    ensures TouchesOnly(db, db.(drawn := next), n)
  {
  }

  lemma PromotionTouches(c: Config, db: Db, next: nat, n: nat, hashes: set<PartyHash>, pin: string)
    requires ValidSettings(c.settings) && Core(db) && db.drawn <= next && pin !in ActiveCodes(db.sessions, n)
    ensures var rows := PromotionRows(c, db, n, hashes);
            TouchesOnly(db, PromoteAll(c, db.(drawn := next), rows, ActiveCodes(db.sessions, n) + {pin}).0, n)
  {
    DrawnKeepsCore(db, next);
    var rows := PromotionRows(c, db, n, hashes);
    forall i | 0 <= i < |rows| ensures NeedsPromotion(db, rows[i], n, hashes) {
      assert rows[i] in ToPromote(db, n, hashes);
    }
    PromoteAllOk(c, db.(drawn := next), rows, ActiveCodes(db.sessions, n) + {pin}, n);
    hide Core, PromoteAll, PromotionRows;
  }

  lemma SameElsewhere(db: Db, after: Db, n: nat, m: nat, hashes: set<PartyHash>)
    requires PinsOnly(db, after) && m != n
    requires TouchesOnly(db, after, n)
    ensures ActiveCodes(after.sessions, m) == ActiveCodes(db.sessions, m)
    ensures ToPromote(after, m, hashes) == ToPromote(db, m, hashes)
  {
    forall sid | sid in db.sessions
      ensures IsActiveOn(db.sessions, sid, m) == IsActiveOn(after.sessions, sid, m)
      ensures IsActiveOn(db.sessions, sid, m) ==> db.sessions[sid] == after.sessions[sid]
      ensures NeedsPromotion(db, sid, m, hashes) == NeedsPromotion(after, sid, m, hashes)
    {
      assert SameRowButPin(db.sessions[sid], after.sessions[sid]);
      if sid in db.parties {
        assert SamePartyButPin(db.parties[sid].a, after.parties[sid].a);
        assert SamePartyButPin(db.parties[sid].b, after.parties[sid].b);
      }
    }
  }

  // ---- The loop over candidates -------------------------------------------------------------

  /** Candidate `k` had its turn, no earlier one having won, and was unlucky from the draw it began with. */
  predicate LostTurn(c: Config, db: Db, rows: seq<nat>, k: nat, counts: map<nat, SortKey>, hashes: set<PartyHash>,
                     locked: set<nat>)
    requires ValidSettings(c.settings) && k < |rows| && forall i :: 0 <= i < |rows| ==> rows[i] in counts
  {
    var (before, won) := TryCandidates(c, db, rows[..k], counts, hashes, locked);
    won.None? && Unlucky(c, db, rows[k], hashes, before.drawn)
  }

  /** Why the loop did not take candidate `k`: it is full, locked, or unlucky. */
  predicate PassedOver(c: Config, db: Db, rows: seq<nat>, k: nat, counts: map<nat, SortKey>, hashes: set<PartyHash>,
                       locked: set<nat>)
    requires ValidSettings(c.settings) && k < |rows| && forall i :: 0 <= i < |rows| ==> rows[i] in counts
  {
    || counts[rows[k]].first >= c.settings.maxPerNumber || rows[k] in locked
    || LostTurn(c, db, rows, k, counts, hashes, locked)
  }

  /** The winner is exactly the first candidate that is not passed over. */
  lemma {:induction false} LoopPassesOver(c: Config, db: Db, rows: seq<nat>, counts: map<nat, SortKey>,
                                          hashes: set<PartyHash>, locked: set<nat>) returns (k: nat)
    requires ValidSettings(c.settings) && Core(db) && Distinct(rows)
    requires forall i :: 0 <= i < |rows| ==> rows[i] in counts && rows[i] in db.numbers
    ensures var won := TryCandidates(c, db, rows, counts, hashes, locked).1;
            && k <= |rows|
            && (if won.Some? then k < |rows| && rows[k] == won.value.number else k == |rows|)
            && (forall i :: 0 <= i < k ==> PassedOver(c, db, rows, i, counts, hashes, locked))
            && (k < |rows| ==> !PassedOver(c, db, rows, k, counts, hashes, locked))
    decreases |rows|
  {
    hide Core, PassedOver;
    k := 0;
    if rows != [] {
      FirstTurn(c, db, rows, counts, hashes, locked);
      var taken := counts[rows[0]].first >= c.settings.maxPerNumber || rows[0] in locked;
      var (tried, won) := if taken then (db, None) else TryCandidate(c, db, rows[0], hashes);
      if won.None? {
        if !taken { TryCandidateOk(c, db, rows[0], hashes); }
        assert tried.numbers == db.numbers;
        var j := LoopPassesOver(c, tried, rows[1..], counts, hashes, locked);
        k := j + 1;
        forall i | 1 <= i < |rows|
          ensures PassedOver(c, db, rows, i, counts, hashes, locked) <==>
                    PassedOver(c, tried, rows[1..], i - 1, counts, hashes, locked)
        {
          LaterTurn(c, db, tried, rows, i, counts, hashes, locked);
        }
      }
    }
  }

  lemma FirstTurn(c: Config, db: Db, rows: seq<nat>, counts: map<nat, SortKey>, hashes: set<PartyHash>,
                  locked: set<nat>)
    requires ValidSettings(c.settings) && rows != [] && forall i :: 0 <= i < |rows| ==> rows[i] in counts
    ensures PassedOver(c, db, rows, 0, counts, hashes, locked) <==>
              || counts[rows[0]].first >= c.settings.maxPerNumber || rows[0] in locked
              || TryCandidate(c, db, rows[0], hashes).1.None?
  {
    assert rows[..0] == [];
    GivenUpExactly(c, db, rows[0], hashes);
    hide Unlucky, TryCandidate;
  }

  /** A later turn is the same in the loop over the rest: trying one number leaves the others as they were. */
  lemma LaterTurn(c: Config, db: Db, tried: Db, rows: seq<nat>, i: nat, counts: map<nat, SortKey>,
                  hashes: set<PartyHash>, locked: set<nat>)
    requires ValidSettings(c.settings) && Core(db) && Distinct(rows)
    requires 1 <= i < |rows| && rows[0] in db.numbers && forall k :: 0 <= k < |rows| ==> rows[k] in counts
    requires if counts[rows[0]].first >= c.settings.maxPerNumber || rows[0] in locked then tried == db
             else TryCandidate(c, db, rows[0], hashes) == (tried, None)
    ensures PassedOver(c, db, rows, i, counts, hashes, locked) <==>
              PassedOver(c, tried, rows[1..], i - 1, counts, hashes, locked)
  {
    LostLater(c, db, tried, rows, i, counts, hashes, locked);
    hide Core, TryCandidate, LostTurn;
  }

  lemma LostLater(c: Config, db: Db, tried: Db, rows: seq<nat>, i: nat, counts: map<nat, SortKey>,
                  hashes: set<PartyHash>, locked: set<nat>)
    requires ValidSettings(c.settings) && Core(db) && Distinct(rows)
    requires 1 <= i < |rows| && rows[0] in db.numbers && forall k :: 0 <= k < |rows| ==> rows[k] in counts
    requires if counts[rows[0]].first >= c.settings.maxPerNumber || rows[0] in locked then tried == db
             else TryCandidate(c, db, rows[0], hashes) == (tried, None)
    ensures LostTurn(c, db, rows, i, counts, hashes, locked) <==>
              LostTurn(c, tried, rows[1..], i - 1, counts, hashes, locked)
  {
    hide Core, TryCandidate, TryCandidates, Unlucky;
    var first, rest := rows[..i], rows[1..][..i - 1];
    assert first[1..] == rest && first[0] == rows[0] && rows[1..][i - 1] == rows[i] != rows[0];
    RestOfLoop(c, db, tried, first, counts, hashes, locked);
    hide Distinct;
    var at := TryCandidates(c, tried, rest, counts, hashes, locked).0.drawn;
    UnluckyElsewhere(c, db, tried, rows[0], rows[i], hashes, at);
  }

  lemma RestOfLoop(c: Config, db: Db, tried: Db, rows: seq<nat>, counts: map<nat, SortKey>, hashes: set<PartyHash>,
                   locked: set<nat>)
    requires ValidSettings(c.settings) && rows != [] && forall k :: 0 <= k < |rows| ==> rows[k] in counts
    requires if counts[rows[0]].first >= c.settings.maxPerNumber || rows[0] in locked then tried == db
             else TryCandidate(c, db, rows[0], hashes) == (tried, None)
    ensures TryCandidates(c, db, rows, counts, hashes, locked) ==
              TryCandidates(c, tried, rows[1..], counts, hashes, locked)
  {
    hide TryCandidate;
  }

  lemma UnluckyElsewhere(c: Config, db: Db, tried: Db, n: nat, m: nat, hashes: set<PartyHash>, at: nat)
    requires ValidSettings(c.settings) && Core(db) && n in db.numbers && m != n
    requires tried == db || TryCandidate(c, db, n, hashes).0 == tried
    ensures Unlucky(c, db, m, hashes, at) <==> Unlucky(c, tried, m, hashes, at)
  {
    if tried != db { TryElsewhere(c, db, n, hashes, m); }
    hide Core, TryCandidate, RunsDry, ActiveCodes, ToPromote;
  }

  // ---- The limit of twenty hides nothing -----------------------------------------------------

  /** An eligible number is among the candidate rows, or the limit is reached and every row is no busier. */
  lemma LimitHidesNothing(c: Config, db: Db, hashes: set<PartyHash>, m: nat)
    requires Eligible(db, c.settings, m, hashes)
    ensures var rows := CandidateRows(c, db, hashes);
            && (forall i, j :: 0 <= i < j < |rows| ==> rows[i] != rows[j] && Load(db, rows[i]) <= Load(db, rows[j]))
            && (m in rows
                  || (|rows| == MAX_CANDIDATES && forall i :: 0 <= i < |rows| ==> Load(db, rows[i]) <= Load(db, m)))
  {
    var keys := CandidateKeys(db, c.settings, hashes);
    var all, rows := c.plan(keys), CandidateRows(c, db, hashes);
    assert Answers(all, keys);
    assert m in keys && m in all;
    hide Eligible;
    var j :| 0 <= j < |all| && all[j] == m;
    forall i, k | 0 <= i < k < |all| ensures all[i] != all[k] && Load(db, all[i]) <= Load(db, all[k]) {
      assert all[i] in all && all[k] in all;
      assert !Before(keys[all[k]], keys[all[i]]);
    }
  }

  /** In the loop over the candidate rows, number `p` had its turn and was unlucky. */
  ghost predicate Missed(c: Config, db: Db, p: nat, hashes: set<PartyHash>, locked: set<nat>)
    requires ValidSettings(c.settings)
  {
    var rows := CandidateRows(c, db, hashes);
    exists k :: 0 <= k < |rows| && rows[k] == p
      && LostTurn(c, db, rows, k, CandidateKeys(db, c.settings, hashes), hashes, locked)
  }

  /** Why an eligible number under its cap was not taken, or another no busier was not. */
  ghost predicate Excused(c: Config, db: Db, m: nat, hashes: set<PartyHash>, locked: set<nat>)
    requires ValidSettings(c.settings)
  {
    exists p :: Lighter(c, db, p, m, hashes) && (p in locked || Missed(c, db, p, hashes, locked))
  }

  predicate Lighter(c: Config, db: Db, p: nat, m: nat, hashes: set<PartyHash>) {
    Eligible(db, c.settings, p, hashes) && Load(db, p) <= Load(db, m)
  }

  /**
    Extension mode, whatever is locked: an eligible number under its cap that is less loaded than
    the chosen one, or any at all if none is chosen, is excused by a lock or by bad luck, its own
    or, beyond the limit of candidates, that of one no busier.
   */
  lemma SharedIsFair(c: Config, db: Db, hashes: set<PartyHash>, locked: set<nat>, m: nat)
    requires ValidSettings(c.settings) && Core(db)
    requires Eligible(db, c.settings, m, hashes) && Load(db, m) < c.settings.maxPerNumber
    requires var choice := AllocateShared(c, db, hashes, locked).1;
             choice.Some? ==> Load(db, m) < Load(db, choice.value.number)
    ensures Excused(c, db, m, hashes, locked)
  {
    var rows, counts := CandidateRows(c, db, hashes), CandidateKeys(db, c.settings, hashes);
    LimitHidesNothing(c, db, hashes, m);
    RowsAreEligible(c, db, hashes);
    hide Core, Eligible, CandidateRows, Missed, TryCandidates, Excused;
    var k := LoopPassesOver(c, db, rows, counts, hashes, locked);
    var i := Witness(rows, k, m, db);
    hide PassedOver, Load;
    FairOf(c, db, rows, i, m, hashes, locked);
  }

  lemma FairOf(c: Config, db: Db, rows: seq<nat>, i: nat, m: nat, hashes: set<PartyHash>, locked: set<nat>)
    requires ValidSettings(c.settings) && rows == CandidateRows(c, db, hashes) && i < |rows|
    requires Load(db, rows[i]) <= Load(db, m) < c.settings.maxPerNumber && Eligible(db, c.settings, rows[i], hashes)
    requires var counts := CandidateKeys(db, c.settings, hashes);
             counts[rows[i]].first == Load(db, rows[i]) && PassedOver(c, db, rows, i, counts, hashes, locked)
    ensures Excused(c, db, m, hashes, locked)
  {
    hide Eligible, LostTurn, CandidateRows, CandidateKeys;
    assert Lighter(c, db, rows[i], m, hashes);
  }

  /** A row before the winner that is no busier than `m`. */
  lemma Witness(rows: seq<nat>, k: nat, m: nat, db: Db) returns (i: nat)
    requires forall i, j :: 0 <= i < j < |rows| ==> Load(db, rows[i]) <= Load(db, rows[j])
    requires m in rows || (|rows| == MAX_CANDIDATES && forall i :: 0 <= i < |rows| ==> Load(db, rows[i]) <= Load(db, m))
    requires k <= |rows| && (k < |rows| ==> Load(db, m) < Load(db, rows[k]))
    ensures i < k && Load(db, rows[i]) <= Load(db, m)
  {
    if m in rows {
      i :| 0 <= i < |rows| && rows[i] == m;
    } else {
      i := 0;
    }
  }

  lemma RowsAreEligible(c: Config, db: Db, hashes: set<PartyHash>)
    ensures var rows, counts := CandidateRows(c, db, hashes), CandidateKeys(db, c.settings, hashes);
            Distinct(rows) && forall i :: 0 <= i < |rows| ==>
              && rows[i] in counts && rows[i] in db.numbers && Eligible(db, c.settings, rows[i], hashes)
              && counts[rows[i]].first == Load(db, rows[i])
  {
  }

  // ---- The allocator's answer -----------------------------------------------------------------

  /**
    The exclusive query takes the number first in release order, never-released ones before, skipping
    only locked ones.
   */
  lemma ExclusiveIsFirst(c: Config, db: Db, hashes: set<PartyHash>, locked: set<nat>)
    ensures match ExclusiveChoice(c, db, hashes, locked)
            case None => forall n :: PassesExclusive(db, c.settings, n, hashes) ==> n in locked
            case Some(n) =>
              && PassesExclusive(db, c.settings, n, hashes) && n !in locked
              && (forall m :: PassesExclusive(db, c.settings, m, hashes) && m !in locked && m != n ==>
                    Before(ReleaseOrder(db, n), ReleaseOrder(db, m)))
  {
    var keys := ExclusiveKeys(db, c.settings, hashes, locked);
    var rows := c.plan(keys);
    assert Answers(rows, keys);
    forall m | PassesExclusive(db, c.settings, m, hashes) && m !in locked ensures m in rows { assert m in keys; }
    hide PassesExclusive;
    if rows != [] {
      assert rows[0] in rows && rows[0] in keys;
      forall m | PassesExclusive(db, c.settings, m, hashes) && m !in locked && m != rows[0]
        ensures m in db.numbers && Before(ReleaseOrder(db, rows[0]), ReleaseOrder(db, m))
      {
        var j :| 0 <= j < |rows| && rows[j] == m;
        assert m in keys && !Before(keys[rows[j]], keys[rows[0]]);
      }
    }
  }

  lemma WinnerIsEligible(c: Config, db: Db, hashes: set<PartyHash>, locked: set<nat>)
    requires ValidSettings(c.settings)
    ensures var choice := AllocateShared(c, db, hashes, locked).1;
            choice.Some? ==>
              && Eligible(db, c.settings, choice.value.number, hashes) && choice.value.number !in locked
              && Load(db, choice.value.number) < c.settings.maxPerNumber
  {
    WinnerUnlocked(c, db, CandidateRows(c, db, hashes), CandidateKeys(db, c.settings, hashes), hashes, locked);
    hide Eligible, TryCandidates;
  }

  /** Every eligible number loaded below `bound` is excused. */
  ghost predicate Fair(c: Config, db: Db, hashes: set<PartyHash>, locked: set<nat>, bound: int)
    requires ValidSettings(c.settings)
  {
    forall n :: Eligible(db, c.settings, n, hashes) && Load(db, n) < bound ==> Excused(c, db, n, hashes, locked)
  }

  ghost predicate NoneExclusive(c: Config, db: Db, hashes: set<PartyHash>, locked: set<nat>) {
    forall n :: PassesExclusive(db, c.settings, n, hashes) ==> n in locked
  }

  lemma SharedFair(c: Config, db: Db, hashes: set<PartyHash>, locked: set<nat>)
    requires ValidSettings(c.settings) && Core(db)
    ensures var choice := AllocateShared(c, db, hashes, locked).1;
            Fair(c, db, hashes, locked, if choice.None? then c.settings.maxPerNumber else Load(db, choice.value.number))
  {
    WinnerIsEligible(c, db, hashes, locked);
    var choice := AllocateShared(c, db, hashes, locked).1;
    hide Core, Eligible, Excused, AllocateShared, Load;
    var bound := if choice.None? then c.settings.maxPerNumber else Load(db, choice.value.number);
    forall n | Eligible(db, c.settings, n, hashes) && Load(db, n) < bound
      ensures Excused(c, db, n, hashes, locked)
    {
      SharedIsFair(c, db, hashes, locked, n);
    }
  }

  /**
    Whatever is locked: a number is shared, or the pair refused, only when every number that
    passes the exclusive query is locked; and a refusal, or a choice that is not least loaded,
    is excused by locks or bad luck on numbers no busier.
   */
  lemma RefusalIsHonest(c: Config, db: Db, hashes: set<PartyHash>, allowExtCode: bool, locked: set<nat>)
    requires ValidSettings(c.settings) && Core(db)
    ensures var choice := Allocate(c, db, hashes, allowExtCode, locked).1;
            && (choice.None? || choice.value.extCode.Some? ==>
                  c.settings.mode == Always || NoneExclusive(c, db, hashes, locked))
            && (choice.None? ==>
                  c.settings.mode == Never || !allowExtCode
                      || Fair(c, db, hashes, locked, c.settings.maxPerNumber))
            && (choice.Some? && choice.value.extCode.Some? ==>
                  Fair(c, db, hashes, locked, Load(db, choice.value.number)))
  {
    ExclusiveIsFirst(c, db, hashes, locked);
    assert ExclusiveChoice(c, db, hashes, locked).None? ==> NoneExclusive(c, db, hashes, locked);
    SharedFair(c, db, hashes, locked);
    hide Core, PassesExclusive, Eligible, Fair, NoneExclusive, AllocateShared, ExclusiveChoice, Load;
  }

  /** No number under its cap was unlucky in its turn. */
  ghost predicate NoneMissed(c: Config, db: Db, hashes: set<PartyHash>, locked: set<nat>)
    requires ValidSettings(c.settings)
  {
    forall n :: Eligible(db, c.settings, n, hashes) && Load(db, n) < c.settings.maxPerNumber ==>
      !Missed(c, db, n, hashes, locked)
  }

  /**
    Honest exhaustion: in mode "auto" with nothing locked and no luck lost, the allocator refuses
    exactly when no number passes the exclusive query and every cooldown-eligible one is at the
    cap; and a number it shares is a least-loaded eligible one.
   */
  lemma HonestExhaustion(c: Config, db: Db, hashes: set<PartyHash>)
    requires ValidSettings(c.settings) && Core(db) && c.settings.mode == Auto
    requires NoneMissed(c, db, hashes, {})
    ensures var choice := Allocate(c, db, hashes, true, {}).1;
            && (choice.None? <==>
                  && (forall n :: !PassesExclusive(db, c.settings, n, hashes))
                  && (forall n :: Eligible(db, c.settings, n, hashes) ==> Load(db, n) >= c.settings.maxPerNumber))
            && (choice.Some? && choice.value.extCode.Some? ==>
                  forall n :: Eligible(db, c.settings, n, hashes) ==> Load(db, choice.value.number) <= Load(db, n))
  {
    ExclusiveIsFirst(c, db, hashes, {});
    WinnerIsEligible(c, db, hashes, {});
    var (after, choice) := AllocateShared(c, db, hashes, {});
    hide Core, Eligible, PassesExclusive, AllocateShared, ExclusiveChoice, Load;
    forall n | Eligible(db, c.settings, n, hashes) && Load(db, n) < c.settings.maxPerNumber
      ensures choice.Some? && Load(db, choice.value.number) <= Load(db, n)
    {
      if choice.None? || Load(db, n) < Load(db, choice.value.number) {
        SharedIsFair(c, db, hashes, {}, n);
        NothingExcused(c, db, hashes, n);
      }
    }
  }

  lemma NothingExcused(c: Config, db: Db, hashes: set<PartyHash>, n: nat)
    requires ValidSettings(c.settings) && NoneMissed(c, db, hashes, {}) && Load(db, n) < c.settings.maxPerNumber
    ensures !Excused(c, db, n, hashes, {})
  {
    hide AllocateShared, Missed, Load, Eligible;
  }
}
