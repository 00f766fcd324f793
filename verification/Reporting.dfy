/** Which promotions a creation reports, and which it leaves unreported (`promoted_session_ids`). */
module Reporting {
  import opened Basics
  import opened Crypto
  import opened Schema
  import opened Allocation
  import opened Sessions
  import opened Invariant
  import opened Steps
  import opened Promotion
  import opened Exhaustion

  /** The session has been given a PIN. */
  predicate Gains(db: Db, after: Db, sid: nat) {
    sid in db.sessions && sid in after.sessions && after.sessions[sid].extCode != db.sessions[sid].extCode
  }

  // ---- The promotion loop ------------------------------------------------------------------

  /** Complete, the loop gives a PIN to exactly its rows. */
  lemma LoopGains(c: Config, db: Db, rows: seq<nat>, used: set<string>, n: nat)
    requires ValidSettings(c.settings) && Core(db) && Promotable(db, rows, n) && ActiveCodes(db.sessions, n) <= used
    ensures var (after, complete) := PromoteAll(c, db, rows, used);
            && (forall sid :: Gains(db, after, sid) ==> sid in rows)
            && (complete ==> forall sid :: sid in rows ==> Gains(db, after, sid))
  {
    PromoteAllOk(c, db, rows, used, n);
    hide Core, PromoteAll, ActiveCodes, SameRowButPin, SamePartyButPin;
  }

  /** One turn of the loop. */
  lemma Unrolls(c: Config, db: Db, rows: seq<nat>, used: set<string>)
    requires ValidSettings(c.settings) && rows != [] && forall i :: 0 <= i < |rows| ==> rows[i] in db.sessions
    ensures var (code, next) := FreshCode(c, used, db.drawn, GENERATION_ATTEMPTS);
            PromoteAll(c, db, rows, used) ==
            if code.None? then (db.(drawn := next), false)
            else PromoteAll(c, Promote(db.(drawn := next), rows[0], code.value), rows[1..], used + {code.value})
  {
    hide FreshCode, Promote;
  }

  /** Abandoned or not, the first row keeps the PIN drawn for it. */
  lemma FirstGains(c: Config, db: Db, rows: seq<nat>, used: set<string>, n: nat)
    requires ValidSettings(c.settings) && Core(db) && Promotable(db, rows, n) && ActiveCodes(db.sessions, n) <= used
    requires rows != [] && FreshCode(c, used, db.drawn, GENERATION_ATTEMPTS).0.Some?
    ensures Gains(db, PromoteAll(c, db, rows, used).0, rows[0])
  {
    hide Core, PinsOnly, PromoteAll, ActiveCodes;
    var (code, next) := FreshCode(c, used, db.drawn, GENERATION_ATTEMPTS);
    FreshCodeFacts(c, used, db.drawn, GENERATION_ATTEMPTS);
    DrawnKeepsCore(db, next);
    Unrolls(c, db, rows, used);
    hide FreshCode;
    FirstIsKept(c, db.(drawn := next), rows, used, n, code.value);
  }

  lemma FirstIsKept(c: Config, db: Db, rows: seq<nat>, used: set<string>, n: nat, pin: string)
    requires ValidSettings(c.settings) && Core(db) && Promotable(db, rows, n) && ActiveCodes(db.sessions, n) <= used
    requires rows != [] && pin !in used && pin != ""
    ensures Gains(db, PromoteAll(c, Promote(db, rows[0], pin), rows[1..], used + {pin}).0, rows[0])
  {
    var step := Promote(db, rows[0], pin);
    assert step.sessions[rows[0]].extCode == Some(pin);
    PromoteFirst(db, rows, used, n, pin);
    hide Core, ActiveCodes, Promote, PinsOnly, PromoteAll;
    PromoteAllOk(c, step, rows[1..], used + {pin}, n);
    assert rows[0] !in rows[1..];
  }

  // ---- One candidate ---------------------------------------------------------------------------

  /** One PIN can be drawn, and no second one after it. */
  predicate RunsOut(c: Config, used: set<string>, at: nat)
    requires ValidSettings(c.settings)
  {
    var (first, next) := FreshCode(c, used, at, GENERATION_ATTEMPTS);
    first.Some? && FreshCode(c, used + {first.value}, next, GENERATION_ATTEMPTS).0.None?
  }

  /**
    The candidate is given up with one of its two promotions made: there was a PIN for the new
    session and one for the first row, but every draw for the second fell on a PIN in use.
   */
  predicate Abandons(c: Config, db: Db, n: nat, hashes: set<PartyHash>)
    requires ValidSettings(c.settings)
  {
    var used := ActiveCodes(db.sessions, n);
    var (own, next) := FreshCode(c, used, db.drawn, GENERATION_ATTEMPTS);
    own.Some? && |ToPromote(db, n, hashes)| == 2 && RunsOut(c, used + {own.value}, next)
  }

  /** A candidate so abandoned is not taken. */
  lemma AbandonedLoses(c: Config, db: Db, n: nat, hashes: set<PartyHash>)
    requires ValidSettings(c.settings) && Core(db) && Abandons(c, db, n, hashes)
    ensures var (tried, won) := TryCandidate(c, db, n, hashes); won.None?
    ensures var used := ActiveCodes(db.sessions, n);
            var (own, i) := FreshCode(c, used, db.drawn, GENERATION_ATTEMPTS);
            var (first, j) := FreshCode(c, used + {own.value}, i, GENERATION_ATTEMPTS);
            TryCandidate(c, db, n, hashes).0.drawn == j + GENERATION_ATTEMPTS
  {
    var used, rows := ActiveCodes(db.sessions, n), PromotionRows(c, db, n, hashes);
    var (own, i) := FreshCode(c, used, db.drawn, GENERATION_ATTEMPTS);
    PromotionIsSound(c, db, i, n, hashes);
    DistinctLength(rows, ToPromote(db, n, hashes));
    CoveredLength(rows, ToPromote(db, n, hashes));
    TwoRows(c, db.(drawn := i), rows, used + {own.value});
    var (first, j) := FreshCode(c, used + {own.value}, i, GENERATION_ATTEMPTS);
    FreshCodeFacts(c, used + {own.value} + {first.value}, j, GENERATION_ATTEMPTS);
    hide Core, FreshCode, ActiveCodes, ToPromote, PromotionRows, PromoteAll, Promotable;
  }

  lemma {:induction false} AllUsed(c: Config, used: set<string>, at: nat, tries: nat)
    requires ValidSettings(c.settings)
    requires forall i :: at <= i < at + tries ==> Pin(c, i) in used
    ensures FreshCode(c, used, at, tries) == (None, at + tries)
    decreases tries
  {
    if tries > 0 {
      assert Pin(c, at) in used;
      AllUsed(c, used, at + 1, tries - 1);
    }
  }

  lemma NextUnused(c: Config, used: set<string>, at: nat)
    requires ValidSettings(c.settings) && Pin(c, at) !in used
    ensures FreshCode(c, used, at, GENERATION_ATTEMPTS) == (Some(Pin(c, at)), at + 1)
  {
  }

  /** Draws that make it so: the PIN of the new session comes up again on every draw for the second promotion. */
  predicate Repeats(c: Config, at: nat)
    requires ValidSettings(c.settings)
  {
    Pin(c, at + 1) != Pin(c, at) && forall i :: at + 2 <= i < at + 2 + GENERATION_ATTEMPTS ==> Pin(c, i) == Pin(c, at)
  }

  /** The candidate loses, with one session promoted. */
  lemma RepeatedDraws(c: Config, db: Db, n: nat, hashes: set<PartyHash>)
    requires ValidSettings(c.settings) && Core(db)
    requires ActiveCodes(db.sessions, n) == {} && |ToPromote(db, n, hashes)| == 2 && Repeats(c, db.drawn)
    ensures Abandons(c, db, n, hashes)
    ensures TryCandidate(c, db, n, hashes).1.None?
              && TryCandidate(c, db, n, hashes).0.drawn == db.drawn + 2 + GENERATION_ATTEMPTS
  {
    hide Core, ActiveCodes, ToPromote, FreshCode, Pin, TryCandidate;
    var own, first := Pin(c, db.drawn), Pin(c, db.drawn + 1);
    NextUnused(c, {}, db.drawn);
    NextUnused(c, {} + {own}, db.drawn + 1);
    AllUsed(c, {} + {own} + {first}, db.drawn + 2, GENERATION_ATTEMPTS);
    assert Abandons(c, db, n, hashes);
    AbandonedLoses(c, db, n, hashes);
  }

  predicate ThreePins(c: Config, at: nat)
    requires ValidSettings(c.settings)
  {
    Pin(c, at) != Pin(c, at + 1) && Pin(c, at) != Pin(c, at + 2) && Pin(c, at + 1) != Pin(c, at + 2)
  }

  /** Three different draws win a number with two rows to promote. */
  lemma DistinctDraws(c: Config, db: Db, n: nat, hashes: set<PartyHash>)
    requires ValidSettings(c.settings) && Core(db)
    requires ActiveCodes(db.sessions, n) == {} && |ToPromote(db, n, hashes)| == 2 && ThreePins(c, db.drawn)
    ensures TryCandidate(c, db, n, hashes).1.Some? && TryCandidate(c, db, n, hashes).1.value.extCode.Some?
  {
    hide Core, ActiveCodes, ToPromote, FreshCode, Pin, PromotionRows, PromoteAll;
    NextUnused(c, {}, db.drawn);
    BothPromoted(c, db, n, hashes);
    hide ThreePins;
  }

  lemma BothPromoted(c: Config, db: Db, n: nat, hashes: set<PartyHash>)
    requires ValidSettings(c.settings) && Core(db) && |ToPromote(db, n, hashes)| == 2 && ThreePins(c, db.drawn)
    ensures var rows := PromotionRows(c, db, n, hashes);
            && (forall i :: 0 <= i < |rows| ==> rows[i] in db.sessions)
            && PromoteAll(c, db.(drawn := db.drawn + 1), rows, {} + {Pin(c, db.drawn)}).1
  {
    hide Core, ActiveCodes, ToPromote, FreshCode, Pin, PromotionRows, PromoteAll, Promotable;
    var rows, own, first := PromotionRows(c, db, n, hashes), Pin(c, db.drawn), Pin(c, db.drawn + 1);
    PromotionIsSound(c, db, db.drawn + 1, n, hashes);
    DistinctLength(rows, ToPromote(db, n, hashes));
    CoveredLength(rows, ToPromote(db, n, hashes));
    NextUnused(c, {} + {own}, db.drawn + 1);
    NextUnused(c, {} + {own} + {first}, db.drawn + 2);
    TwoRows(c, db.(drawn := db.drawn + 1), rows, {} + {own});
  }

  /** What one turn of the candidate loop, won or not, gives PINs to. */
  ghost predicate TurnReports(c: Config, db: Db, n: nat, hashes: set<PartyHash>, after: Db, won: Option<Allocated>)
    requires ValidSettings(c.settings)
  {
    && (forall sid :: Gains(db, after, sid) ==> sid in ToPromote(db, n, hashes))
    && (won.Some? ==>
          && won.value.number == n && (forall sid :: sid in won.value.promoted <==> sid in ToPromote(db, n, hashes))
          && (forall sid :: sid in won.value.promoted ==> Gains(db, after, sid)))
    && (won.None? ==> ((exists sid :: Gains(db, after, sid)) <==> Abandons(c, db, n, hashes)))
  }

  lemma {:induction false} CoveredLength(rows: seq<nat>, ids: set<nat>)
    requires forall id :: id in ids ==> id in rows
    ensures |ids| <= |rows|
    decreases |rows|
  {
    if rows != [] {
      var rest := ids - {rows[0]};
      forall id | id in rest ensures id in rows[1..] { assert id in rows; }
      CoveredLength(rows[1..], rest);
      SubsetCard(ids, rest + {rows[0]});
    } else {
      assert ids == {};
    }
  }

  /** How the loop over at most two rows ends. */
  lemma TwoRows(c: Config, db: Db, rows: seq<nat>, used: set<string>)
    requires ValidSettings(c.settings) && 1 <= |rows| <= 2 && forall i :: 0 <= i < |rows| ==> rows[i] in db.sessions
    ensures var complete := PromoteAll(c, db, rows, used).1;
            var (first, next) := FreshCode(c, used, db.drawn, GENERATION_ATTEMPTS);
            && (first.None? ==> PromoteAll(c, db, rows, used) == (db.(drawn := next), false))
            && (first.Some? && |rows| == 1 ==> complete)
            && (first.Some? && |rows| == 2 ==>
                  var (second, last) := FreshCode(c, used + {first.value}, next, GENERATION_ATTEMPTS);
                  (complete <==> second.Some?) && PromoteAll(c, db, rows, used).0.drawn == last)
  {
    hide FreshCode, PromoteAll;
    var (first, next) := FreshCode(c, used, db.drawn, GENERATION_ATTEMPTS);
    Unrolls(c, db, rows, used);
    if first.Some? {
      var step, pins := Promote(db.(drawn := next), rows[0], first.value), used + {first.value};
      assert step.drawn == next && step.sessions.Keys == db.sessions.Keys;
      hide Promote;
      if |rows| == 2 {
        Unrolls(c, step, rows[1..], pins);
        var (second, last) := FreshCode(c, pins, next, GENERATION_ATTEMPTS);
        if second.Some? {
          assert rows[1..][1..] == [];
          NoRows(c, Promote(step.(drawn := last), rows[1], second.value), pins + {second.value});
        }
      } else {
        assert rows[1..] == [];
        NoRows(c, step, pins);
      }
    }
  }

  lemma NoRows(c: Config, db: Db, used: set<string>)
    requires ValidSettings(c.settings)
    ensures PromoteAll(c, db, [], used) == (db, true)
  {
  }

  /** Over at most two rows: given up after a promotion means that the PINs ran out at the second. */
  lemma RowsReport(c: Config, db: Db, rows: seq<nat>, used: set<string>, n: nat)
    requires ValidSettings(c.settings) && Core(db) && Promotable(db, rows, n) && ActiveCodes(db.sessions, n) <= used
    requires |rows| <= 2
    ensures var (after, complete) := PromoteAll(c, db, rows, used);
            !complete ==> ((exists sid :: Gains(db, after, sid)) <==> |rows| == 2 && RunsOut(c, used, db.drawn))
  {
    hide Core, ActiveCodes, FreshCode;
    if rows == [] {
      NoRows(c, db, used);
    } else {
      TwoRows(c, db, rows, used);
      hide PromoteAll;
      var (first, next) := FreshCode(c, used, db.drawn, GENERATION_ATTEMPTS);
      if first.Some? {
        FirstGains(c, db, rows, used, n);
      } else {
        assert forall sid :: !Gains(db, db.(drawn := next), sid);
      }
      hide Promotable, Gains;
    }
  }

  lemma PromotionIsSound(c: Config, db: Db, next: nat, n: nat, hashes: set<PartyHash>)
    requires Core(db)
    ensures var drawn := db.(drawn := next);
            && Core(drawn) && Promotable(drawn, PromotionRows(c, db, n, hashes), n)
            && ActiveCodes(drawn.sessions, n) == ActiveCodes(db.sessions, n)
            && (forall sid :: sid in PromotionRows(c, db, n, hashes) ==> sid in db.sessions)
            && forall sid :: sid in PromotionRows(c, db, n, hashes) <==> sid in ToPromote(db, n, hashes)
  {
    DrawnKeepsCore(db, next);
    var rows := PromotionRows(c, db, n, hashes);
    forall i | 0 <= i < |rows| ensures NeedsPromotion(db, rows[i], n, hashes) {
      assert rows[i] in ToPromote(db, n, hashes);
    }
    hide Core;
  }

  lemma PromotionReports(c: Config, db: Db, next: nat, n: nat, a: PartyHash, b: PartyHash, pin: string)
    requires ValidSettings(c.settings) && Core(db)
    ensures var used, rows := ActiveCodes(db.sessions, n) + {pin}, PromotionRows(c, db, n, {a, b});
            var (after, complete) := PromoteAll(c, db.(drawn := next), rows, used);
            && (forall sid :: Gains(db, after, sid) ==> sid in ToPromote(db, n, {a, b}))
            && (complete ==> forall sid :: sid in rows ==> Gains(db, after, sid))
            && (!complete ==>
                  ((exists sid :: Gains(db, after, sid)) <==>
                      |ToPromote(db, n, {a, b})| == 2 && RunsOut(c, used, next)))
  {
    hide FreshCode, Core, OnlyActiveOf, ActiveCodes, ToPromote, PromoteAll, Gains, Promotable, PromotionRows, RunsOut;
    PromotionBounded(db, n, a, b);
    var drawn, used, rows := db.(drawn := next), ActiveCodes(db.sessions, n) + {pin}, PromotionRows(c, db, n, {a, b});
    PromotionIsSound(c, db, next, n, {a, b});
    DistinctLength(rows, ToPromote(db, n, {a, b}));
    CoveredLength(rows, ToPromote(db, n, {a, b}));
    LoopGains(c, drawn, rows, used, n);
    RowsReport(c, drawn, rows, used, n);
    SameGains(db, drawn, PromoteAll(c, drawn, rows, used).0);
  }

  lemma TurnIsReported(c: Config, db: Db, n: nat, a: PartyHash, b: PartyHash)
    requires ValidSettings(c.settings) && Core(db)
    ensures var (after, won) := TryCandidate(c, db, n, {a, b}); TurnReports(c, db, n, {a, b}, after, won)
  {
    hide FreshCode, Core, ActiveCodes, ToPromote, PromotionRows, PromoteAll, RunsOut, TurnReports;
    var (own, next) := FreshCode(c, ActiveCodes(db.sessions, n), db.drawn, GENERATION_ATTEMPTS);
    if own.Some? {
      CodedTurn(c, db, next, n, a, b, own.value);
    } else {
      UncodedTurn(c, db, next, n, {a, b});
    }
  }

  lemma UncodedTurn(c: Config, db: Db, next: nat, n: nat, hashes: set<PartyHash>)
    requires ValidSettings(c.settings)
    requires FreshCode(c, ActiveCodes(db.sessions, n), db.drawn, GENERATION_ATTEMPTS).0.None?
    ensures TurnReports(c, db, n, hashes, db.(drawn := next), None)
  {
    hide FreshCode, ActiveCodes, ToPromote, RunsOut;
  }

  lemma CodedTurn(c: Config, db: Db, next: nat, n: nat, a: PartyHash, b: PartyHash, pin: string)
    requires ValidSettings(c.settings) && Core(db)
    requires FreshCode(c, ActiveCodes(db.sessions, n), db.drawn, GENERATION_ATTEMPTS) == (Some(pin), next)
    ensures var rows := PromotionRows(c, db, n, {a, b});
            && (forall i :: 0 <= i < |rows| ==> rows[i] in db.sessions)
            && var (after, complete) := PromoteAll(c, db.(drawn := next), rows, ActiveCodes(db.sessions, n) + {pin});
               TurnReports(c, db, n, {a, b}, after, if complete then Some(Allocated(n, Some(pin), rows)) else None)
  {
    PromotionIsSound(c, db, next, n, {a, b});
    PromotionReports(c, db, next, n, a, b, pin);
    hide *;
    var rows := PromotionRows(c, db, n, {a, b});
    var (after, complete) := PromoteAll(c, db.(drawn := next), rows, ActiveCodes(db.sessions, n) + {pin});
    TurnOf(c, db, next, n, {a, b}, pin, rows, after, complete);
  }

  lemma TurnOf(c: Config, db: Db, next: nat, n: nat, hashes: set<PartyHash>, pin: string, rows: seq<nat>, after: Db,
               complete: bool)
    requires ValidSettings(c.settings)
    requires FreshCode(c, ActiveCodes(db.sessions, n), db.drawn, GENERATION_ATTEMPTS) == (Some(pin), next)
    requires forall sid :: sid in rows <==> sid in ToPromote(db, n, hashes)
    requires forall sid :: Gains(db, after, sid) ==> sid in ToPromote(db, n, hashes)
    requires complete ==> forall sid :: sid in rows ==> Gains(db, after, sid)
    requires !complete ==>
               ((exists sid :: Gains(db, after, sid)) <==>
                  |ToPromote(db, n, hashes)| == 2 && RunsOut(c, ActiveCodes(db.sessions, n) + {pin}, next))
    ensures TurnReports(c, db, n, hashes, after, if complete then Some(Allocated(n, Some(pin), rows)) else None)
  {
    hide FreshCode, ActiveCodes, ToPromote, RunsOut, Gains;
  }

  lemma SameGains(db: Db, drawn: Db, after: Db)
    requires drawn.sessions == db.sessions
    ensures forall sid :: Gains(drawn, after, sid) <==> Gains(db, after, sid)
  {
  }

  // ---- The loop over candidates --------------------------------------------------------------

  /** Some candidate before the winner, or any one if there is none, is given up after a promotion. */
  predicate LeavesStrays(c: Config, db: Db, rows: seq<nat>, counts: map<nat, SortKey>,
                         hashes: set<PartyHash>, locked: set<nat>)
    requires ValidSettings(c.settings)
    requires forall i :: 0 <= i < |rows| ==> rows[i] in counts
    decreases |rows|
  {
    if rows == [] then false
    else if counts[rows[0]].first >= c.settings.maxPerNumber || rows[0] in locked then
      LeavesStrays(c, db, rows[1..], counts, hashes, locked)
    else
      var (tried, won) := TryCandidate(c, db, rows[0], hashes);
      won.None? && (Abandons(c, db, rows[0], hashes) || LeavesStrays(c, tried, rows[1..], counts, hashes, locked))
  }

  predicate Lists(won: Option<Allocated>, sid: nat) {
    won.Some? && sid in won.value.promoted
  }

  /** Which sessions were given a PIN, and which of them the winner lists. */
  ghost predicate LoopReported(db: Db, rows: seq<nat>, hashes: set<PartyHash>, after: Db, won: Option<Allocated>,
                               strays: bool)
  {
    && (forall sid :: Gains(db, after, sid) ==> db.sessions[sid].number in rows)
    && (won.Some? ==> won.value.number in rows)
    && (forall sid :: Lists(won, sid) <==>
          won.Some? && Gains(db, after, sid) && db.sessions[sid].number == won.value.number)
    && (forall sid :: Lists(won, sid) <==> won.Some? && sid in ToPromote(db, won.value.number, hashes))
    && (strays <==> exists sid :: Gains(db, after, sid) && !Lists(won, sid))
  }

  lemma {:induction false} LoopIsReported(c: Config, db: Db, rows: seq<nat>, counts: map<nat, SortKey>,
                                          a: PartyHash, b: PartyHash, locked: set<nat>)
    requires ValidSettings(c.settings) && Core(db)
    requires forall i :: 0 <= i < |rows| ==> rows[i] in counts && rows[i] in db.numbers
    requires forall i, j :: 0 <= i < j < |rows| ==> rows[i] != rows[j]
    ensures var (after, won) := TryCandidates(c, db, rows, counts, {a, b}, locked);
            LoopReported(db, rows, {a, b}, after, won, LeavesStrays(c, db, rows, counts, {a, b}, locked))
    decreases |rows|
  {
    hide Core, LoopReported, TurnReports, TryCandidate, Abandons, PinsOnly;
    if rows == [] {
      NothingReported(db, {a, b});
    } else {
      var rest := rows[1..];
      if counts[rows[0]].first >= c.settings.maxPerNumber || rows[0] in locked {
        LoopIsReported(c, db, rest, counts, a, b, locked);
        var (after, won) := TryCandidates(c, db, rest, counts, {a, b}, locked);
        LongerReported(db, rows, {a, b}, after, won, LeavesStrays(c, db, rest, counts, {a, b}, locked));
      } else {
        TryCandidateOk(c, db, rows[0], {a, b});
        TurnIsReported(c, db, rows[0], a, b);
        var (tried, won) := TryCandidate(c, db, rows[0], {a, b});
        if won.Some? {
          WinnerReported(c, db, rows, {a, b}, tried, won);
        } else {
          assert tried.numbers == db.numbers by { SameNumbers(db, tried); }
          LoopIsReported(c, tried, rest, counts, a, b, locked);
          var (after, winner) := TryCandidates(c, tried, rest, counts, {a, b}, locked);
          TryCandidatesOk(c, tried, rest, counts, {a, b}, locked);
          MissReported(c, db, rows, {a, b}, tried, after, winner, LeavesStrays(c, tried, rest, counts, {a, b}, locked));
        }
      }
    }
  }

  lemma SameNumbers(db: Db, after: Db)
    requires PinsOnly(db, after)
    ensures after.numbers == db.numbers
  {
  }

  lemma NothingReported(db: Db, hashes: set<PartyHash>)
    ensures LoopReported(db, [], hashes, db, None, false)
  {
  }

  lemma LongerReported(db: Db, rows: seq<nat>, hashes: set<PartyHash>, after: Db, won: Option<Allocated>, strays: bool)
    requires rows != [] && LoopReported(db, rows[1..], hashes, after, won, strays)
    ensures LoopReported(db, rows, hashes, after, won, strays)
  {
    hide ToPromote, Gains, Lists;
  }

  lemma WinnerReported(c: Config, db: Db, rows: seq<nat>, hashes: set<PartyHash>, after: Db, won: Option<Allocated>)
    requires ValidSettings(c.settings) && rows != [] && won.Some? && TurnReports(c, db, rows[0], hashes, after, won)
    ensures LoopReported(db, rows, hashes, after, won, false)
  {
    assert forall sid :: sid in ToPromote(db, rows[0], hashes) ==> db.sessions[sid].number == rows[0];
    hide ToPromote, Abandons;
  }

  /** After a miss: what the candidate was given up with, and what the later ones did. */
  lemma MissReported(c: Config, db: Db, rows: seq<nat>, hashes: set<PartyHash>, tried: Db, after: Db,
                     won: Option<Allocated>, strays: bool)
    requires ValidSettings(c.settings) && Core(db) && rows != [] && rows[0] in db.numbers && rows[0] !in rows[1..]
    requires TryCandidate(c, db, rows[0], hashes) == (tried, None) && TurnReports(c, db, rows[0], hashes, tried, None)
    requires PinsOnly(db, tried) && PinsOnly(tried, after) && LoopReported(tried, rows[1..], hashes, after, won, strays)
    ensures LoopReported(db, rows, hashes, after, won, Abandons(c, db, rows[0], hashes) || strays)
  {
    hide *;
    TryTouches(c, db, rows[0], hashes);
    MissedGains(c, db, rows, hashes, tried, after, won, strays);
    if won.Some? && won.value.number != rows[0] { TryElsewhere(c, db, rows[0], hashes, won.value.number); }
    var abandons := Abandons(c, db, rows[0], hashes);
    MissedTurn(c, db, rows[0], hashes, tried);
    MissWhole(db, rows, hashes, tried, after, won, strays, abandons);
  }

  lemma MissedTurn(c: Config, db: Db, n: nat, hashes: set<PartyHash>, tried: Db)
    requires ValidSettings(c.settings) && TurnReports(c, db, n, hashes, tried, None)
    ensures (exists sid :: Gains(db, tried, sid)) <==> Abandons(c, db, n, hashes)
  {
    hide Gains, Abandons, ToPromote;
  }

  lemma MissWhole(db: Db, rows: seq<nat>, hashes: set<PartyHash>, tried: Db, after: Db, won: Option<Allocated>,
                  strays: bool, abandons: bool)
    requires rows != [] && rows[0] !in rows[1..] && LoopReported(tried, rows[1..], hashes, after, won, strays)
    requires forall sid :: Gains(db, after, sid) <==> Gains(db, tried, sid) || Gains(tried, after, sid)
    requires forall sid :: Gains(db, tried, sid) ==> db.sessions[sid].number == rows[0]
    requires forall sid :: Gains(tried, after, sid) ==>
               sid in db.sessions && db.sessions[sid].number == tried.sessions[sid].number
    requires (exists sid :: Gains(db, tried, sid)) <==> abandons
    requires won.Some? && won.value.number != rows[0] ==>
               ToPromote(tried, won.value.number, hashes) == ToPromote(db, won.value.number, hashes)
    ensures LoopReported(db, rows, hashes, after, won, abandons || strays)
  {
    MissLists(db, rows, hashes, tried, after, won, strays);
    MissStrays(db, rows, hashes, tried, after, won, strays, abandons);
    hide Gains, Lists, ToPromote;
    forall sid | Gains(db, after, sid) ensures db.sessions[sid].number in rows {
      if Gains(db, tried, sid) { assert rows[0] in rows; }
    }
  }

  lemma MissLists(db: Db, rows: seq<nat>, hashes: set<PartyHash>, tried: Db, after: Db, won: Option<Allocated>,
                  strays: bool)
    requires rows != [] && rows[0] !in rows[1..] && LoopReported(tried, rows[1..], hashes, after, won, strays)
    requires forall sid :: Gains(db, after, sid) <==> Gains(db, tried, sid) || Gains(tried, after, sid)
    requires forall sid :: Gains(db, tried, sid) ==> db.sessions[sid].number == rows[0]
    requires forall sid :: Gains(tried, after, sid) ==>
               sid in db.sessions && db.sessions[sid].number == tried.sessions[sid].number
    ensures forall sid :: Lists(won, sid) <==>
              won.Some? && Gains(db, after, sid) && db.sessions[sid].number == won.value.number
  {
    hide ToPromote, Lists;
    forall sid
      ensures Lists(won, sid) <==> won.Some? && Gains(db, after, sid) && db.sessions[sid].number == won.value.number
    {
      assert Lists(won, sid) <==>
          won.Some? && Gains(tried, after, sid) && tried.sessions[sid].number == won.value.number;
    }
  }

  lemma MissStrays(db: Db, rows: seq<nat>, hashes: set<PartyHash>, tried: Db, after: Db, won: Option<Allocated>,
                   strays: bool, abandons: bool)
    requires rows != [] && rows[0] !in rows[1..] && LoopReported(tried, rows[1..], hashes, after, won, strays)
    requires forall sid :: Gains(db, after, sid) <==> Gains(db, tried, sid) || Gains(tried, after, sid)
    requires forall sid :: Gains(db, tried, sid) ==> db.sessions[sid].number == rows[0]
    requires forall sid :: Gains(tried, after, sid) ==>
               sid in db.sessions && db.sessions[sid].number == tried.sessions[sid].number
    requires (exists sid :: Gains(db, tried, sid)) <==> abandons
    ensures abandons || strays <==> exists sid :: Gains(db, after, sid) && !Lists(won, sid)
  {
    MissLists(db, rows, hashes, tried, after, won, strays);
    assert won.Some? ==> won.value.number != rows[0];
    hide Gains, Lists;
    if abandons {
      var sid :| Gains(db, tried, sid);
      assert Gains(db, after, sid) && !Lists(won, sid);
    }
  }

  lemma MissedGains(c: Config, db: Db, rows: seq<nat>, hashes: set<PartyHash>, tried: Db, after: Db,
                    won: Option<Allocated>, strays: bool)
    requires ValidSettings(c.settings) && rows != [] && rows[0] !in rows[1..]
    requires TouchesOnly(db, tried, rows[0]) && TurnReports(c, db, rows[0], hashes, tried, None)
    requires PinsOnly(db, tried) && PinsOnly(tried, after) && LoopReported(tried, rows[1..], hashes, after, won, strays)
    ensures forall sid :: Gains(db, after, sid) <==> Gains(db, tried, sid) || Gains(tried, after, sid)
    ensures forall sid :: Gains(db, tried, sid) ==> db.sessions[sid].number == rows[0]
    ensures forall sid :: Gains(tried, after, sid) ==>
              sid in db.sessions && db.sessions[sid].number == tried.sessions[sid].number
  {
    assert forall sid :: sid in ToPromote(db, rows[0], hashes) ==> db.sessions[sid].number == rows[0];
    assert forall sid :: Gains(db, tried, sid) ==> db.sessions[sid].number == rows[0];
    assert forall sid :: Gains(tried, after, sid) ==> tried.sessions[sid].number in rows[1..];
    hide ToPromote, Abandons, Lists, TurnReports, LoopReported;
    GainsSplit(db, tried, after, rows[0]);
    hide Gains;
  }

  /** No session gains a PIN twice. */
  lemma GainsSplit(db: Db, tried: Db, after: Db, n: nat)
    requires TouchesOnly(db, tried, n) && PinsOnly(db, tried) && PinsOnly(tried, after)
    requires forall sid :: Gains(tried, after, sid) ==> tried.sessions[sid].number != n
    ensures forall sid :: Gains(db, after, sid) <==> Gains(db, tried, sid) || Gains(tried, after, sid)
    ensures forall sid :: Gains(tried, after, sid) ==>
              sid in db.sessions && db.sessions[sid].number == tried.sessions[sid].number
  {
    hide SamePartyButPin;
    forall sid | sid in db.sessions ensures SameRowButPin(db.sessions[sid], tried.sessions[sid]) {}
  }

  // ---- Creations ---------------------------------------------------------------------------------

  /** A creation in this state would leave a promotion unlisted, whatever number it wins. */
  predicate SharingLeavesStrays(c: Config, db: Db, hashes: set<PartyHash>, locked: set<nat>)
    requires ValidSettings(c.settings)
  {
    LeavesStrays(c, db, CandidateRows(c, db, hashes), CandidateKeys(db, c.settings, hashes), hashes, locked)
  }

  /** What an allocation gave PINs to and what it lists, when it gives a number. */
  ghost predicate Reported(db: Db, hashes: set<PartyHash>, after: Db, won: Allocated, strays: bool) {
    && (forall sid :: sid in won.promoted <==> sid in ToPromote(db, won.number, hashes))
    && (forall sid :: sid in won.promoted <==> Gains(db, after, sid) && db.sessions[sid].number == won.number)
    && ((forall sid :: Gains(db, after, sid) ==> sid in won.promoted) <==> !(won.extCode.Some? && strays))
  }

  lemma SharedIsReported(c: Config, db: Db, a: PartyHash, b: PartyHash, locked: set<nat>)
    requires ValidSettings(c.settings) && Core(db)
    ensures var (after, won) := AllocateShared(c, db, {a, b}, locked);
            won.Some? ==> Reported(db, {a, b}, after, won.value, SharingLeavesStrays(c, db, {a, b}, locked))
  {
    var rows, keys := CandidateRows(c, db, {a, b}), CandidateKeys(db, c.settings, {a, b});
    RowsAreDistinct(c, db, {a, b});
    LoopIsReported(c, db, rows, keys, a, b, locked);
    TryCandidatesOk(c, db, rows, keys, {a, b}, locked);
    var (after, won) := AllocateShared(c, db, {a, b}, locked);
    hide Core, LoopReported, Reported, LeavesStrays, TryCandidates, CandidateRows, PinsOnly;
    if won.Some? { ListedIsReported(db, rows, {a, b}, after, won, SharingLeavesStrays(c, db, {a, b}, locked)); }
  }

  lemma RowsAreDistinct(c: Config, db: Db, hashes: set<PartyHash>)
    ensures var rows := CandidateRows(c, db, hashes);
            && (forall i, j :: 0 <= i < j < |rows| ==> rows[i] != rows[j])
            && (forall i :: 0 <= i < |rows| ==> rows[i] in db.numbers)
  {
    var keys := CandidateKeys(db, c.settings, hashes);
    assert Answers(c.plan(keys), keys);
    hide Eligible;
  }

  lemma ListedIsReported(db: Db, rows: seq<nat>, hashes: set<PartyHash>, after: Db, won: Option<Allocated>,
                         strays: bool)
    requires won.Some? && won.value.extCode.Some? && LoopReported(db, rows, hashes, after, won, strays)
    ensures Reported(db, hashes, after, won.value, strays)
  {
    forall sid ensures Lists(won, sid) <==> sid in won.value.promoted {}
    hide Gains, ToPromote, Lists;
  }

  lemma ExclusiveIsReported(c: Config, db: Db, hashes: set<PartyHash>, locked: set<nat>, n: nat, strays: bool)
    requires Core(db) && ExclusiveChoice(c, db, hashes, locked) == Some(n)
    ensures Reported(db, hashes, db, Allocated(n, None, []), strays)
  {
    ExclusiveOk(c, db, hashes, locked);
    hide Core, ExclusiveChoice, PassesExclusive;
    assert ToPromote(db, n, hashes) == {};
  }

  lemma AllocationIsReported(c: Config, db: Db, a: PartyHash, b: PartyHash, allowExtCode: bool, locked: set<nat>)
    requires ValidSettings(c.settings) && Core(db)
    ensures var (after, won) := Allocate(c, db, {a, b}, allowExtCode, locked);
            won.Some? ==> Reported(db, {a, b}, after, won.value, SharingLeavesStrays(c, db, {a, b}, locked))
  {
    hide Core, Reported, SharingLeavesStrays, AllocateShared, ExclusiveChoice;
    SharedIsReported(c, db, a, b, locked);
    var choice := ExclusiveChoice(c, db, {a, b}, locked);
    if choice.Some? {
      ExclusiveIsReported(c, db, {a, b}, locked, choice.value, SharingLeavesStrays(c, db, {a, b}, locked));
    }
  }

  /**
    What a creation reports as promoted: exactly the sessions that needed it on the number it won, and
    exactly those that were given a PIN there. These are all the sessions it gave a PIN to if and only
    if no candidate before the winner was given up with a promotion made.
   */
  lemma PromotedExactly(c: Config, db: Db, r: Request, locked: set<nat>)
    requires ValidSettings(c.settings) && Core(db) && CreateSession(c, db, r, locked).1.Ok?
    ensures CheckRequest(c.settings, r).Ok?
    ensures var (a, b) := CheckRequest(c.settings, r).value; var hashes := PairHashes(a, b);
            var (after, result) := CreateSession(c, db, r, locked); var won := result.value.allocation;
            && (forall sid :: sid in won.promoted <==> sid in ToPromote(db, won.number, hashes))
            && (forall sid :: sid in won.promoted <==> Gains(db, after, sid) && db.sessions[sid].number == won.number)
            && ((forall sid :: Gains(db, after, sid) ==> sid in won.promoted) <==>
                  !(won.extCode.Some? && SharingLeavesStrays(c, db, hashes, locked)))
  {
    CreatedFrom(c, db, r, locked);
    var (a, b) := CheckRequest(c.settings, r).value;
    AllocationIsReported(c, db, PartyHash(a), PartyHash(b), r.allowExtCode, locked);
    AllocateOk(c, db, PairHashes(a, b), r.allowExtCode, locked);
    NextIsNew(db);
    var pool := Allocate(c, db, PairHashes(a, b), r.allowExtCode, locked).0;
    var after := CreateSession(c, db, r, locked).0;
    hide Core, CreateSession, CheckRequest, Allocate, ToPromote, SharingLeavesStrays, Placeable, Eligible;
    GainsBeside(db, pool, after);
    hide Gains, PinsOnly;
  }

  /** A new row is not a promotion. */
  lemma GainsBeside(db: Db, pool: Db, after: Db)
    requires PinsOnly(db, pool) && db.nextSession !in db.sessions
    requires db.nextSession in after.sessions
               && after.sessions == pool.sessions[pool.nextSession := after.sessions[db.nextSession]]
    ensures forall sid :: Gains(db, after, sid) <==> Gains(db, pool, sid)
  {
    hide SameRowButPin, SamePartyButPin;
  }
}
