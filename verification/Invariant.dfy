/** The invariant allocation keeps and routing relies on, and the allocator's part in keeping it. */
module Invariant {
  import opened Basics
  import opened Crypto
  import opened Schema
  import opened Allocation
  import Phone

  // ---- The invariant ---------------------------------------------------------------------

  predicate SameE164(x: Number, y: Number) {
    x.e164 == y.e164
  }

  ghost predicate NumbersOk(numbers: map<nat, Number>, next: nat) {
    && (forall n :: n in numbers ==> n < next && Phone.IsE164(numbers[n].e164))
    && (forall m, n {:trigger SameE164(numbers[m], numbers[n])} ::
          m in numbers && n in numbers && m != n ==> !SameE164(numbers[m], numbers[n]))
  }

  predicate PartyMirrors(p: Party, row: Session) {
    && p.number == row.number
    && p.isActive == (row.status == Active)
    && p.hasExtCode == row.extCode.Some?
    && p.releasedAt == row.closedAt
    && p.hash == PartyHash(p.sealed.plain)
    && Phone.IsE164(p.sealed.plain)
  }

  /** The denormalised party columns equal the session's, and the two sides differ. */
  predicate Mirrors(p: Parties, row: Session) {
    PartyMirrors(p.a, row) && PartyMirrors(p.b, row) && p.a.hash != p.b.hash
  }

  predicate RowOk(row: Session, now: int) {
    && (row.status == Active <==> row.closedAt.None?)
    && (row.closedAt.Some? ==> row.createdAt <= row.closedAt.value <= now)
    && row.createdAt <= now
    && (row.extCode.Some? ==> row.extCode.value != "")
  }

  predicate Share(p: Parties, q: Parties) {
    HasParty(q, p.a.hash) || HasParty(q, p.b.hash)
  }

  /** Two active sessions of one number: shared parties only with PINs, and never the same PIN. */
  predicate Apart(r: Session, p: Parties, s: Session, q: Parties) {
    r.number == s.number && r.status == Active && s.status == Active ==>
      && (Share(p, q) ==> r.extCode.Some? && s.extCode.Some?)
      && (r.extCode.Some? ==> r.extCode != s.extCode)
  }

  ghost predicate RowsOk(ss: map<nat, Session>, ps: map<nat, Parties>, numbers: map<nat, Number>, next: nat, now: int) {
    && ss.Keys == ps.Keys
    && (forall sid :: sid in ss ==>
          sid < next && ss[sid].number in numbers && RowOk(ss[sid], now) && Mirrors(ps[sid], ss[sid]))
  }

  ghost predicate AllApart(ss: map<nat, Session>, ps: map<nat, Parties>)
    requires ss.Keys == ps.Keys
  {
    forall i, j {:trigger Apart(ss[i], ps[i], ss[j], ps[j])} ::
      i in ss && j in ss && i != j ==> Apart(ss[i], ps[i], ss[j], ps[j])
  }

  ghost predicate Core(db: Db) {
    && NumbersOk(db.numbers, db.nextNumber)
    && RowsOk(db.sessions, db.parties, db.numbers, db.nextSession, db.now)
    && AllApart(db.sessions, db.parties)
  }

  lemma CoreKeys(db: Db)
    requires Core(db)
    ensures db.sessions.Keys == db.parties.Keys && db.nextSession !in db.sessions && db.nextNumber !in db.numbers
  {
  }

  lemma CoreRow(db: Db, sid: nat)
    requires Core(db) && sid in db.sessions
    ensures sid in db.parties && sid < db.nextSession && db.sessions[sid].number in db.numbers
    ensures RowOk(db.sessions[sid], db.now) && Mirrors(db.parties[sid], db.sessions[sid])
  {
  }

  lemma CoreApart(db: Db, i: nat, j: nat)
    requires Core(db) && i in db.sessions && j in db.sessions && i != j
    ensures i in db.parties && j in db.parties
    ensures Apart(db.sessions[i], db.parties[i], db.sessions[j], db.parties[j])
  {
    assert Apart(db.sessions[i], db.parties[i], db.sessions[j], db.parties[j]);
  }

  lemma ApartSymmetric(r: Session, p: Parties, s: Session, q: Parties)
    ensures Apart(r, p, s, q) <==> Apart(s, q, r, p)
  {
  }

  /** Writing one row keeps all rows apart when that row is apart from each other one. */
  lemma PutKeepsApart(ss: map<nat, Session>, ps: map<nat, Parties>, sid: nat, row: Session, p: Parties)
    requires ss.Keys == ps.Keys && AllApart(ss, ps)
    requires forall j :: j in ss && j != sid ==> Apart(row, p, ss[j], ps[j])
    ensures AllApart(ss[sid := row], ps[sid := p])
  {
    var tt, qq := ss[sid := row], ps[sid := p];
    forall i, j | i in tt && j in tt && i != j ensures Apart(tt[i], qq[i], tt[j], qq[j]) {
      if i == sid {
        assert Apart(row, p, ss[j], ps[j]);
      } else if j == sid {
        ApartSymmetric(row, p, ss[i], ps[i]);
      } else {
        assert Apart(ss[i], ps[i], ss[j], ps[j]);
      }
    }
  }

  lemma NoPairClash(db: Db, i: nat, j: nat)
    requires Core(db) && i in db.sessions && j in db.sessions && i != j
    ensures i in db.parties && j in db.parties && !PairsClash(db.parties[i], db.parties[j])
  {
    CoreRow(db, i);
    CoreRow(db, j);
    CoreApart(db, i, j);
    hide Core;
  }

  lemma NoCodeClash(db: Db, i: nat, j: nat)
    requires Core(db) && i in db.sessions && j in db.sessions && i != j
    ensures !(&& db.sessions[i].number == db.sessions[j].number
              && db.sessions[i].status == Active && db.sessions[j].status == Active
              && db.sessions[i].extCode.Some? && db.sessions[i].extCode == db.sessions[j].extCode)
  {
    CoreApart(db, i, j);
    hide Core;
  }

  /** In such a state no two index entries collide. */
  lemma IndexesHold(db: Db)
    requires Core(db)
    ensures ExtCodesUnique(db) && PartiesUnique(db)
  {
    CoreKeys(db);
    hide Core, PairsClash;
    forall i | i in db.parties ensures !Clash(db.parties[i].a, db.parties[i].b) { CoreRow(db, i); }
    forall i, j | i in db.parties && j in db.parties && i != j ensures !PairsClash(db.parties[i], db.parties[j]) {
      NoPairClash(db, i, j);
    }
    forall i, j | i in db.sessions && j in db.sessions && i != j
      ensures !(&& db.sessions[i].number == db.sessions[j].number
                && db.sessions[i].status == Active && db.sessions[j].status == Active
                && db.sessions[i].extCode.Some? && db.sessions[i].extCode == db.sessions[j].extCode)
    {
      NoCodeClash(db, i, j);
    }
  }

  // ---- States that differ in PINs issued ----------------------------------------------------

  predicate SamePartyButPin(p: Party, q: Party) {
    p.(hasExtCode := q.hasExtCode) == q
  }

  predicate SameRowButPin(r: Session, s: Session) {
    r.(extCode := s.extCode) == s && (r.extCode.Some? ==> s.extCode == r.extCode)
  }

  /** `after` is `before` with PINs given to sessions that had none, and draws consumed. */
  ghost predicate PinsOnly(before: Db, after: Db) {
    && after == before.(sessions := after.sessions, parties := after.parties, drawn := after.drawn)
    && after.sessions.Keys == before.sessions.Keys && after.parties.Keys == before.parties.Keys
    && (forall sid :: sid in before.sessions ==> SameRowButPin(before.sessions[sid], after.sessions[sid]))
    && (forall sid :: sid in before.parties ==>
          SamePartyButPin(before.parties[sid].a, after.parties[sid].a)
          && SamePartyButPin(before.parties[sid].b, after.parties[sid].b))
  }

  lemma PinsOnlyTransitive(x: Db, y: Db, z: Db)
    requires PinsOnly(x, y) && PinsOnly(y, z)
    ensures PinsOnly(x, z)
  {
    forall sid | sid in x.sessions ensures SameRowButPin(x.sessions[sid], z.sessions[sid]) {
      assert SameRowButPin(x.sessions[sid], y.sessions[sid]) && SameRowButPin(y.sessions[sid], z.sessions[sid]);
    }
    forall sid | sid in x.parties
      ensures SamePartyButPin(x.parties[sid].a, z.parties[sid].a) && SamePartyButPin(x.parties[sid].b, z.parties[sid].b)
    {
      assert SamePartyButPin(x.parties[sid].a, y.parties[sid].a) && SamePartyButPin(x.parties[sid].b, y.parties[sid].b);
      assert SamePartyButPin(y.parties[sid].a, z.parties[sid].a) && SamePartyButPin(y.parties[sid].b, z.parties[sid].b);
    }
  }

  /** PINs make no number eligible or ineligible, busy or idle. */
  lemma PinsOnlyFrame(x: Db, y: Db, s: Settings, n: nat, hashes: set<PartyHash>)
    requires PinsOnly(x, y)
    ensures Eligible(x, s, n, hashes) == Eligible(y, s, n, hashes)
    ensures PassesExclusive(x, s, n, hashes) == PassesExclusive(y, s, n, hashes)
    ensures ActiveOn(x.sessions, n) == ActiveOn(y.sessions, n)
  {
    forall sid | sid in x.parties
      ensures SamePartyButPin(x.parties[sid].a, y.parties[sid].a) && SamePartyButPin(x.parties[sid].b, y.parties[sid].b)
    {
    }
    forall sid | sid in x.sessions ensures SameRowButPin(x.sessions[sid], y.sessions[sid]) {
    }
  }

  // ---- One PIN ------------------------------------------------------------------------------

  lemma PutKeepsRows(ss: map<nat, Session>, ps: map<nat, Parties>, numbers: map<nat, Number>, next: nat, now: int,
                     sid: nat, row: Session, p: Parties)
    requires RowsOk(ss, ps, numbers, next, now)
    requires sid < next && row.number in numbers && RowOk(row, now) && Mirrors(p, row)
    ensures RowsOk(ss[sid := row], ps[sid := p], numbers, next, now)
  {
  }

  /** What promotion writes into the two tables. */
  lemma PromoteWrites(db: Db, sid: nat, code: string)
    requires sid in db.sessions && sid in db.parties && db.sessions[sid].extCode.None?
    ensures var row := db.sessions[sid].(extCode := Some(code)); var after := Promote(db, sid, code);
            after == db.(sessions := db.sessions[sid := row],
                parties := db.parties[sid := SyncParties(db.parties[sid], row)])
  {
  }

  /** Giving an unused PIN to a session without one keeps the invariant. */
  lemma PromoteKeepsCore(db: Db, sid: nat, code: string)
    requires Core(db)
    requires sid in db.sessions && db.sessions[sid].status == Active && db.sessions[sid].extCode.None?
    requires code != "" && code !in ActiveCodes(db.sessions, db.sessions[sid].number)
    ensures Core(Promote(db, sid, code))
    ensures PinsOnly(db, Promote(db, sid, code))
  {
    CoreRow(db, sid);
    PromoteChanges(db, sid, code);
    PromoteApart(db, sid, code);
    PromoteRowOk(db, sid, code);
    PromoteWrites(db, sid, code);
    hide PinsOnly, RowsOk, AllApart, NumbersOk, Mirrors, RowOk, Promote, ActiveCodes, SyncParties;
    var row := db.sessions[sid].(extCode := Some(code));
    var p := SyncParties(db.parties[sid], row);
    PutKeepsApart(db.sessions, db.parties, sid, row, p);
    PutKeepsRows(db.sessions, db.parties, db.numbers, db.nextSession, db.now, sid, row, p);
  }

  lemma PromoteRowOk(db: Db, sid: nat, code: string)
    requires sid in db.sessions && sid in db.parties && RowOk(db.sessions[sid], db.now)
               && Mirrors(db.parties[sid], db.sessions[sid])
    requires code != ""
    ensures var row := db.sessions[sid].(extCode := Some(code));
            RowOk(row, db.now) && Mirrors(SyncParties(db.parties[sid], row), row)
  {
    hide Phone.IsE164;
  }

  lemma PromoteApart(db: Db, sid: nat, code: string)
    requires Core(db) && sid in db.sessions && sid in db.parties && db.sessions[sid].status == Active
    requires code !in ActiveCodes(db.sessions, db.sessions[sid].number) && db.sessions[sid].extCode.None?
    ensures var row := db.sessions[sid].(extCode := Some(code)); var p := SyncParties(db.parties[sid], row);
            forall j :: j in db.sessions && j != sid ==> j in db.parties && Apart(row, p, db.sessions[j], db.parties[j])
  {
    hide Core, ActiveCodes;
    var row := db.sessions[sid].(extCode := Some(code));
    var p := SyncParties(db.parties[sid], row);
    forall j | j in db.sessions && j != sid ensures j in db.parties && Apart(row, p, db.sessions[j], db.parties[j]) {
      CoreApart(db, sid, j);
      CodeIsUsed(db, j);
    }
  }

  lemma PromoteChanges(db: Db, sid: nat, code: string)
    requires sid in db.sessions && sid in db.parties && db.sessions[sid].extCode.None?
    requires Mirrors(db.parties[sid], db.sessions[sid])
               && (db.sessions[sid].status == Active <==> db.sessions[sid].closedAt.None?)
    ensures PinsOnly(db, Promote(db, sid, code))
  {
    PromoteWrites(db, sid, code);
  }

  lemma PinsOnlyReflexive(db: Db)
    ensures PinsOnly(db, db)
  {
  }

  lemma CodeIsUsed(db: Db, sid: nat)
    requires sid in db.sessions
    ensures db.sessions[sid].status == Active && db.sessions[sid].extCode.Some? ==>
              db.sessions[sid].extCode.value in ActiveCodes(db.sessions, db.sessions[sid].number)
  {
    assert IsActiveOn(db.sessions, sid, db.sessions[sid].number) || db.sessions[sid].status != Active;
  }

  lemma CodesAfterPromote(db: Db, sid: nat, code: string, n: nat)
    requires sid in db.sessions && db.sessions[sid].number == n
    ensures ActiveCodes(Promote(db, sid, code).sessions, n) <= ActiveCodes(db.sessions, n) + {code}
  {
    var after := Promote(db, sid, code);
    forall c | c in ActiveCodes(after.sessions, n) ensures c in ActiveCodes(db.sessions, n) + {code} {
      var i :| i in after.sessions && IsActiveOn(after.sessions, i, n) && after.sessions[i].extCode.Some?
        && after.sessions[i].extCode.value == c;
      if i != sid { CodeIsUsed(db, i); }
    }
  }

  // ---- Drawing a PIN ---------------------------------------------------------------------------

  lemma {:induction false} FreshCodeFacts(c: Config, used: set<string>, at: nat, tries: nat)
    requires ValidSettings(c.settings)
    ensures var (code, next) := FreshCode(c, used, at, tries);
            && (code.Some? ==> code.value !in used && |code.value| == c.settings.pinLength && AllDigits(code.value))
            && (code.None? ==>
                  next == at + tries && forall i :: at <= i < at + tries ==>
                      ExtCode(c.draws(i), c.settings.pinLength) in used)
            && at <= next <= at + tries
    decreases tries
  {
    if tries > 0 {
      ExtCodeRoundTrip(c.draws(at), c.settings.pinLength);
      if ExtCode(c.draws(at), c.settings.pinLength) in used {
        FreshCodeFacts(c, used, at + 1, tries - 1);
      }
    }
  }

  // ---- The promotion loop ------------------------------------------------------------------------

  ghost predicate Promotable(db: Db, rows: seq<nat>, n: nat) {
    && (forall i :: 0 <= i < |rows| ==>
          rows[i] in db.sessions && IsActiveOn(db.sessions, rows[i], n) && db.sessions[rows[i]].extCode.None?)
    && (forall i, j :: 0 <= i < j < |rows| ==> rows[i] != rows[j])
  }

  lemma DrawnKeepsCore(db: Db, drawn: nat)
    requires Core(db)
    ensures Core(db.(drawn := drawn)) && PinsOnly(db, db.(drawn := drawn))
  {
  }

  /** What the promotion loop keeps, and what it leaves when it completes. */
  lemma {:induction false} PromoteAllOk(c: Config, db: Db, rows: seq<nat>, used: set<string>, n: nat)
    requires ValidSettings(c.settings)
    requires Core(db) && Promotable(db, rows, n)
    requires ActiveCodes(db.sessions, n) <= used
    ensures var (after, complete) := PromoteAll(c, db, rows, used);
            && Core(after) && PinsOnly(db, after)
            && (forall sid :: sid in db.sessions && sid !in rows ==> after.sessions[sid] == db.sessions[sid])
            && (complete ==> forall i :: 0 <= i < |rows| ==>
                  after.sessions[rows[i]].extCode.Some? && after.sessions[rows[i]].extCode.value !in used)
    decreases |rows|
  {
    hide Core, PinsOnly, Mirrors;
    if rows == [] {
      PinsOnlyReflexive(db);
    } else {
      var (code, next) := FreshCode(c, used, db.drawn, GENERATION_ATTEMPTS);
      FreshCodeFacts(c, used, db.drawn, GENERATION_ATTEMPTS);
      var drawn := db.(drawn := next);
      DrawnKeepsCore(db, next);
      if code.Some? {
        PromoteFirst(drawn, rows, used, n, code.value);
        var step := Promote(drawn, rows[0], code.value);
        PinsOnlyTransitive(db, drawn, step);
        PromoteAllOk(c, step, rows[1..], used + {code.value}, n);
        var after := PromoteAll(c, step, rows[1..], used + {code.value}).0;
        PinsOnlyTransitive(db, step, after);
        assert rows[0] !in rows[1..];
        assert after.sessions[rows[0]] == step.sessions[rows[0]];
      }
    }
  }

  lemma PromoteFirst(db: Db, rows: seq<nat>, used: set<string>, n: nat, pin: string)
    requires Core(db) && Promotable(db, rows, n) && rows != []
    requires ActiveCodes(db.sessions, n) <= used && pin !in used && pin != ""
    ensures var step := Promote(db, rows[0], pin);
            Core(step) && PinsOnly(db, step) && Promotable(step, rows[1..], n)
                && ActiveCodes(step.sessions, n) <= used + {pin}
  {
    assert IsActiveOn(db.sessions, rows[0], n);
    CodesAfterPromote(db, rows[0], pin, n);
    PromoteKeepsCore(db, rows[0], pin);
    RestPromotable(db, rows, n, pin);
    hide *;
  }

  lemma RestPromotable(db: Db, rows: seq<nat>, n: nat, pin: string)
    requires rows != [] && Promotable(db, rows, n) && rows[0] in db.parties
    ensures Promotable(Promote(db, rows[0], pin), rows[1..], n)
  {
    PromoteWrites(db, rows[0], pin);
    hide Promote;
    var step := Promote(db, rows[0], pin);
    forall i | 0 <= i < |rows[1..]|
      ensures IsActiveOn(step.sessions, rows[1..][i], n) && step.sessions[rows[1..][i]].extCode.None?
    {
      assert rows[1..][i] == rows[i + 1] != rows[0];
    }
  }

  // ---- The allocator -----------------------------------------------------------------------------

  /** A new session of these parties, with this PIN or none, fits on number `n`. */
  ghost predicate Placeable(db: Db, n: nat, code: Option<string>, hashes: set<PartyHash>) {
    && n in db.numbers
    && (forall sid ::
          (sid in db.sessions && sid in db.parties && IsActiveOn(db.sessions, sid, n)
           && Involves(db.parties[sid], hashes)) ==>
          code.Some? && db.sessions[sid].extCode.Some?)
    && (code.Some? ==> code.value != "" && code.value !in ActiveCodes(db.sessions, n))
  }

  lemma TryCandidateOk(c: Config, db: Db, n: nat, hashes: set<PartyHash>)
    requires ValidSettings(c.settings)
    requires Core(db) && n in db.numbers
    ensures var (after, won) := TryCandidate(c, db, n, hashes);
            && Core(after) && PinsOnly(db, after)
            && (won.Some? ==>
                  won.value.number == n && won.value.extCode.Some? && Placeable(after, n, won.value.extCode, hashes))
  {
    var used := ActiveCodes(db.sessions, n);
    var (code, next) := FreshCode(c, used, db.drawn, GENERATION_ATTEMPTS);
    FreshCodeFacts(c, used, db.drawn, GENERATION_ATTEMPTS);
    DrawnKeepsCore(db, next);
    if code.Some? {
      var drawn, pin := db.(drawn := next), code.value;
      var rows := PromotionRows(c, db, n, hashes);
      assert ActiveCodes(drawn.sessions, n) == used;
      assert Promotable(drawn, rows, n) by {
        forall i | 0 <= i < |rows| ensures NeedsPromotion(db, rows[i], n, hashes) {
          assert rows[i] in ToPromote(db, n, hashes);
        }
      }
      PromoteAllOk(c, drawn, rows, used + {pin}, n);
      var (after, complete) := PromoteAll(c, drawn, rows, used + {pin});
      PinsOnlyTransitive(db, drawn, after);
      if complete {
        PromotedPlaceable(db, after, rows, n, hashes, pin);
      }
    }
  }

  lemma PromotedPlaceable(db: Db, after: Db, rows: seq<nat>, n: nat, hashes: set<PartyHash>, pin: string)
    requires Core(db) && n in db.numbers && PinsOnly(db, after)
    requires forall sid :: sid in ToPromote(db, n, hashes) ==> sid in rows
    requires forall i :: 0 <= i < |rows| ==>
               && rows[i] in db.sessions && after.sessions[rows[i]].extCode.Some?
               && after.sessions[rows[i]].extCode.value !in ActiveCodes(db.sessions, n) + {pin}
    requires forall sid :: sid in db.sessions && sid !in rows ==> after.sessions[sid] == db.sessions[sid]
    requires pin != "" && pin !in ActiveCodes(db.sessions, n)
    ensures Placeable(after, n, Some(pin), hashes)
  {
    forall sid | sid in after.sessions && sid in after.parties && IsActiveOn(after.sessions, sid, n)
        && Involves(after.parties[sid], hashes)
      ensures after.sessions[sid].extCode.Some?
    {
      if sid !in rows {
        assert SamePartyButPin(db.parties[sid].a, after.parties[sid].a);
        assert SamePartyButPin(db.parties[sid].b, after.parties[sid].b);
        assert sid !in ToPromote(db, n, hashes);
        assert !NeedsPromotion(db, sid, n, hashes);
      }
    }
    if pin in ActiveCodes(after.sessions, n) {
      var i :| i in after.sessions && IsActiveOn(after.sessions, i, n) && after.sessions[i].extCode.Some?
        && after.sessions[i].extCode.value == pin;
      if i !in rows { CodeIsUsed(db, i); }
      assert false;
    }
  }

  lemma {:induction false} TryCandidatesOk(c: Config, db: Db, rows: seq<nat>, counts: map<nat, SortKey>,
                                          hashes: set<PartyHash>, locked: set<nat>)
    requires ValidSettings(c.settings)
    requires Core(db)
    requires forall i :: 0 <= i < |rows| ==> rows[i] in counts && rows[i] in db.numbers
    ensures var (after, won) := TryCandidates(c, db, rows, counts, hashes, locked);
            && Core(after) && PinsOnly(db, after)
            && (won.Some? ==>
                  && won.value.number in rows && won.value.extCode.Some?
                  && Placeable(after, won.value.number, won.value.extCode, hashes))
    decreases |rows|
  {
    hide Core, PinsOnly;
    if rows == [] {
      PinsOnlyReflexive(db);
    } else if counts[rows[0]].first >= c.settings.maxPerNumber || rows[0] in locked {
      TryCandidatesOk(c, db, rows[1..], counts, hashes, locked);
    } else {
      TryCandidateOk(c, db, rows[0], hashes);
      var (tried, won) := TryCandidate(c, db, rows[0], hashes);
      if won.None? {
        TryCandidatesOk(c, tried, rows[1..], counts, hashes, locked);
        PinsOnlyTransitive(db, tried, TryCandidates(c, tried, rows[1..], counts, hashes, locked).0);
      }
    }
  }

  lemma ExclusivePlaceable(db: Db, s: Settings, n: nat, hashes: set<PartyHash>)
    requires Core(db) && PassesExclusive(db, s, n, hashes)
    ensures Placeable(db, n, None, hashes)
  {
    forall sid | sid in db.sessions && IsActiveOn(db.sessions, sid, n) ensures !Involves(db.parties[sid], hashes) {
      assert Mirrors(db.parties[sid], db.sessions[sid]);
      assert !Engages(db.parties[sid].a, n, hashes) && !Engages(db.parties[sid].b, n, hashes);
    }
  }

  /** Whatever is locked and whatever is drawn: the state stays sound, and the choice fits. */
  lemma AllocateOk(c: Config, db: Db, hashes: set<PartyHash>, allowExtCode: bool, locked: set<nat>)
    requires ValidSettings(c.settings)
    requires Core(db)
    ensures var (after, choice) := Allocate(c, db, hashes, allowExtCode, locked);
            && Core(after) && PinsOnly(db, after)
            && (choice.Some? ==>
                  && Placeable(after, choice.value.number, choice.value.extCode, hashes)
                  && Eligible(after, c.settings, choice.value.number, hashes) && choice.value.number !in locked)
  {
    hide Core, PinsOnly;
    PinsOnlyReflexive(db);
    ExclusiveOk(c, db, hashes, locked);
    SharedOk(c, db, hashes, locked);
  }

  lemma ExclusiveOk(c: Config, db: Db, hashes: set<PartyHash>, locked: set<nat>)
    requires Core(db)
    ensures var choice := ExclusiveChoice(c, db, hashes, locked);
            choice.Some? ==>
              && PassesExclusive(db, c.settings, choice.value, hashes) && choice.value !in locked
              && Placeable(db, choice.value, None, hashes)
  {
    var keys := ExclusiveKeys(db, c.settings, hashes, locked);
    assert Answers(c.plan(keys), keys);
    var choice := ExclusiveChoice(c, db, hashes, locked);
    if choice.Some? {
      assert choice.value in c.plan(keys);
      ExclusivePlaceable(db, c.settings, choice.value, hashes);
    }
  }

  lemma SharedOk(c: Config, db: Db, hashes: set<PartyHash>, locked: set<nat>)
    requires ValidSettings(c.settings)
    requires Core(db)
    ensures var (after, choice) := AllocateShared(c, db, hashes, locked);
            && Core(after) && PinsOnly(db, after)
            && (choice.Some? ==>
                  && Placeable(after, choice.value.number, choice.value.extCode, hashes)
                  && Eligible(after, c.settings, choice.value.number, hashes)
                  && choice.value.number !in locked && choice.value.extCode.Some?)
  {
    var rows, counts := CandidateRows(c, db, hashes), CandidateKeys(db, c.settings, hashes);
    TryCandidatesOk(c, db, rows, counts, hashes, locked);
    WinnerUnlocked(c, db, rows, counts, hashes, locked);
    var (after, choice) := AllocateShared(c, db, hashes, locked);
    if choice.Some? {
      PinsOnlyFrame(db, after, c.settings, choice.value.number, hashes);
    }
  }

  lemma {:induction false} WinnerUnlocked(c: Config, db: Db, rows: seq<nat>, counts: map<nat, SortKey>,
                                         hashes: set<PartyHash>, locked: set<nat>)
    requires ValidSettings(c.settings)
    requires forall i :: 0 <= i < |rows| ==> rows[i] in counts
    ensures var won := TryCandidates(c, db, rows, counts, hashes, locked).1;
            won.Some? ==>
              && won.value.number in counts && won.value.number !in locked
              && counts[won.value.number].first < c.settings.maxPerNumber
    decreases |rows|
  {
    if rows != [] {
      if counts[rows[0]].first >= c.settings.maxPerNumber || rows[0] in locked {
        WinnerUnlocked(c, db, rows[1..], counts, hashes, locked);
      } else {
        WinnerUnlocked(c, TryCandidate(c, db, rows[0], hashes).0, rows[1..], counts, hashes, locked);
      }
    }
  }
}
