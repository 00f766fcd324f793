/** Choosing a proxy number for a pair (app/services/allocation.py), as functions of the stored state. */
module Allocation {
  import opened Basics
  import opened Crypto
  import opened Schema

  const GENERATION_ATTEMPTS: nat := 20
  const MAX_CANDIDATES: nat := 20

  datatype Allocated = Allocated(number: nat, extCode: Option<string>, promoted: seq<nat>)

  // ---- The SQL predicates ------------------------------------------------------------

  function CooldownEdge(db: Db, s: Settings): int {
    db.now - s.cooldownHours * HOUR
  }

  predicate Quarantines(p: Party, n: nat, hashes: set<PartyHash>, edge: int) {
    p.number == n && p.hash in hashes && !p.isActive && p.releasedAt.Some? && p.releasedAt.value > edge
  }

  /** `_CANDIDATE_PREDICATE`. */
  predicate Eligible(db: Db, s: Settings, n: nat, hashes: set<PartyHash>) {
    var edge := CooldownEdge(db, s);
    && n in db.numbers
    && db.numbers[n].enabled
    && (s.numberScope && db.numbers[n].releasedAt.Some? ==> db.numbers[n].releasedAt.value < edge)
    && (forall sid :: sid in db.parties ==>
          !Quarantines(db.parties[sid].a, n, hashes, edge) && !Quarantines(db.parties[sid].b, n, hashes, edge))
  }

  predicate Engages(p: Party, n: nat, hashes: set<PartyHash>) {
    p.number == n && p.hash in hashes && p.isActive
  }

  /** `_EXCLUSIVE_SQL` without its ORDER BY and row locks. */
  predicate PassesExclusive(db: Db, s: Settings, n: nat, hashes: set<PartyHash>) {
    && Eligible(db, s, n, hashes)
    && (forall sid :: sid in db.parties ==>
          !Engages(db.parties[sid].a, n, hashes) && !Engages(db.parties[sid].b, n, hashes))
  }

  /** `ORDER BY n.released_at NULLS FIRST, n.id`. */
  function ReleaseOrder(db: Db, n: nat): SortKey
    requires n in db.numbers
  {
    match db.numbers[n].releasedAt
    case None => SortKey(0, 0, n)
    case Some(t) => SortKey(1, t, n)
  }

  function ExclusiveKeys(db: Db, s: Settings, hashes: set<PartyHash>, locked: set<nat>): map<nat, SortKey> {
    map n | n in db.numbers && PassesExclusive(db, s, n, hashes) && n !in locked :: ReleaseOrder(db, n)
  }

  /** `ORDER BY active_count ASC, n.id`. */
  function CandidateKeys(db: Db, s: Settings, hashes: set<PartyHash>): map<nat, SortKey> {
    map n | n in db.numbers && Eligible(db, s, n, hashes) :: SortKey(|ActiveOn(db.sessions, n)|, n, 0)
  }

  /** `_ACTIVE_EXT_CODES_SQL`. */
  function ActiveCodes(ss: map<nat, Session>, n: nat): set<string> {
    set sid | sid in ss && IsActiveOn(ss, sid, n) && ss[sid].extCode.Some? :: ss[sid].extCode.value
  }

  predicate NeedsPromotion(db: Db, sid: nat, n: nat, hashes: set<PartyHash>) {
    && IsActiveOn(db.sessions, sid, n)
    && db.sessions[sid].extCode.None?
    && sid in db.parties && Involves(db.parties[sid], hashes)
  }

  /** `_SESSIONS_TO_PROMOTE_SQL`; it has no ORDER BY. */
  function ToPromote(db: Db, n: nat, hashes: set<PartyHash>): set<nat> {
    set sid | sid in db.sessions && NeedsPromotion(db, sid, n, hashes)
  }

  function Unordered(ids: set<nat>): map<nat, SortKey> {
    map sid | sid in ids :: SortKey(0, 0, 0)
  }

  // ---- PINs -----------------------------------------------------------------------------

  /** The PIN at a position of the tape. */
  function Pin(c: Config, at: nat): string
    requires ValidSettings(c.settings)
  {
    ExtCode(c.draws(at), c.settings.pinLength)
  }

  /** `_fresh_code`: the first unused PIN within `tries` draws, and the tape position after it. */
  function FreshCode(c: Config, used: set<string>, at: nat, tries: nat): (Option<string>, nat)
    requires ValidSettings(c.settings)
    decreases tries
  {
    if tries == 0 then (None, at)
    else
      var code := ExtCode(c.draws(at), c.settings.pinLength);
      if code !in used then (Some(code), at + 1) else FreshCode(c, used, at + 1, tries - 1)
  }

  /** Every one of the draws `_fresh_code` makes from `at` on is a PIN already used. */
  predicate AllDrawsUsed(c: Config, used: set<string>, at: nat)
    requires ValidSettings(c.settings)
  {
    forall i :: at <= i < at + GENERATION_ATTEMPTS ==> ExtCode(c.draws(i), c.settings.pinLength) in used
  }

  function Promote(db: Db, sid: nat, code: string): Db
    requires sid in db.sessions
  {
    WriteSession(db, sid, db.sessions[sid].(extCode := Some(code)))
  }

  /** `_promote_conflicting_sessions` over the rows of its query. */
  function PromoteAll(c: Config, db: Db, rows: seq<nat>, used: set<string>): (Db, bool)
    requires ValidSettings(c.settings)
    requires forall i :: 0 <= i < |rows| ==> rows[i] in db.sessions
    decreases |rows|
  {
    if rows == [] then (db, true)
    else
      var (code, next) := FreshCode(c, used, db.drawn, GENERATION_ATTEMPTS);
      match code
      case None => (db.(drawn := next), false)
      case Some(pin) => PromoteAll(c, Promote(db.(drawn := next), rows[0], pin), rows[1..], used + {pin})
  }

  // ---- The two modes ------------------------------------------------------------------------

  function PromotionRows(c: Config, db: Db, n: nat, hashes: set<PartyHash>): (rows: seq<nat>)
    ensures forall i :: 0 <= i < |rows| ==> rows[i] in ToPromote(db, n, hashes)
    ensures forall sid :: sid in ToPromote(db, n, hashes) ==> sid in rows
    ensures forall i, j :: 0 <= i < j < |rows| ==> rows[i] != rows[j]
  {
    var keys := Unordered(ToPromote(db, n, hashes));
    var rows := c.plan(keys);
    assert Answers(rows, keys);
    assert forall i :: 0 <= i < |rows| ==> rows[i] in rows;
    rows
  }

  /** One turn of the loop over candidates: the new state, and the PIN with the sessions promoted. */
  function TryCandidate(c: Config, db: Db, n: nat, hashes: set<PartyHash>): (Db, Option<Allocated>)
    requires ValidSettings(c.settings)
  {
    var used := ActiveCodes(db.sessions, n);
    var (code, next) := FreshCode(c, used, db.drawn, GENERATION_ATTEMPTS);
    var drawn := db.(drawn := next);
    match code
    case None => (drawn, None)
    case Some(pin) =>
      var rows := PromotionRows(c, db, n, hashes);
      var (promoted, complete) := PromoteAll(c, drawn, rows, used + {pin});
      (promoted, if complete then Some(Allocated(n, Some(pin), rows)) else None)
  }

  /** `_allocate_with_extension_code` over the remaining candidates and their counts. */
  function TryCandidates(c: Config, db: Db, rows: seq<nat>, counts: map<nat, SortKey>,
                         hashes: set<PartyHash>, locked: set<nat>): (Db, Option<Allocated>)
    requires ValidSettings(c.settings)
    requires forall i :: 0 <= i < |rows| ==> rows[i] in counts
    decreases |rows|
  {
    if rows == [] then (db, None)
    else if counts[rows[0]].first >= c.settings.maxPerNumber || rows[0] in locked then
      TryCandidates(c, db, rows[1..], counts, hashes, locked)
    else
      var (tried, won) := TryCandidate(c, db, rows[0], hashes);
      if won.Some? then (tried, won) else TryCandidates(c, tried, rows[1..], counts, hashes, locked)
  }

  function CandidateRows(c: Config, db: Db, hashes: set<PartyHash>): (rows: seq<nat>)
    ensures forall i :: 0 <= i < |rows| ==> rows[i] in CandidateKeys(db, c.settings, hashes)
    ensures |rows| <= MAX_CANDIDATES
  {
    var keys := CandidateKeys(db, c.settings, hashes);
    var rows := c.plan(keys);
    assert Answers(rows, keys);
    assert forall i :: 0 <= i < |rows| ==> rows[i] in rows;
    rows[..Min(|rows|, MAX_CANDIDATES)]
  }

  function AllocateShared(c: Config, db: Db, hashes: set<PartyHash>, locked: set<nat>): (Db, Option<Allocated>)
    requires ValidSettings(c.settings)
  {
    TryCandidates(c, db, CandidateRows(c, db, hashes), CandidateKeys(db, c.settings, hashes), hashes, locked)
  }

  function ExclusiveChoice(c: Config, db: Db, hashes: set<PartyHash>, locked: set<nat>): Option<nat> {
    var rows := c.plan(ExclusiveKeys(db, c.settings, hashes, locked));
    if rows == [] then None else Some(rows[0])
  }

  /** `allocate_number`; `locked` holds the numbers other transactions have locked. */
  function Allocate(c: Config, db: Db, hashes: set<PartyHash>, allowExtCode: bool, locked: set<nat>)
      : (Db, Option<Allocated>)
    requires ValidSettings(c.settings)
  {
    var exclusive := if c.settings.mode == Always then None else ExclusiveChoice(c, db, hashes, locked);
    if exclusive.Some? then (db, Some(Allocated(exclusive.value, None, [])))
    else if c.settings.mode == Never || !allowExtCode then (db, None)
    else AllocateShared(c, db, hashes, locked)
  }
}
