/**
 Session lifecycle and the pool (app/services/sessions.py, app/services/numbers.py), as functions of
 the stored state.
 */
module Sessions {
  import opened Basics
  import opened Crypto
  import opened Schema
  import opened Allocation
  import Phone

  const EXPIRY_SWEEP_LIMIT: nat := 500

  datatype DomainError =
    | InvalidPhoneNumber | ValidationFailed | NoNumberAvailable | AllocationConflict
    | SessionNotFound | SessionNotActive | NumberNotFound | NumberAlreadyExists

  datatype Request = Request(
    partyA: string, partyB: string, ttl: Option<int>, maxCalls: Option<int>, allowExtCode: bool)

  datatype Created = Created(session: nat, allocation: Allocated)

  // ---- Create ---------------------------------------------------------------------------

  function EffectiveTtl(s: Settings, ttl: Option<int>): int {
    if ttl.None? || ttl.value == 0 then s.defaultTtl else ttl.value
  }

  /** What `create_session` checks before it touches the pool: both numbers, or the error. */
  function CheckRequest(s: Settings, r: Request): Result<(string, string), DomainError> {
    var a, b := Phone.Normalize(r.partyA), Phone.Normalize(r.partyB);
    if a.Err? || b.Err? then Err(InvalidPhoneNumber)
    else if a.value == b.value then Err(ValidationFailed)
    else if EffectiveTtl(s, r.ttl) <= 0 || EffectiveTtl(s, r.ttl) > s.maxTtl then Err(ValidationFailed)
    else if r.maxCalls.Some? && r.maxCalls.value <= 0 then Err(ValidationFailed)
    else Ok((a.value, b.value))
  }

  function NewParty(number: string, n: nat, coded: bool): Party {
    Party(n, Sealed(number), PartyHash(number), true, coded, None)
  }

  function NewRow(now: int, n: nat, code: Option<string>, ttl: int, maxCalls: Option<int>): Session {
    Session(n, code, Active, maxCalls, now, now + ttl * SECOND, None)
  }

  function NewPair(a: string, b: string, n: nat, code: Option<string>): Parties {
    Parties(NewParty(a, n, code.Some?), NewParty(b, n, code.Some?))
  }

  function Insert(db: Db, row: Session, p: Parties): Db {
    db.(sessions := db.sessions[db.nextSession := row], parties := db.parties[db.nextSession := p],
        nextSession := db.nextSession + 1)
  }

  function PairHashes(a: string, b: string): set<PartyHash> {
    {PartyHash(a), PartyHash(b)}
  }

  /** `create_session`. A failure rolls back everything but the randomness consumed. */
  function CreateSession(c: Config, db: Db, r: Request, locked: set<nat>): (Db, Result<Created, DomainError>)
    requires ValidSettings(c.settings)
  {
    match CheckRequest(c.settings, r)
    case Err(e) => (db, Err(e))
    case Ok((a, b)) =>
      var (pool, choice) := Allocate(c, db, PairHashes(a, b), r.allowExtCode, locked);
      if choice.None? then (db.(drawn := pool.drawn), Err(NoNumberAvailable))
      else
        var n, code := choice.value.number, choice.value.extCode;
        var row := NewRow(db.now, n, code, EffectiveTtl(c.settings, r.ttl), r.maxCalls);
        var inserted := Insert(pool, row, NewPair(a, b, n, code));
        if !(ExtCodesUnique(inserted) && PartiesUnique(inserted)) then
          (db.(drawn := pool.drawn), Err(AllocationConflict))
        else
          (Invalidate(inserted, E164Of(inserted, n)), Ok(Created(db.nextSession, choice.value)))
  }

  // ---- Extend, close, expire ---------------------------------------------------------------

  function NewExpiry(s: Settings, now: int, ttl: Option<int>, expiresAt: Option<int>): Result<int, DomainError> {
    var proposed :=
      if expiresAt.Some? then Ok(expiresAt.value)
      else if ttl.None? then Err(ValidationFailed)
      else if ttl.value <= 0 || ttl.value > s.maxTtl then Err(ValidationFailed)
      else Ok(now + ttl.value * SECOND);
    if proposed.Ok? && proposed.value <= now then Err(ValidationFailed) else proposed
  }

  function ExtendSession(s: Settings, db: Db, sid: nat, ttl: Option<int>, expiresAt: Option<int>)
      : (Db, Result<int, DomainError>)
  {
    if sid !in db.sessions then (db, Err(SessionNotFound))
    else if db.sessions[sid].status != Active then (db, Err(SessionNotActive))
    else
      var expiry := NewExpiry(s, db.now, ttl, expiresAt);
      if expiry.Err? then (db, expiry)
      else
        var row := db.sessions[sid];
        (Invalidate(WriteSession(db, sid, row.(expiresAt := expiry.value)), E164Of(db, row.number)), expiry)
  }

  /** Ends one session row, at the present instant, and records the event. */
  function EndSession(db: Db, sid: nat, status: Status): Db
    requires sid in db.sessions
  {
    var row := db.sessions[sid];
    var ended := WriteSession(db, sid, row.(status := status, closedAt := Some(db.now)));
    if sid !in db.parties then ended
    else
      var p := db.parties[sid];
      ended.(closures := db.closures + {Closure(row.number, p.a.hash, db.now, db.nextSession),
                                        Closure(row.number, p.b.hash, db.now, db.nextSession)})
  }

  /** `_mark_number_released`. */
  function MarkReleased(db: Db, n: nat): Db {
    if ActiveOn(db.sessions, n) == {} && n in db.numbers then
      db.(numbers := db.numbers[n := db.numbers[n].(releasedAt := Some(db.now))])
    else db
  }

  /** `_mark_number_released` and the cache invalidation that follows it. */
  function Release(db: Db, n: nat): Db {
    Invalidate(MarkReleased(db, n), E164Of(db, n))
  }

  /** `close_session`; `status` is one of the two terminal ones. */
  function CloseSession(db: Db, sid: nat, status: Status): (Db, Result<Session, DomainError>)
    requires status != Active
  {
    if sid !in db.sessions then (db, Err(SessionNotFound))
    else if db.sessions[sid].status != Active then (db, Ok(db.sessions[sid]))
    else
      var ended := EndSession(db, sid, status);
      (Release(ended, db.sessions[sid].number), Ok(ended.sessions[sid]))
  }

  function DueKeys(db: Db): map<nat, SortKey> {
    map sid | sid in db.sessions && db.sessions[sid].status == Active && db.sessions[sid].expiresAt <= db.now
      :: SortKey(db.sessions[sid].expiresAt, 0, 0)
  }

  function DueRows(c: Config, db: Db, limit: nat): (rows: seq<nat>)
    ensures forall i :: 0 <= i < |rows| ==> rows[i] in DueKeys(db)
    ensures forall i, j :: 0 <= i < j < |rows| ==> rows[i] != rows[j]
  {
    var rows := c.plan(DueKeys(db));
    assert Answers(rows, DueKeys(db));
    assert forall i :: 0 <= i < |rows| ==> rows[i] in rows;
    rows[..Min(|rows|, limit)]
  }

  function EndAll(db: Db, rows: seq<nat>): Db
    requires forall i :: 0 <= i < |rows| ==> rows[i] in db.sessions
    decreases |rows|
  {
    if rows == [] then db else EndAll(EndSession(db, rows[0], Expired), rows[1..])
  }

  function ReleaseAll(db: Db, rows: seq<nat>): Db
    requires forall i :: 0 <= i < |rows| ==> rows[i] in db.sessions
    decreases |rows|
  {
    if rows == [] then db else ReleaseAll(Release(db, db.sessions[rows[0]].number), rows[1..])
  }

  lemma {:induction false} EndAllKeepsKeys(db: Db, rows: seq<nat>)
    requires forall i :: 0 <= i < |rows| ==> rows[i] in db.sessions
    ensures EndAll(db, rows).sessions.Keys == db.sessions.Keys
    ensures EndAll(db, rows).parties.Keys == db.parties.Keys
    decreases |rows|
  {
    if rows != [] { EndAllKeepsKeys(EndSession(db, rows[0], Expired), rows[1..]); }
  }

  /** `expire_due_sessions`: the swept rows, ended first and released after. */
  function Sweep(c: Config, db: Db, limit: nat): (Db, seq<nat>)
  {
    var rows := DueRows(c, db, limit);
    EndAllKeepsKeys(db, rows);
    (ReleaseAll(EndAll(db, rows), rows), rows)
  }

  // ---- Purge -----------------------------------------------------------------------------

  predicate Purgeable(row: Session, cutoff: int) {
    row.status != Active && row.closedAt.Some? && row.closedAt.value < cutoff
  }

  function Doomed(db: Db, cutoff: int): set<nat> {
    set sid | sid in db.sessions && Purgeable(db.sessions[sid], cutoff)
  }

  /** The proxies and parties of these sessions. */
  function KeysOf(db: Db, ids: set<nat>): set<CacheKey> {
    (set sid | sid in ids && sid in db.sessions && sid in db.parties
       :: CacheKey(E164Of(db, db.sessions[sid].number), db.parties[sid].a.hash))
    + (set sid | sid in ids && sid in db.sessions && sid in db.parties
         :: CacheKey(E164Of(db, db.sessions[sid].number), db.parties[sid].b.hash))
  }

  /** The session part of `purge_old_records`; party rows go with their session. */
  function Purge(s: Settings, db: Db): Db {
    var doomed := Doomed(db, db.now - s.sessionRetentionDays * DAY);
    db.(sessions := db.sessions - doomed, parties := db.parties - doomed,
        forgotten := db.forgotten + KeysOf(db, doomed))
  }

  // ---- Numbers ---------------------------------------------------------------------------

  function AddNumber(db: Db, e164: string, enabled: bool): (Db, Result<nat, DomainError>) {
    var number := Phone.Normalize(e164);
    if number.Err? then (db, Err(InvalidPhoneNumber))
    else if exists n :: n in db.numbers && db.numbers[n].e164 == number.value then (db, Err(NumberAlreadyExists))
    else
      (db.(numbers := db.numbers[db.nextNumber := Number(number.value, enabled, None)],
          nextNumber := db.nextNumber + 1),
       Ok(db.nextNumber))
  }

  function SetStatusOf(db: Db, n: nat, enabled: bool): Db
    requires n in db.numbers
  {
    Invalidate(db.(numbers := db.numbers[n := db.numbers[n].(enabled := enabled)]), db.numbers[n].e164)
  }

  /** `set_number_status`; the number is looked up by its canonical form. */
  function SetNumberStatus(db: Db, e164: string, enabled: bool): (Db, Result<nat, DomainError>) {
    var number := Phone.Normalize(e164);
    if number.Err? then (db, Err(InvalidPhoneNumber))
    else
      var found := set n | n in db.numbers && db.numbers[n].e164 == number.value;
      if found == {} then (db, Err(NumberNotFound)) else
      var n := Least(found);
      (SetStatusOf(db, n, enabled), Ok(n))
  }

  /** The first of a set of row identifiers; a canonical form names one row only. */
  function Least(ids: set<nat>): (n: nat)
    requires ids != {}
    ensures n in ids && forall m :: m in ids ==> n <= m
  {
    LeastExists(ids);
    var n :| n in ids && forall m :: m in ids ==> n <= m;
    n
  }

  lemma LeastExists(ids: set<nat>)
    requires ids != {}
    ensures exists n :: n in ids && forall m :: m in ids ==> n <= m
  {
    var n := LeastOf(ids);
  }

  lemma {:induction false} LeastOf(ids: set<nat>) returns (n: nat)
    requires ids != {}
    ensures n in ids && forall m :: m in ids ==> n <= m
    decreases ids
  {
    n :| n in ids;
    var rest := ids - {n};
    if rest == {} {
      assert ids == {n};
    } else {
      var least := LeastOf(rest);
      assert forall m :: m in ids ==> m == n || m in rest;
      n := if n < least then n else least;
    }
  }

  /** `pool_stats`: may an idle number serve a new pair? */
  predicate CountedFree(db: Db, s: Settings, n: nat)
    requires n in db.numbers
  {
    && db.numbers[n].enabled
    && ActiveOn(db.sessions, n) == {}
    && (db.numbers[n].releasedAt.Some? ==> db.numbers[n].releasedAt.value <= CooldownEdge(db, s))
  }

  /** `pool_stats`: is an idle number still in quarantine? */
  predicate CountedCooling(db: Db, s: Settings, n: nat)
    requires n in db.numbers
  {
    && db.numbers[n].enabled
    && ActiveOn(db.sessions, n) == {}
    && db.numbers[n].releasedAt.Some? && db.numbers[n].releasedAt.value > CooldownEdge(db, s)
  }
}
