/**
 The stored state: pool, sessions, parties and the lookup cache (app/db/models.py,
 app/db/triggers.py, app/db/cache.py), with the environment the services run in.

 One transaction is one step at one instant `now`. Two fields are history, read by no operation:
 `closures` remembers every session end, `forgotten` every party row a purge deleted.
 */
module Schema {
  import opened Basics
  import opened Crypto

  // ---- Rows ----------------------------------------------------------------------

  datatype Number = Number(e164: string, enabled: bool, releasedAt: Option<int>)

  datatype Status = Active | Expired | Closed

  datatype Session = Session(
    number: nat, extCode: Option<string>, status: Status, maxCalls: Option<int>,
    createdAt: int, expiresAt: int, closedAt: Option<int>)

  datatype Party = Party(
    number: nat, sealed: Cipher, hash: PartyHash, isActive: bool, hasExtCode: bool, releasedAt: Option<int>)

  /** The two party rows of one session, roles `a` and `b`. */
  datatype Parties = Parties(a: Party, b: Party)

  datatype Direction = A2B | B2A

  datatype CacheKey = CacheKey(proxy: string, caller: PartyHash)

  datatype Payload =
    | Miss(expired: bool)
    | Route(session: nat, direction: Direction, callee: Cipher, extCode: Option<string>, expiresAt: int)

  datatype CacheEntry = CacheEntry(payload: Payload, deadline: int)

  /** A party's session on a number ended at `at`, when sessions below `before` had been created. */
  datatype Closure = Closure(number: nat, party: PartyHash, at: int, before: nat)

  datatype Db = Db(
    now: int,
    numbers: map<nat, Number>,
    sessions: map<nat, Session>,
    parties: map<nat, Parties>,
    cache: map<CacheKey, CacheEntry>,
    nextNumber: nat,
    nextSession: nat,
    drawn: nat,
    closures: set<Closure>,
    forgotten: set<CacheKey>)

  function EmptyDb(now: int): Db {
    Db(now, map[], map[], map[], map[], 0, 0, 0, {}, {})
  }

  // ---- Environment -----------------------------------------------------------------

  /** The sort key of a row: the columns of its ORDER BY, first to last. */
  datatype SortKey = SortKey(first: int, second: int, third: int)

  predicate Before(x: SortKey, y: SortKey) {
    x.first < y.first || (x.first == y.first && (x.second < y.second || (x.second == y.second && x.third < y.third)))
  }

  /** `rows` lists exactly the rows of `keys`, once each, in an order their ORDER BY allows. */
  ghost predicate Answers(rows: seq<nat>, keys: map<nat, SortKey>) {
    && (forall i, j :: 0 <= i < j < |rows| ==> rows[i] != rows[j])
    && (forall r :: r in rows <==> r in keys)
    && (forall i, j :: 0 <= i < j < |rows| ==> !Before(keys[rows[j]], keys[rows[i]]))
  }

  lemma {:induction false} FirstIn(ids: set<nat>, keys: map<nat, SortKey>) returns (m: nat)
    requires ids != {} && ids <= keys.Keys
    ensures m in ids && forall k :: k in ids ==> !Before(keys[k], keys[m])
    decreases ids
  {
    m :| m in ids;
    var rest := ids - {m};
    if rest != {} {
      var least := FirstIn(rest, keys);
      assert forall k :: k in ids ==> k == m || k in rest;
      m := if Before(keys[m], keys[least]) then m else least;
    } else {
      assert ids == {m};
    }
  }

  lemma {:induction false} SomeAnswer(ids: set<nat>, keys: map<nat, SortKey>) returns (rows: seq<nat>)
    requires ids <= keys.Keys
    ensures forall i, j :: 0 <= i < j < |rows| ==> rows[i] != rows[j]
    ensures forall r :: r in rows <==> r in ids
    ensures forall i, j :: 0 <= i < j < |rows| ==> !Before(keys[rows[j]], keys[rows[i]])
    decreases ids
  {
    rows := [];
    if ids != {} {
      var m := FirstIn(ids, keys);
      var rest := SomeAnswer(ids - {m}, keys);
      rows := [m] + rest;
      assert forall i :: 0 <= i < |rest| ==> rest[i] in rest;
    }
  }

  lemma AnswerExists(keys: map<nat, SortKey>)
    ensures exists rows :: Answers(rows, keys)
  {
    var rows := SomeAnswer(keys.Keys, keys);
    assert Answers(rows, keys);
  }

  ghost function AnyOrder(keys: map<nat, SortKey>): (rows: seq<nat>)
    ensures Answers(rows, keys)
  {
    AnswerExists(keys);
    var rows :| Answers(rows, keys);
    rows
  }

  /** A query answer is no longer than the set its rows come from. */
  lemma {:induction false} DistinctLength(rows: seq<nat>, ids: set<nat>)
    requires forall i, j :: 0 <= i < j < |rows| ==> rows[i] != rows[j]
    requires forall i :: 0 <= i < |rows| ==> rows[i] in ids
    ensures |rows| <= |ids|
    decreases |rows|
  {
    if rows != [] {
      var rest := rows[1..];
      assert forall i :: 0 <= i < |rest| ==> rest[i] == rows[i + 1] != rows[0];
      DistinctLength(rest, ids - {rows[0]});
    }
  }

  /** How the database orders the rows of a query: any order the ORDER BY admits. */
  type Plan = f: map<nat, SortKey> -> seq<nat> | forall keys :: Answers(f(keys), keys)
    ghost witness keys => AnyOrder(keys)

  datatype ExtCodeMode = Auto | Always | Never

  datatype Settings = Settings(
    cooldownHours: int, numberScope: bool, mode: ExtCodeMode, pinLength: nat, maxPerNumber: int,
    defaultTtl: int, maxTtl: int, sessionRetentionDays: int)

  /** The settings, the random tape PINs are drawn from, and the database's row orders. */
  datatype Config = Config(settings: Settings, draws: nat -> nat, plan: Plan)

  predicate ValidSettings(s: Settings) {
    s.pinLength >= 1
  }

  // ---- Queries -----------------------------------------------------------------------

  predicate HasParty(p: Parties, hash: PartyHash) {
    p.a.hash == hash || p.b.hash == hash
  }

  predicate Involves(p: Parties, hashes: set<PartyHash>) {
    p.a.hash in hashes || p.b.hash in hashes
  }

  predicate IsActiveOn(ss: map<nat, Session>, sid: nat, n: nat) {
    sid in ss && ss[sid].number == n && ss[sid].status == Active
  }

  function ActiveOn(ss: map<nat, Session>, n: nat): set<nat> {
    set sid | sid in ss && IsActiveOn(ss, sid, n)
  }

  function E164Of(db: Db, n: nat): string {
    if n in db.numbers then db.numbers[n].e164 else ""
  }

  /** Time passes. */
  function Tick(db: Db, elapsed: nat): Db {
    db.(now := db.now + elapsed)
  }

  // ---- Writes ------------------------------------------------------------------------

  /** Function `sync_session_parties`. */
  function SyncParties(p: Parties, row: Session): Parties {
    var active, coded := row.status == Active, row.extCode.Some?;
    Parties(
      p.a.(isActive := active, hasExtCode := coded, releasedAt := row.closedAt),
      p.b.(isActive := active, hasExtCode := coded, releasedAt := row.closedAt))
  }

  /** An UPDATE of one session row; the trigger fires on a change of status, PIN or closing time. */
  function WriteSession(db: Db, sid: nat, row: Session): Db
    requires sid in db.sessions
  {
    var was := db.sessions[sid];
    var fires := was.status != row.status || was.extCode != row.extCode || was.closedAt != row.closedAt;
    db.(sessions := db.sessions[sid := row],
        parties := if fires && sid in db.parties
                   then db.parties[sid := SyncParties(db.parties[sid], row)] else db.parties)
  }

  /** Drops every cached decision of one proxy number. */
  function Invalidate(db: Db, proxy: string): Db {
    db.(cache := map k | k in db.cache && k.proxy != proxy :: db.cache[k])
  }

  /** An entry is visible until its deadline. */
  function CacheGet(db: Db, key: CacheKey): Option<Payload> {
    if key in db.cache && db.now < db.cache[key].deadline then Some(db.cache[key].payload) else None
  }

  function CacheSet(db: Db, key: CacheKey, payload: Payload, ttlSeconds: int): Db {
    db.(cache := db.cache[key := CacheEntry(payload, db.now + ttlSeconds * SECOND)])
  }

  // ---- The partial unique indexes -------------------------------------------------------

  /** `uniq_active_ext_code_per_number`. */
  predicate ExtCodesUnique(db: Db) {
    forall i, j :: i in db.sessions && j in db.sessions && i != j ==>
      !(&& db.sessions[i].number == db.sessions[j].number
        && db.sessions[i].status == Active && db.sessions[j].status == Active
        && db.sessions[i].extCode.Some? && db.sessions[i].extCode == db.sessions[j].extCode)
  }

  predicate Indexed(p: Party) {
    p.isActive && !p.hasExtCode
  }

  predicate Clash(p: Party, q: Party) {
    Indexed(p) && Indexed(q) && p.number == q.number && p.hash == q.hash
  }

  predicate PairsClash(p: Parties, q: Parties) {
    Clash(p.a, q.a) || Clash(p.a, q.b) || Clash(p.b, q.a) || Clash(p.b, q.b)
  }

  /** `uniq_active_party_per_number`. */
  predicate PartiesUnique(db: Db) {
    && (forall i :: i in db.parties ==> !Clash(db.parties[i].a, db.parties[i].b))
    && (forall i, j :: i in db.parties && j in db.parties && i != j ==> !PairsClash(db.parties[i], db.parties[j]))
  }
}
