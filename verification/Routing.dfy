/** Routing decisions and their cache (app/services/routing.py), as functions of the stored state. */
module Routing {
  import opened Basics
  import opened Crypto
  import opened Schema
  import Phone

  const LOOKUP_TTL_SECONDS: int := 300
  const NEGATIVE_TTL_SECONDS: int := 15

  datatype Candidate = Candidate(
    session: nat, extCode: Option<string>, callee: string, direction: Direction, maxCalls: Option<int>, expiresAt: int)

  datatype RejectStatus = UnknownCaller | SessionExpired | RoutingFailed

  datatype Decision =
    | Connect(candidate: Candidate)
    | AskCode(candidates: seq<Candidate>)
    | Reject(status: RejectStatus)

  /** A decision with what the journal records; `caller` is absent when the number is not E.164. */
  datatype Routed = Routed(proxy: string, caller: Option<PartyHash>, decision: Decision)

  // ---- The query ----------------------------------------------------------------------------

  /** The row the caller matched; its session's parties are distinct, so the first match is the only one. */
  function DirectionOf(p: Parties, caller: PartyHash): Direction {
    if p.a.hash == caller then A2B else B2A
  }

  function CallerRow(p: Parties, caller: PartyHash): Party {
    if p.a.hash == caller then p.a else p.b
  }

  function OtherRow(p: Parties, caller: PartyHash): Party {
    if p.a.hash == caller then p.b else p.a
  }

  predicate OnProxy(db: Db, sid: nat, proxy: string, caller: PartyHash) {
    && sid in db.sessions && sid in db.parties
    && db.sessions[sid].number in db.numbers
    && db.numbers[db.sessions[sid].number].e164 == proxy
    && HasParty(db.parties[sid], caller)
  }

  predicate IsLive(db: Db, sid: nat, proxy: string, caller: PartyHash) {
    && OnProxy(db, sid, proxy, caller)
    && CallerRow(db.parties[sid], caller).isActive
    && db.sessions[sid].status == Active
    && db.sessions[sid].expiresAt > db.now
  }

  /** Every live session of this caller on this proxy number. */
  function Live(db: Db, proxy: string, caller: PartyHash): set<nat> {
    set sid | sid in db.sessions && IsLive(db, sid, proxy, caller)
  }

  /** `_had_session`. */
  predicate HadSession(db: Db, proxy: string, caller: PartyHash) {
    exists sid :: sid in db.sessions && OnProxy(db, sid, proxy, caller)
  }

  function CandidateOf(db: Db, sid: nat, caller: PartyHash): Candidate
    requires sid in db.sessions && sid in db.parties
  {
    var row, p := db.sessions[sid], db.parties[sid];
    Candidate(sid, row.extCode, OtherRow(p, caller).sealed.plain, DirectionOf(p, caller), row.maxCalls, row.expiresAt)
  }

  function LiveKeys(db: Db, proxy: string, caller: PartyHash): map<nat, SortKey> {
    map sid | sid in Live(db, proxy, caller) :: SortKey(-db.sessions[sid].createdAt, 0, 0)
  }

  function LiveRows(c: Config, db: Db, proxy: string, caller: PartyHash): (rows: seq<nat>)
    ensures forall i :: 0 <= i < |rows| ==> rows[i] in Live(db, proxy, caller)
    ensures forall sid :: sid in Live(db, proxy, caller) ==> sid in rows
    ensures forall i, j :: 0 <= i < j < |rows| ==> rows[i] != rows[j]
  {
    var keys := LiveKeys(db, proxy, caller);
    var rows := c.plan(keys);
    assert Answers(rows, keys);
    assert forall i :: 0 <= i < |rows| ==> rows[i] in rows;
    rows
  }

  /** `_load_candidates`. */
  function LoadCandidates(c: Config, db: Db, proxy: string, caller: PartyHash): (r: seq<Candidate>)
    ensures |r| == |LiveRows(c, db, proxy, caller)|
    ensures forall i :: 0 <= i < |r| ==>
              r[i].session in Live(db, proxy, caller) && r[i] == CandidateOf(db, r[i].session, caller)
              && r[i].session == LiveRows(c, db, proxy, caller)[i]
  {
    var rows := LiveRows(c, db, proxy, caller);
    seq(|rows|, i requires 0 <= i < |rows| => CandidateOf(db, rows[i], caller))
  }

  // ---- The decision --------------------------------------------------------------------------

  predicate Coded(candidate: Candidate) {
    candidate.extCode.Some? && candidate.extCode.value != ""
  }

  function WithCode(candidates: seq<Candidate>): (r: seq<Candidate>)
    ensures forall i :: 0 <= i < |r| ==> r[i] in candidates && Coded(r[i])
  {
    if candidates == [] then []
    else (if Coded(candidates[0]) then [candidates[0]] else []) + WithCode(candidates[1..])
  }

  /** `resolve_call` when the cache holds nothing. */
  function Verdict(c: Config, db: Db, proxy: string, caller: PartyHash): Decision {
    var candidates := LoadCandidates(c, db, proxy, caller);
    if candidates == [] then Reject(if HadSession(db, proxy, caller) then SessionExpired else UnknownCaller)
    else if |candidates| == 1 then Connect(candidates[0])
    else if WithCode(candidates) == [] then Reject(RoutingFailed)
    else AskCode(WithCode(candidates))
  }

  function SelectByCode(candidates: seq<Candidate>, code: string): Option<Candidate> {
    if candidates == [] then None
    else if Coded(candidates[0]) && candidates[0].extCode.value == code then Some(candidates[0])
    else SelectByCode(candidates[1..], code)
  }

  /** What a cache entry decides, or None to fall back to the query. */
  function FromCache(db: Db, payload: Payload): Option<Decision> {
    match payload
    case Miss(expired) => Some(Reject(if expired then SessionExpired else UnknownCaller))
    case Route(sid, direction, callee, extCode, expiresAt) =>
      if expiresAt <= db.now then None
      else
        var code := if extCode.Some? && extCode.value == "" then None else extCode;
        Some(Connect(Candidate(sid, code, callee.plain, direction, None, expiresAt)))
  }

  /** `_cache_single`. */
  function CacheSingle(db: Db, key: CacheKey, candidate: Candidate): Db {
    var remaining := Min((candidate.expiresAt - db.now) / SECOND, LOOKUP_TTL_SECONDS);
    if candidate.maxCalls.Some? || remaining <= 0 then db
    else
      CacheSet(db, key, Route(candidate.session, candidate.direction, Sealed(candidate.callee), candidate.extCode,
                              candidate.expiresAt), remaining)
  }

  /** What an uncached decision leaves in the cache. */
  function Remember(db: Db, key: CacheKey, decision: Decision): Db {
    match decision
    case Connect(candidate) => CacheSingle(db, key, candidate)
    case AskCode(_) => db
    case Reject(RoutingFailed) => db
    case Reject(status) => CacheSet(db, key, Miss(status == SessionExpired), NEGATIVE_TTL_SECONDS)
  }

  /** A canonical number, or the text as it was dialled. */
  function ProxyOf(dialled: string): string {
    var number := Phone.Normalize(dialled);
    if number.Ok? then number.value else dialled
  }

  /** `resolve_call` from the cache when possible. */
  function ResolveKey(c: Config, db: Db, key: CacheKey): (Db, Decision) {
    var cached := CacheGet(db, key);
    var quick := if cached.Some? then FromCache(db, cached.value) else None;
    if quick.Some? then (db, quick.value)
    else
      var verdict := Verdict(c, db, key.proxy, key.caller);
      (Remember(db, key, verdict), verdict)
  }

  function Resolve(c: Config, db: Db, dialled: string, caller: string): (Db, Routed) {
    var proxy, number := ProxyOf(dialled), Phone.Normalize(caller);
    if number.Err? then (db, Routed(proxy, None, Reject(UnknownCaller)))
    else
      var hash := PartyHash(number.value);
      var (next, decision) := ResolveKey(c, db, CacheKey(proxy, hash));
      (next, Routed(proxy, Some(hash), decision))
  }
}
