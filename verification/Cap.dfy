/** The call cap: how many calls of a session can be answered when several pass the limit check together. */
module Cap {
  import opened Basics
  import opened Crypto
  import opened Schema
  import opened Allocation
  import opened Sessions
  import opened Routing
  import opened Invariant
  import opened Lifecycle
  import opened Pool
  import opened Journal
  import opened Causes
  import opened Stasis
  import opened Calls
  import opened CallSteps
  import opened Late
  import opened Evolution
  import opened Links
  import opened Precedence
  import opened Machine
  import opened Effects
  import opened Safety

  // ---- Caps never change -------------------------------------------------------------------

  ghost predicate Agree(x: Db, y: Db) {
    forall sid :: sid in x.sessions && sid in y.sessions ==> x.sessions[sid].maxCalls == y.sessions[sid].maxCalls
  }

  /** The pools calls were resolved in are past states of one pool, so they agree on every session's cap. */
  ghost predicate CapsInv(s: System) {
    && (forall n {:trigger s.states[n].resolvedAt} :: n in s.states ==>
          Inv(s.states[n].resolvedAt) && Precedes(s.states[n].resolvedAt, s.pool))
    && (forall n, m {:trigger Agree(s.states[n].resolvedAt, s.states[m].resolvedAt)} ::
          n in s.states && m in s.states ==> Agree(s.states[n].resolvedAt, s.states[m].resolvedAt))
  }

  lemma EarlierAgrees(x: Db, y: Db)
    requires Inv(x) && Precedes(x, y)
    ensures Agree(x, y) && Agree(y, x)
  {
  }

  /** The states of known calls keep the pool they were resolved in. */
  ghost predicate KeepsPools(s: System, t: System) {
    forall n :: n in s.states ==> n in t.states && t.states[n].resolvedAt == s.states[n].resolvedAt
  }

  lemma AffectsCaps(s: System, t: System, n: nat)
    requires Affects(s, t, n)
    ensures KeepsPools(s, t) && t.states.Keys == s.states.Keys && t.pool == s.pool
    ensures CapsInv(s) ==> CapsInv(t)
  {
    hide Inv, Precedes, Agree, ClosingKept;
    if CapsInv(s) {
      forall m, k | m in t.states && k in t.states ensures Agree(t.states[m].resolvedAt, t.states[k].resolvedAt) {
        assert Agree(s.states[m].resolvedAt, s.states[k].resolvedAt);
      }
    }
  }

  lemma PoolMoves(s: System, t: System)
    requires CapsInv(s) && Precedes(s.pool, t.pool) && t.states == s.states
    ensures CapsInv(t)
  {
    var pool := t.pool;
    forall n | n in t.states ensures Inv(t.states[n].resolvedAt) && Precedes(t.states[n].resolvedAt, pool) {
      assert Precedes(s.states[n].resolvedAt, s.pool);
      PrecedesTransitive(s.states[n].resolvedAt, s.pool, pool);
    }
    hide Inv, Precedes, Agree;
    forall n, m | n in t.states && m in t.states ensures Agree(t.states[n].resolvedAt, t.states[m].resolvedAt) {
      assert Agree(s.states[n].resolvedAt, s.states[m].resolvedAt);
    }
  }

  lemma CallAdded(s: System, t: System, n: nat)
    requires CapsInv(s) && Inv(s.pool) && n !in s.states
    requires n in t.states && t.states == s.states[n := t.states[n]] && t.states[n].resolvedAt == s.pool
    requires Precedes(s.pool, t.pool)
    ensures CapsInv(t)
  {
    hide Inv, Precedes, Agree;
    forall m | m in t.states ensures Inv(t.states[m].resolvedAt) && Precedes(t.states[m].resolvedAt, t.pool) {
      if m != n {
        assert Precedes(s.states[m].resolvedAt, s.pool);
        PrecedesTransitive(s.states[m].resolvedAt, s.pool, t.pool);
      }
    }
    forall m, k | m in t.states && k in t.states ensures Agree(t.states[m].resolvedAt, t.states[k].resolvedAt) {
      if m != n && k != n {
        assert Agree(s.states[m].resolvedAt, s.states[k].resolvedAt);
      } else {
        if m != n { EarlierAgrees(s.states[m].resolvedAt, s.pool); }
        if k != n { EarlierAgrees(s.states[k].resolvedAt, s.pool); }
        SelfAgrees(s.pool);
      }
    }
  }

  lemma SelfAgrees(x: Db)
    ensures Agree(x, x)
  {
  }

  lemma DoCaps(c: Setup, s: System, e: Event)
    requires ValidSettings(c.pool.settings) && SysInv(c, s)
    ensures KeepsPools(s, Do(c, s, e))
    ensures CapsInv(s) ==> CapsInv(Do(c, s, e))
  {
    hide SysInv, Inv, CapsInv, Affects, NoBusier, KeepsPools;
    SysPool(c, s);
    if e.PoolOp? {
      ApplyPrecedes(c.pool, s.pool, e.op);
      if CapsInv(s) { PoolMoves(s, Do(c, s, e)); }
      SamePools(s, Do(c, s, e));
    } else if e.Arrive? {
      ArriveCaps(c, s, e.n, e.dialled, e.caller);
      hide StepArrive;
    } else {
      var n := StepAffects(c, s, e);
      hide Do;
      AffectsCaps(s, Do(c, s, e), n);
    }
  }

  lemma SamePools(s: System, t: System)
    requires t.states == s.states
    ensures KeepsPools(s, t)
  {
  }

  lemma ArriveCaps(c: Setup, s: System, n: nat, dialled: string, caller: string)
    requires ValidSettings(c.pool.settings) && Inv(s.pool)
    ensures KeepsPools(s, StepArrive(c, s, n, dialled, caller))
    ensures CapsInv(s) ==> CapsInv(StepArrive(c, s, n, dialled, caller))
  {
    hide Inv, CapsInv, Precedes;
    var t := StepArrive(c, s, n, dialled, caller);
    if s.pump == Free && n !in s.states {
      ArriveAdds(c, s, n, dialled, caller);
      hide StepArrive;
      assert Precedes(s.pool, t.pool) by { ResolvePrecedes(c, s.pool, dialled, caller); }
      if CapsInv(s) { CallAdded(s, t, n); }
    }
  }

  lemma ResolvePrecedes(c: Setup, db: Db, dialled: string, caller: string)
    requires ValidSettings(c.pool.settings) && Inv(db)
    ensures Precedes(db, Resolve(c.pool, db, dialled, caller).0)
  {
    hide Inv, Resolve;
    ResolveWrites(c.pool, db, dialled, caller);
  }

  lemma {:induction false} RunCaps(c: Setup, start: int, events: seq<Event>)
    requires ValidSettings(c.pool.settings)
    ensures CapsInv(After(c, start, events))
    decreases |events|
  {
    hide SysInv, Do;
    if events != [] {
      var k := |events| - 1;
      RunCaps(c, start, events[..k]);
      AfterInv(c, start, events[..k]);
      hide CapsInv;
      DoCaps(c, After(c, start, events[..k]), events[k]);
    }
  }

  // ---- Busy calls ------------------------------------------------------------------------------

  /** The call of a journal row is answered in this session, or on its way to be. */
  predicate BusyRow(s: System, id: nat, sid: nat) {
    && id in s.journal && s.journal[id].channel in s.states && s.states[s.journal[id].channel].call == id
    && BusyWith(s.states[s.journal[id].channel], s.journal[id]) == Some(sid)
  }

  predicate FlyingRow(s: System, id: nat, sid: nat) {
    && id in s.journal && s.journal[id].channel in s.states && s.states[s.journal[id].channel].call == id
    && Flying(s.states[s.journal[id].channel], s.journal[id])
          && s.states[s.journal[id].channel].chosen.value.session == sid
  }

  /** Calls of the session past its limit check that are not yet answered in the journal but may be. */
  function InFlight(s: System, sid: nat): set<nat> {
    set id | id in s.journal && FlyingRow(s, id, sid)
  }

  function Busy(s: System, sid: nat): set<nat> {
    set id | id in s.journal && BusyRow(s, id, sid)
  }

  lemma BusyIsBoth(s: System, sid: nat)
    requires AllOk(s)
    ensures Busy(s, sid) == AnsweredOf(s.journal, sid) + InFlight(s, sid)
  {
    forall id | id in s.journal
      ensures BusyRow(s, id, sid) <==> id in AnsweredOf(s.journal, sid) || FlyingRow(s, id, sid)
    {
      assert RowTracked(s, id);
    }
  }

  lemma UnionBound(a: set<nat>, b: set<nat>)
    ensures |a| <= |a + b| <= |a| + |b|
  {
    assert a + b == a + (b - a);
    assert b == (b * a) + (b - a);
  }

  /** A step after which the concerned call is no busier adds nobody. */
  lemma NobodyJoins(s: System, t: System, n: nat, sid: nat)
    requires AllOk(s) && Affects(s, t, n)
    requires OneCall(s, t, n) ==>
               var after := BusyWith(t.states[n], t.journal[s.states[n].call]);
               after != Some(sid) || after == BusyWith(s.states[n], s.journal[s.states[n].call])
    ensures Busy(t, sid) <= Busy(s, sid)
  {
    if n in s.states { CallFacts(s, n); }
    hide AllOk;
    forall id | id in Busy(t, sid) ensures id in Busy(s, sid) {
      assert BusyRow(t, id, sid);
      assert BusyRow(s, id, sid) by { RowBefore(s, t, n, id, sid); }
    }
  }

  lemma RowBefore(s: System, t: System, n: nat, id: nat, sid: nat)
    requires Affects(s, t, n) && BusyRow(t, id, sid)
    requires n in s.states && s.states[n].call in s.journal ==> s.journal[s.states[n].call].channel == n
    requires OneCall(s, t, n) ==>
               var after := BusyWith(t.states[n], t.journal[s.states[n].call]);
               after != Some(sid) || after == BusyWith(s.states[n], s.journal[s.states[n].call])
    ensures BusyRow(s, id, sid)
  {
    hide ClosingKept, BusyWith;
    if !SameCalls(s, t) {
      assert OneCall(s, t, n);
      if id == s.states[n].call {
        assert t.journal[id].channel == n;
        assert s.states[n].call == id;
      }
    }
  }

  /** A purge takes answered calls off their sessions, and adds none to any. */
  lemma PoolOpBusy(c: Setup, s: System, op: Op, sid: nat)
    requires ValidSettings(c.pool.settings)
    ensures Busy(StepPool(c, s, op), sid) <= Busy(s, sid)
  {
    var t := StepPool(c, s, op);
    hide Apply, Purged, Overdue;
    forall id | id in Busy(t, sid) ensures id in Busy(s, sid) { assert BusyRow(t, id, sid) && BusyRow(s, id, sid); }
  }

  lemma ArriveBusy(c: Setup, s: System, n: nat, dialled: string, caller: string, sid: nat)
    requires ValidSettings(c.pool.settings) && AllOk(s)
    ensures Busy(StepArrive(c, s, n, dialled, caller), sid) <= Busy(s, sid)
  {
    var t := StepArrive(c, s, n, dialled, caller);
    if s.pump == Free && n !in s.states {
      ArrivalIsIdle(c, s, n, dialled, caller);
      hide StepArrive;
      forall id | id in Busy(t, sid) ensures id in Busy(s, sid) {
        assert BusyRow(t, id, sid);
        if id != s.nextCall { assert RowTracked(s, id); }
        assert BusyRow(s, id, sid);
      }
    }
  }

  lemma ArrivalIsIdle(c: Setup, s: System, n: nat, dialled: string, caller: string)
    requires ValidSettings(c.pool.settings) && s.pump == Free && n !in s.states
    ensures var t := StepArrive(c, s, n, dialled, caller);
            && n in t.states && t.states == s.states[n := t.states[n]] && s.nextCall in t.journal
            && t.journal == s.journal[s.nextCall := t.journal[s.nextCall]] && t.journal[s.nextCall].channel == n
            && BusyWith(t.states[n], t.journal[s.nextCall]).None?
  {
    hide Resolve;
  }

  // ---- The bound -------------------------------------------------------------------------------

  /** Every call resolved while the session existed found it capped at `cap`. */
  ghost predicate Capped(s: System, sid: nat, cap: int) {
    forall n {:trigger s.states[n].resolvedAt} :: n in s.states && sid in s.states[n].resolvedAt.sessions ==>
      s.states[n].resolvedAt.sessions[sid].maxCalls == Some(cap)
  }

  lemma CappedBefore(s: System, t: System, sid: nat, cap: int)
    requires KeepsPools(s, t) && Capped(t, sid, cap)
    ensures Capped(s, sid, cap)
  {
    forall n | n in s.states && sid in s.states[n].resolvedAt.sessions
      ensures s.states[n].resolvedAt.sessions[sid].maxCalls == Some(cap)
    {
      assert t.states[n].resolvedAt == s.states[n].resolvedAt;
    }
  }

  lemma CappedByOne(s: System, sid: nat, cap: int, n: nat)
    requires CapsInv(s) && n in s.states
    requires sid in s.states[n].resolvedAt.sessions && s.states[n].resolvedAt.sessions[sid].maxCalls == Some(cap)
    ensures Capped(s, sid, cap)
  {
    hide Inv, Precedes;
    forall m | m in s.states && sid in s.states[m].resolvedAt.sessions
      ensures s.states[m].resolvedAt.sessions[sid].maxCalls == Some(cap)
    {
      assert Agree(s.states[n].resolvedAt, s.states[m].resolvedAt);
    }
  }

  /** A candidate for a capped session carries the cap. */
  lemma CandidateIsCapped(c: Setup, s: System, n: nat, candidate: Candidate, cap: int)
    requires ValidSettings(c.pool.settings) && SysInv(c, s) && n in s.states
    requires Chosen(s.states[n].decision, candidate, s.states[n].pin)
    requires Capped(s, candidate.session, cap)
    ensures candidate.maxCalls == Some(cap)
  {
    SysParts(c, s);
    var st := s.states[n];
    assert RouteOk(c, st);
    hide SysInv, AllOk, QueueInv, BridgesOk, DialsOk, Inv, MayReach;
    ChoiceIsSafe(c.pool, st.resolvedAt, st.key, candidate, st.pin);
    assert candidate.session in st.resolvedAt.sessions by {
      ReachIsSession(st.resolvedAt, st.key, candidate.session, st.pin);
    }
  }

  lemma ReachIsSession(db: Db, key: CacheKey, sid: nat, pin: Option<string>)
    requires MayReach(db, key, sid, pin)
    ensures sid in db.sessions
  {
  }

  /** Beginning to connect: a capped session is counted first. */
  lemma BeginBusy(c: Setup, s: System, n: nat, sid: nat, cap: int)
    requires ValidSettings(c.pool.settings) && SysInv(c, s) && Capped(s, sid, cap)
    ensures Busy(StepBegin(s, n), sid) <= Busy(s, sid)
  {
    hide SysInv, AllOk, Capped, Affects, Tracked, BusyWith, Busy;
    SysCalls(c, s);
    var t := BeginEvolves(s, n);
    if Runs(s, n) && s.states[n].task.Connecting? {
      var candidate := s.states[n].task.candidate;
      ConnectingIsChosen(s, n);
      if candidate.session == sid { CandidateIsCapped(c, s, n, candidate, cap); }
      BeginIsIdle(s, n, sid);
      hide StepBegin;
      NobodyJoins(s, t, n, sid);
    }
  }

  lemma ConnectingIsChosen(s: System, n: nat)
    requires AllOk(s) && n in s.states && s.states[n].task.Connecting?
    ensures Chosen(s.states[n].decision, s.states[n].task.candidate, s.states[n].pin)
  {
    CallFacts(s, n);
  }

  lemma BeginIsIdle(s: System, n: nat, sid: nat)
    requires AllOk(s) && Runs(s, n) && s.states[n].task.Connecting?
    requires s.states[n].task.candidate.session == sid ==> s.states[n].task.candidate.maxCalls.Some?
    ensures var t := StepBegin(s, n);
            OneCall(s, t, n) ==>
              var after := BusyWith(t.states[n], t.journal[s.states[n].call]);
              after != Some(sid) || after == BusyWith(s.states[n], s.journal[s.states[n].call])
  {
    CallFacts(s, n);
    hide AllOk;
  }

  /** A deleted row refers to no session, so the count of answered calls is that of all rows written. */
  lemma TableCounts(s: System, sid: nat)
    requires AllOk(s) && LinksOk(s)
    ensures AnsweredOf(Table(s), sid) == AnsweredOf(s.journal, sid)
  {
    forall id | id in s.journal && id in s.dropped ensures s.journal[id].session.None? {
      assert RowTracked(s, id) && Linked(s, s.journal[id].channel);
    }
  }

  /** Passing the limit check: fewer than the cap were answered then. */
  lemma CheckBusy(c: Setup, s: System, n: nat, sid: nat, cap: int)
    requires ValidSettings(c.pool.settings) && SysInv(c, s) && Capped(s, sid, cap)
    ensures var t := StepCheckLimit(s, n);
            Busy(t, sid) <= Busy(s, sid) || |AnsweredOf(Table(t), sid)| < cap
  {
    hide AllOk, LinksOk, Capped, Affects, Tracked, BusyWith, Busy, AnsweredOf, Table;
    SysCalls(c, s);
    SysLinks(c, s);
    hide SysInv;
    TableCounts(s, sid);
    var t := CheckLimitEvolves(s, n);
    if Runs(s, n) && s.states[n].task.Counting? && s.states[n].task.candidate.maxCalls.Some? {
      var candidate := s.states[n].task.candidate;
      CountingIsChosen(s, n);
      if candidate.session == sid { CandidateIsCapped(c, s, n, candidate, cap); }
      CheckKeepsTable(s, n);
      if candidate.session != sid || |AnsweredOf(Table(s), sid)| >= cap {
        CheckIsIdle(s, n, sid);
        hide StepCheckLimit;
        NobodyJoins(s, t, n, sid);
      }
    }
  }

  lemma CheckKeepsTable(s: System, n: nat)
    ensures Table(StepCheckLimit(s, n)) == Table(s)
  {
    hide AnsweredOf;
  }

  lemma CountingIsChosen(s: System, n: nat)
    requires AllOk(s) && n in s.states && s.states[n].task.Counting?
    ensures Chosen(s.states[n].decision, s.states[n].task.candidate, s.states[n].pin)
  {
    CallFacts(s, n);
  }

  lemma CheckIsIdle(s: System, n: nat, sid: nat)
    requires AllOk(s) && Runs(s, n) && s.states[n].task.Counting? && s.states[n].task.candidate.maxCalls.Some?
    requires s.states[n].task.candidate.session != sid
             || |AnsweredOf(Table(s), sid)| >= s.states[n].task.candidate.maxCalls.value
    ensures var t := StepCheckLimit(s, n);
            OneCall(s, t, n) ==>
              var after := BusyWith(t.states[n], t.journal[s.states[n].call]);
              after != Some(sid) || after == BusyWith(s.states[n], s.journal[s.states[n].call])
  {
    CallFacts(s, n);
    hide AllOk, AnsweredOf, Table;
  }

  lemma StepBound(c: Setup, s: System, e: Event, sid: nat, cap: int, together: nat)
    requires ValidSettings(c.pool.settings) && SysInv(c, s) && Capped(s, sid, cap)
    requires AllOk(Do(c, s, e)) && LinksOk(Do(c, s, e)) && together >= 1
    requires |Busy(s, sid)| <= Max(cap, 0) + together - 1 && |InFlight(Do(c, s, e), sid)| <= together
    ensures |Busy(Do(c, s, e), sid)| <= Max(cap, 0) + together - 1
  {
    var t := Do(c, s, e);
    BusyIsBoth(t, sid);
    TableCounts(t, sid);
    UnionBound(AnsweredOf(t.journal, sid), InFlight(t, sid));
    SysCalls(c, s);
    hide Table, LinksOk, SysInv, AllOk, Inv, Capped, Busy, InFlight, AnsweredOf, Affects, NoBusier;
    if e.PoolOp? {
      PoolOpBusy(c, s, e.op, sid);
      SubsetCard(Busy(t, sid), Busy(s, sid));
    } else if e.Arrive? {
      ArriveBusy(c, s, e.n, e.dialled, e.caller, sid);
      SubsetCard(Busy(t, sid), Busy(s, sid));
    } else if e.Begin? {
      BeginBusy(c, s, e.n, sid, cap);
      SubsetCard(Busy(t, sid), Busy(s, sid));
    } else if e.CheckLimit? {
      CheckBusy(c, s, e.n, sid, cap);
      if Busy(t, sid) <= Busy(s, sid) { SubsetCard(Busy(t, sid), Busy(s, sid)); }
    } else {
      var n := StepAffects(c, s, e);
      QuietStep(s, t, n, sid);
      SubsetCard(Busy(t, sid), Busy(s, sid));
    }
  }

  lemma QuietStep(s: System, t: System, n: nat, sid: nat)
    requires AllOk(s) && Affects(s, t, n) && NoBusier(s, t, n)
    ensures Busy(t, sid) <= Busy(s, sid)
  {
    hide AllOk, BusyWith;
    NobodyJoins(s, t, n, sid);
  }

  /** At no moment of the run are more than `together` calls of the session in flight. */
  ghost predicate NeverMore(c: Setup, start: int, events: seq<Event>, sid: nat, together: nat)
    requires ValidSettings(c.pool.settings)
  {
    forall k :: 0 <= k <= |events| ==> |InFlight(After(c, start, events[..k]), sid)| <= together
  }

  lemma NeverMoreBefore(c: Setup, start: int, events: seq<Event>, sid: nat, together: nat)
    requires ValidSettings(c.pool.settings) && NeverMore(c, start, events, sid, together) && events != []
    ensures NeverMore(c, start, events[..|events| - 1], sid, together)
    ensures |InFlight(After(c, start, events), sid)| <= together
  {
    hide After, InFlight;
    var before := events[..|events| - 1];
    forall j | 0 <= j <= |before| ensures |InFlight(After(c, start, before[..j]), sid)| <= together {
      assert before[..j] == events[..j];
    }
    assert events[..|events|] == events;
  }

  lemma {:induction false} RunBound(c: Setup, start: int, events: seq<Event>, sid: nat, cap: int, together: nat)
    requires ValidSettings(c.pool.settings) && together >= 1
    requires Capped(After(c, start, events), sid, cap) && NeverMore(c, start, events, sid, together)
    ensures |Busy(After(c, start, events), sid)| <= Max(cap, 0) + together - 1
    decreases |events|
  {
    hide SysInv, Capped, InFlight, NeverMore, Do, AllOk, LinksOk, KeepsPools;
    if events == [] {
      assert Busy(Initial(start), sid) == {};
    } else {
      hide Busy;
      var k := |events| - 1;
      var s := After(c, start, events[..k]);
      AfterInv(c, start, events[..k]);
      AfterInv(c, start, events);
      DoCaps(c, s, events[k]);
      CappedBefore(s, After(c, start, events), sid, cap);
      NeverMoreBefore(c, start, events, sid, together);
      RunBound(c, start, events[..k], sid, cap, together);
      SysCalls(c, After(c, start, events));
      SysLinks(c, After(c, start, events));
      StepBound(c, s, events[k], sid, cap, together);
    }
  }

  /**
    The call cap. If at most `together` calls of a session are ever past the limit check at once,
    unanswered but with a leg that may still be joined, no more than its cap and `together - 1` others
    are answered; with one at a time, never more than the cap.
   */
  lemma CallCapHolds(c: Setup, start: int, events: seq<Event>, sid: nat, cap: int, together: nat, n: nat)
    requires ValidSettings(c.pool.settings) && together >= 1 && NeverMore(c, start, events, sid, together)
    requires var s := After(c, start, events);
             && n in s.states && sid in s.states[n].resolvedAt.sessions
             && s.states[n].resolvedAt.sessions[sid].maxCalls == Some(cap)
    ensures |AnsweredOf(Table(After(c, start, events)), sid)| <= Max(cap, 0) + together - 1
  {
    hide SysInv, After, AllOk, Table, LinksOk, Capped, CapsInv, NeverMore, Busy, InFlight, AnsweredOf;
    var s := After(c, start, events);
    AfterInv(c, start, events);
    RunCaps(c, start, events);
    CappedByOne(s, sid, cap, n);
    RunBound(c, start, events, sid, cap, together);
    SysCalls(c, s);
    SysLinks(c, s);
    TableCounts(s, sid);
    BusyIsBoth(s, sid);
    UnionBound(AnsweredOf(s.journal, sid), InFlight(s, sid));
  }
}
