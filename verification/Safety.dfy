/** What holds of the call machine over every run: teardown, journal, legs, originates and late causes. */
module Safety {
  import opened Basics
  import opened Crypto
  import opened Schema
  import opened Allocation
  import opened Sessions
  import opened Routing
  import opened Invariant
  import opened Lifecycle
  import opened Pool
  import opened Reach
  import opened Journal
  import opened Causes
  import opened Stasis
  import opened Calls
  import opened CallSteps
  import opened Late
  import opened Evolution
  import opened Links
  import opened Machine
  import opened Effects
  import opened Legs
  import opened Provenance
  import Phone

  // ---- Teardown --------------------------------------------------------------------------

  /**
    Exactly-once teardown, in every interleaving: no call is finished or announced as ended twice;
    it is so exactly when its journal row is closed; and it has left the known calls only if it was.
   */
  lemma TornDownOnce(c: Setup, start: int, events: seq<Event>, n: nat)
    requires ValidSettings(c.pool.settings)
    ensures var s := After(c, start, events);
            && NoDuplicates(s.ended)
            && (n in s.states ==> s.states[n].call in s.journal && s.journal[s.states[n].call].channel == n)
            && (n in s.ended <==> n in s.states && s.journal[s.states[n].call].endedAt.Some?)
            && (n in s.states && n !in s.registered ==> n in s.ended)
            && (n in s.registered ==> n in s.states)
  {
    AfterInv(c, start, events);
    var s := After(c, start, events);
    SysCalls(c, s);
    hide SysInv, Inv, After;
    if n in s.states { assert Tracked(s, n); }
  }

  // ---- Journal -----------------------------------------------------------------------------

  /** A settled row: closed, and no answer of its call still to be marked. */
  predicate Settled(s: System, n: nat) {
    && n in s.states && s.states[n].call in s.journal && s.journal[s.states[n].call].endedAt.Some?
    && s.pump != Marking(n)
  }

  /**
    Journal coherence over every run, exactly. Unless its callee joined late, a call's row is always
    coherent: times are ordered, the duration is the floored talk time and present only on closed
    answered rows, and a closed row says "answered" exactly when the callee's leg was bridged. If the
    callee did join late, the row is coherent until it is settled and never after.
   */
  lemma JournalIsCoherent(c: Setup, start: int, events: seq<Event>, n: nat)
    requires ValidSettings(c.pool.settings)
    requires n in After(c, start, events).states
    ensures var s := After(c, start, events); var st := s.states[n];
            && st.call in s.journal && var row := s.journal[st.call];
            && (NeverJoinedLate(c, start, events, n) ==>
                  Coherent(row, s.pool.now) && (row.endedAt.Some? ==> (row.status == Answered <==> st.answered)))
            && (Settled(s, n) ==> (Coherent(row, s.pool.now) <==> NeverJoinedLate(c, start, events, n)))
            && (row.endedAt.None? ==> Coherent(row, s.pool.now))
  {
    AfterInv(c, start, events);
    OvertakenIsLateJoin(c, start, events, n);
    var s := After(c, start, events);
    hide SysInv, After, NeverJoinedLate, Coherent;
    SysCalls(c, s);
    RowCoherence(s, n);
  }

  lemma RowCoherence(s: System, n: nat)
    requires AllOk(s) && n in s.states
    ensures var st := s.states[n];
            && st.call in s.journal && var row := s.journal[st.call];
            && (!st.overtaken ==>
                  Coherent(row, s.pool.now) && (row.endedAt.Some? ==> (row.status == Answered <==> st.answered)))
            && (Settled(s, n) && st.overtaken ==> !Coherent(row, s.pool.now))
            && (row.endedAt.None? ==> Coherent(row, s.pool.now))
  {
    CallFacts(s, n);
    hide AllOk;
    BrokenIncoherent(s.journal[s.states[n].call], s.pool.now);
  }

  lemma BrokenIncoherent(row: Call, now: int)
    ensures Broken(row) ==> !Coherent(row, now)
  {
    if Broken(row) { BrokenIsIncoherent(row, now); }
  }

  /**
    While an answered call is not torn down its bridge holds its two legs and no other; the callee's
    leg is in a bridge only if the call was answered.
   */
  lemma AnsweredIsBridged(c: Setup, start: int, events: seq<Event>, n: nat)
    requires ValidSettings(c.pool.settings)
    requires n in After(c, start, events).states
    ensures var s := After(c, start, events); var st := s.states[n];
            && (st.answered && st.teardown.Open? ==>
                  && st.bridge.Some? && st.bridge.value in s.bridges && s.bridges[st.bridge.value] == {In(n), Out(n)})
            && (st.bridge.Some? && st.bridge.value in s.bridges ==>
                  (st.answered <==> Out(n) in s.bridges[st.bridge.value]))
  {
    AfterInv(c, start, events);
    var s := After(c, start, events);
    RunLegs(c, start, events);
    SysParts(c, s);
    hide SysInv, Inv, After, QueueInv, RoutesOk, DialsOk;
    CallFacts(s, n);
    assert LegsOf(s, n);
    hide AllOk;
    if s.states[n].answered && s.states[n].teardown.Open? {
      OwnLegsOnly(s, n);
    }
  }

  lemma OwnLegsOnly(s: System, n: nat)
    requires BridgesOk(s) && LegsOf(s, n) && s.states[n].answered && s.states[n].teardown.Open?
    requires s.states[n].bridge.Some? && s.states[n].dialled
    ensures s.bridges[s.states[n].bridge.value] == {In(n), Out(n)}
  {
    var b := s.states[n].bridge.value;
    forall leg | leg in s.bridges[b] ensures leg in {In(n), Out(n)} {
      assert LegOk(s, b, leg);
      assert leg == In(leg.of) || leg == Out(leg.of);
    }
  }

  /** No bridge ever holds legs of two calls. */
  lemma BridgesAreNotShared(c: Setup, start: int, events: seq<Event>, b: nat, x: Leg, y: Leg)
    requires ValidSettings(c.pool.settings)
    requires var s := After(c, start, events); b in s.bridges && x in s.bridges[b] && y in s.bridges[b]
    ensures x.of == y.of
  {
    AfterInv(c, start, events);
    var s := After(c, start, events);
    SysParts(c, s);
    hide SysInv, Inv, After, QueueInv, RoutesOk, DialsOk, AllOk;
    assert LegOk(s, b, x) && LegOk(s, b, y);
  }

  // ---- Originates ----------------------------------------------------------------------------

  /** The counterpart of a caller in a session. */
  function Counterpart(db: Db, sid: nat, caller: PartyHash): string
    requires sid in db.parties
  {
    OtherRow(db.parties[sid], caller).sealed.plain
  }

  /** A session the caller may be connected to: its only live one on the proxy, or the one whose PIN it gave. */
  ghost predicate MayReach(db: Db, key: CacheKey, sid: nat, pin: Option<string>) {
    && sid in Live(db, key.proxy, key.caller) && sid in db.parties && sid in db.sessions
    && (match pin
        case None => Live(db, key.proxy, key.caller) == {sid}
        case Some(code) =>
          && db.sessions[sid].extCode == Some(code)
          && (forall other :: other in Live(db, key.proxy, key.caller) && other != sid ==>
                db.sessions[other].extCode != Some(code)))
  }

  lemma ChoiceIsSafe(c: Config, db: Db, key: CacheKey, candidate: Candidate, pin: Option<string>)
    requires Inv(db) && Chosen(ResolveKey(c, db, key).1, candidate, pin)
    ensures MayReach(db, key, candidate.session, pin)
    ensures candidate.callee == Counterpart(db, candidate.session, key.caller)
    ensures candidate.maxCalls == db.sessions[candidate.session].maxCalls
  {
    CacheRefines(c, db, key);
    NeverAmbiguous(c, db, key.proxy, key.caller);
    LiveCount(c, db, key.proxy, key.caller);
    var candidates := LoadCandidates(c, db, key.proxy, key.caller);
    hide ResolveKey, Inv, History, CacheOk;
    if pin.None? {
      assert candidates[0].session in Live(db, key.proxy, key.caller);
    } else {
      PinIsOne(c, db, key, candidate, pin.value);
    }
  }

  lemma PinIsOne(c: Config, db: Db, key: CacheKey, candidate: Candidate, code: string)
    requires Core(db) && code != ""
    requires SelectByCode(LoadCandidates(c, db, key.proxy, key.caller), code) == Some(candidate)
    ensures candidate.session in db.sessions && candidate.session in db.parties
    ensures candidate == CandidateOf(db, candidate.session, key.caller)
    ensures MayReach(db, key, candidate.session, Some(code))
  {
    hide Core, SelectByCode;
    var candidates := LoadCandidates(c, db, key.proxy, key.caller);
    SelectNothingElse(candidates, code);
    var k :| 0 <= k < |candidates| && candidates[k] == candidate;
    assert candidate.session in Live(db, key.proxy, key.caller);
    hide LoadCandidates, CandidateOf;
    forall other | other in Live(db, key.proxy, key.caller) && other != candidate.session
      ensures db.sessions[other].extCode != Some(code)
    {
      LiveApart(db, key.proxy, key.caller, other, candidate.session);
    }
  }

  /**
    Call safety over every run: for every accepted originate the run holds the first arrival of its
    inbound call, event `k`, such that the session was live just before it for the caller's number on
    the dialled proxy, the caller's only one or the one whose PIN was typed since; the originate dials
    the caller's counterpart in that session and presents nothing but the proxy number.
   */
  lemma OriginateIsSafe(c: Setup, start: int, events: seq<Event>, i: nat) returns (k: nat, pin: Option<string>)
    requires ValidSettings(c.pool.settings)
    requires i < |After(c, start, events).dials|
    ensures var d := After(c, start, events).dials[i];
            && k < |events| && events[k].Arrive? && events[k].n == d.call
            && Phone.Normalize(events[k].caller).Ok?
            && var s, key := After(c, start, events[..k]), KeyOf(events[k].dialled, events[k].caller);
               && d.call !in s.states
               && MayReach(s.pool, key, d.session, pin)
               && d.callee == Counterpart(s.pool, d.session, key.caller)
               && d.callerId == key.proxy
    ensures pin.Some? ==>
              exists j :: k < j < |events| && events[j] == Typed(After(c, start, events).dials[i].call, pin.value)
  {
    AfterInv(c, start, events);
    var s := After(c, start, events);
    var d := s.dials[i];
    DialOrigin(c, s, d);
    var j: nat;
    k, j := Origin(c, start, events, d.call);
    pin := s.states[d.call].pin;
    hide SysInv, After, MayReach, Counterpart, Phone.Normalize;
  }

  /** What is remembered of a dialled call shows that it was safe to dial. */
  lemma DialOrigin(c: Setup, s: System, d: Dial)
    requires ValidSettings(c.pool.settings) && SysInv(c, s) && d in s.dials
    ensures d.call in s.states
    ensures var st := s.states[d.call];
            && !st.decision.Reject?
            && MayReach(st.resolvedAt, st.key, d.session, st.pin)
            && d.callee == Counterpart(st.resolvedAt, d.session, st.key.caller)
            && d.callerId == st.key.proxy
  {
    SysParts(c, s);
    hide SysInv, Inv, QueueInv, BridgesOk;
    assert DialFits(s, d);
    CallFacts(s, d.call);
    var st := s.states[d.call];
    assert RouteOk(c, st) && st.chosen.Some?;
    assert Chosen(st.decision, st.chosen.value, st.pin);
    hide AllOk, RoutesOk, DialsOk, MayReach, ResolveKey;
    ChoiceIsSafe(c.pool, st.resolvedAt, st.key, st.chosen.value, st.pin);
  }

  // ---- Sessions purged under a call ------------------------------------------------------------

  /** On every run each journal row refers to a stored session or to none, and that of a call in progress is stored. */
  lemma ForeignKeyHolds(c: Setup, start: int, events: seq<Event>, id: nat)
    requires ValidSettings(c.pool.settings)
    requires id in After(c, start, events).journal
    ensures var s := After(c, start, events);
            && s.journal[id].channel in s.states
            && (s.journal[id].session.Some? ==> s.journal[id].session.value in s.pool.sessions)
            && (!Parted(s.states[s.journal[id].channel]) ==> id in Table(s))
  {
    AfterInv(c, start, events);
    var s := After(c, start, events);
    SysParts(c, s);
    hide SysInv, Inv, After, QueueInv, RoutesOk, BridgesOk, DialsOk;
    RowKnown(s, id);
    CallFacts(s, s.journal[id].channel);
    hide AllOk;
    assert Linked(s, s.journal[id].channel);
  }

  lemma StuckStays(c: Setup, s: System, e: Event, n: nat)
    requires ValidSettings(c.pool.settings) && SysInv(c, s) && n in s.states && s.states[n].teardown.Stuck?
    ensures n in Do(c, s, e).states && Do(c, s, e).states[n].teardown.Stuck?
  {
    hide SysInv, Apply, NoBusier, Resolve, ClosingKept, LinkKept;
    if !e.PoolOp? && !e.Arrive? {
      var m := StepAffects(c, s, e);
      hide Do;
    }
  }

  lemma StuckFacts(s: System, n: nat)
    requires AllOk(s) && n in s.states && s.states[n].teardown.Stuck?
    ensures s.states[n].call in s.journal && s.journal[s.states[n].call].endedAt.None?
    ensures n in s.registered && n !in s.ended
  {
    CallFacts(s, n);
  }

  lemma {:induction false} StuckThroughout(c: Setup, start: int, events: seq<Event>, more: seq<Event>, n: nat)
    requires ValidSettings(c.pool.settings)
    requires var s := After(c, start, events); n in s.states && s.states[n].teardown.Stuck?
    ensures var t := After(c, start, events + more); n in t.states && t.states[n].teardown.Stuck?
    decreases |more|
  {
    hide SysInv, Do;
    if more == [] {
      assert events + more == events;
    } else {
      var k := |more| - 1;
      StuckThroughout(c, start, events, more[..k], n);
      AfterLast(c, start, events + more);
      assert (events + more)[..|events + more| - 1] == events + more[..k];
      hide After;
      StuckStays(c, After(c, start, events + more[..k]), more[k], n);
    }
  }

  /** A call that could not be closed stays so, on every continuation of the run. */
  lemma StuckForever(c: Setup, start: int, events: seq<Event>, more: seq<Event>, n: nat)
    requires ValidSettings(c.pool.settings)
    requires var s := After(c, start, events); n in s.states && s.states[n].teardown.Stuck?
    ensures var t := After(c, start, events + more);
            && n in t.states && n in t.registered && n !in t.ended
            && t.states[n].call in t.journal && t.journal[t.states[n].call].endedAt.None?
  {
    StuckThroughout(c, start, events, more, n);
    AfterInv(c, start, events + more);
    var t := After(c, start, events + more);
    SysCalls(c, t);
    hide SysInv, After, AllOk;
    StuckFacts(t, n);
  }

  /**
    When a teardown comes to close the journal row: it does so, and announces the end, if and only if
    the session the call was bound to is still stored. If that was purged, then on no continuation of
    the run is the row closed, the end announced or the call forgotten.
   */
  lemma ClosesExactly(c: Setup, start: int, events: seq<Event>, n: nat, more: seq<Event>)
    requires ValidSettings(c.pool.settings)
    requires var s := After(c, start, events); n in s.states && s.states[n].teardown.Closing?
    ensures var s, t := After(c, start, events), After(c, start, events + [CloseRow(n)]);
            && s.states[n].call in t.journal
            && (t.journal[s.states[n].call].endedAt.Some? <==> !SessionGone(s, n))
            && (n in t.ended <==> !SessionGone(s, n))
    ensures var t := After(c, start, events + [CloseRow(n)] + more);
            SessionGone(After(c, start, events), n) ==>
              && n in t.states && t.states[n].call in t.journal && t.journal[t.states[n].call].endedAt.None?
              && n !in t.ended && n in t.registered
  {
    var s, closing := After(c, start, events), events + [CloseRow(n)];
    ClosingLast(c, start, events, n);
    AfterInv(c, start, events);
    SysCalls(c, s);
    ClosingRuns(s, n);
    hide *;
    CloseRowMoves(s, n);
    if SessionGone(s, n) { StuckForever(c, start, closing, more, n); }
  }

  lemma ClosingLast(c: Setup, start: int, events: seq<Event>, n: nat)
    requires ValidSettings(c.pool.settings)
    ensures After(c, start, events + [CloseRow(n)]) == StepCloseRow(After(c, start, events), n)
  {
    var closing := events + [CloseRow(n)];
    AfterLast(c, start, closing);
    assert closing[..|closing| - 1] == events && closing[|closing| - 1] == CloseRow(n);
    hide SysInv, After, StepCloseRow;
  }

  lemma ClosingRuns(s: System, n: nat)
    requires AllOk(s) && n in s.states && s.states[n].teardown.Closing?
    ensures Runs(s, n) && s.journal[s.states[n].call].endedAt.None? && n !in s.ended
  {
    CallFacts(s, n);
  }

  lemma CloseRowMoves(s: System, n: nat)
    requires Runs(s, n) && s.states[n].teardown.Closing? && s.journal[s.states[n].call].endedAt.None?
    ensures var t := StepCloseRow(s, n);
            if SessionGone(s, n) then
              n in t.states && t.states[n].teardown.Stuck? && t.journal == s.journal && t.ended == s.ended
            else
              && s.states[n].call in t.journal && t.journal[s.states[n].call].endedAt.Some?
              && t.ended == s.ended + [n]
  {
  }

  // ---- Late causes -----------------------------------------------------------------------------

  /** The queue of late causes never holds more than its limit, oldest first. */
  lemma QueueIsBounded(c: Setup, start: int, events: seq<Event>)
    requires ValidSettings(c.pool.settings)
    ensures var s := After(c, start, events);
            && |s.pending| <= PENDING_CAUSE_LIMIT
            && (forall i, j :: 0 <= i < j < |s.pending| ==> StampAt(s, i) < StampAt(s, j))
  {
    AfterInv(c, start, events);
    SysParts(c, After(c, start, events));
    hide SysInv, Inv, After, AllOk, RoutesOk, BridgesOk, DialsOk;
  }

  /**
    A call forgotten without a cause, with fewer than 512 others put in the queue since: when its
    channel is destroyed the cause reported lands on that call's own row.
   */
  lemma LateCauseLands(c: Setup, start: int, events: seq<Event>, n: nat, cause: int)
    requires ValidSettings(c.pool.settings)
    requires var s := After(c, start, events);
             && n in s.states && s.states[n].stamp.Some? && !s.states[n].popped
             && s.puts - s.states[n].stamp.value - 1 < PENDING_CAUSE_LIMIT
             && s.pump == Free
    ensures var s := After(c, start, events); var t := Do(c, s, Destroyed(true, n, Some(cause)));
            var id := s.states[n].call;
            && id in s.journal && s.journal[id].channel == n && s.journal[id].cause.None?
            && t.journal == s.journal[id := s.journal[id].(cause := Some(cause))] && t.dropped == s.dropped
  {
    AfterInv(c, start, events);
    var s := After(c, start, events);
    SysParts(c, s);
    hide *;
    ForgottenWaits(s, n);
    CauseLands(s, n, cause);
    assert Do(c, s, Destroyed(true, n, Some(cause))) == StepDestroyed(s, true, n, Some(cause)) by {
      DestroyedIs(c, s, n, cause);
    }
  }

  lemma DestroyedIs(c: Setup, s: System, n: nat, cause: int)
    requires ValidSettings(c.pool.settings)
    ensures Do(c, s, Destroyed(true, n, Some(cause))) == StepDestroyed(s, true, n, Some(cause))
  {
    hide StepDestroyed;
  }

  lemma ForgottenWaits(s: System, n: nat)
    requires AllOk(s) && n in s.states && s.states[n].stamp.Some? && !s.states[n].popped
    ensures var id := s.states[n].call;
            n !in s.registered && id in s.journal && s.journal[id].channel == n && s.journal[id].cause.None?
  {
    assert Tracked(s, n);
    hide AllOk;
  }

  lemma CauseLands(s: System, n: nat, cause: int)
    requires QueueInv(s) && n in s.states && s.states[n].stamp.Some? && !s.states[n].popped
    requires s.puts - s.states[n].stamp.value - 1 < PENDING_CAUSE_LIMIT && s.pump == Free
    requires n !in s.registered && s.states[n].call in s.journal && s.journal[s.states[n].call].cause.None?
    ensures var id := s.states[n].call;
            var t := StepDestroyed(s, true, n, Some(cause));
            t.journal == s.journal[id := s.journal[id].(cause := Some(cause))] && t.dropped == s.dropped
  {
    var p := Pending(n, s.states[n].call);
    assert Younger(s, n);
    var k :| 0 <= k < |s.pending| && s.pending[k] == p;
    var i := Find(s.pending, n);
    if i != k { OnceQueued(s, i, k); }
    hide QueueInv, Find;
  }
}
