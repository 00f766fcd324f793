/** What one step can do to a call: most of its past is fixed, and few steps make a session busier. */
module Evolution {
  import opened Basics
  import opened Crypto
  import opened Schema
  import opened Sessions
  import opened Routing
  import opened Lifecycle
  import opened Pool
  import opened Journal
  import opened Causes
  import opened Stasis
  import opened Calls
  import opened CallSteps

  /** A call's route never changes; its choice, bridge and dialling, once made, do not either; stuck is stuck. */
  predicate Evolves(st: CallState, after: CallState) {
    && after.call == st.call && after.proxy == st.proxy && after.key == st.key
    && after.resolvedAt == st.resolvedAt && after.decision == st.decision
    && (st.bridge.Some? ==> after.bridge == st.bridge)
    && (st.chosen.Some? ==> after.chosen == st.chosen && after.pin == st.pin)
    && (st.dialled ==> after.dialled)
    && (st.teardown.Stuck? ==> after.teardown.Stuck?)
  }

  /** The callee's leg may still be joined: it is being joined, or may yet arrive, and the bridge is not destroyed. */
  predicate MayJoin(st: CallState) {
    !st.unbridged && (st.joining || (!st.entered && !st.teardown.Gone?))
  }

  /** Past the limit check and not yet answered in the journal, but answered or with a leg that may still be joined. */
  predicate Flying(st: CallState, row: Call) {
    && st.chosen.Some? && row.answeredAt.None? && (MayJoin(st) || st.answered)
    && (st.task.SettingUp? || st.task.Adding? || st.task.Dialling? || st.dialled)
  }

  /** A bridge that was destroyed is gone. */
  predicate BridgeGone(s: System, n: nat) {
    n in s.states && (s.states[n].unbridged ==> s.states[n].bridge.Some? && !HasBridge(s, n))
  }

  // ---- The session a row refers to -----------------------------------------------------------

  /** The session a call is bound to, from its attachment or arrival on. */
  function Bound(st: CallState): Option<nat> {
    if st.session.Some? then st.session
    else if st.task.Connecting? then Some(st.task.candidate.session)
    else None
  }

  /** The row refers to a stored session, and until the call is over to the one it is bound to while that is stored. */
  predicate LinkOf(db: Db, st: CallState, row: Call) {
    && (row.session.Some? ==> row.session.value in db.sessions)
    && (Bound(st).Some? ==> Bound(st).value < db.nextSession)
    && (Bound(st).Some? && Bound(st).value in db.sessions && !Parted(st) ==> row.session == Bound(st))
  }

  predicate IdsOk(db: Db) {
    forall sid :: sid in db.sessions ==> sid < db.nextSession
  }

  predicate LinkKept(db: Db, st: CallState, row: Call, after: CallState, rowAfter: Call) {
    && (IdsOk(db) && LinkOf(db, st, row) ==> LinkOf(db, after, rowAfter))
    && (Parted(st) ==> Parted(after) && rowAfter.session == row.session)
  }

  /** The session this call is answered in, or on its way to be. */
  function BusyWith(st: CallState, row: Call): Option<nat> {
    if row.status == Answered then row.session else if Flying(st, row) then Some(st.chosen.value.session) else None
  }

  /** The end of a closed row and its talk time are fixed; its cause may be filled in, but never overwritten. */
  predicate ClosingKept(row: Call, after: Call) {
    row.endedAt.Some? ==>
      && after.endedAt == row.endedAt && after.duration == row.duration
      && (row.cause.Some? ==> after.cause == row.cause)
  }

  predicate OneCall(s: System, t: System, n: nat) {
    && n in s.states && n in t.states && t.states == s.states[n := t.states[n]]
    && s.states[n].call in s.journal && s.states[n].call in t.journal
    && t.journal == s.journal[s.states[n].call := t.journal[s.states[n].call]]
    && t.journal[s.states[n].call].channel == n
    && Evolves(s.states[n], t.states[n])
    && ClosingKept(s.journal[s.states[n].call], t.journal[s.states[n].call])
    && LinkKept(s.pool, s.states[n], s.journal[s.states[n].call], t.states[n], t.journal[s.states[n].call])
  }

  predicate SameCalls(s: System, t: System) {
    t.states == s.states && t.journal == s.journal
  }

  predicate Affects(s: System, t: System, n: nat) {
    t.pool == s.pool && t.dropped == s.dropped && (SameCalls(s, t) || OneCall(s, t, n))
  }

  predicate NoBusier(s: System, t: System, n: nat) {
    n in s.states && n in t.states && s.states[n].call in s.journal && s.states[n].call in t.journal ==>
      var after := BusyWith(t.states[n], t.journal[s.states[n].call]);
      after.None? || after == BusyWith(s.states[n], s.journal[s.states[n].call])
  }

  predicate Still(s: System, t: System, n: nat) {
    && t.pending == s.pending && t.puts == s.puts
    && (n in s.states && n in t.states ==>
          t.states[n].stamp == s.states[n].stamp && t.states[n].popped == s.states[n].popped)
  }

  /** No bridge is made, no leg added and nobody dialled. */
  predicate Bare(s: System, t: System, n: nat) {
    && t.dials == s.dials && t.nextBridge == s.nextBridge
    && (n in s.states && n in t.states ==> t.states[n].bridge == s.states[n].bridge)
    && (forall b :: b in t.bridges ==> b in s.bridges && t.bridges[b] == s.bridges[b])
    && (n in s.states && n in t.states && t.states[n].unbridged ==>
          s.states[n].unbridged || (t.states[n].bridge.Some? && !HasBridge(t, n)))
  }

  /** A step that does only what most steps do. */
  predicate Plain(s: System, t: System, n: nat) {
    Affects(s, t, n) && NoBusier(s, t, n) && Still(s, t, n) && Bare(s, t, n)
  }

  /** The shape of a step: it changes one call's state and row, and keeps what is fixed of them. */
  predicate OneKept(s: System, t: System, n: nat) {
    && n in s.states && n in t.states && t.states == s.states[n := t.states[n]]
    && t.pool == s.pool && t.dropped == s.dropped
    && var was, st := s.states[n], t.states[n];
       && was.call in s.journal && was.call in t.journal && Evolves(was, st)
       && var row, after := s.journal[was.call], t.journal[was.call];
          && (t.journal == s.journal || t.journal == s.journal[was.call := after]) && after.channel == n
          && ClosingKept(row, after) && LinkKept(s.pool, was, row, st, after)
  }

  lemma OneAffects(s: System, t: System, n: nat)
    requires OneKept(s, t, n)
    ensures Affects(s, t, n)
  {
    var id := s.states[n].call;
    assert t.journal == s.journal[id := t.journal[id]];
    hide Evolves, ClosingKept, LinkKept;
  }

  /** One call's state becomes `st` and its row `row`. */
  lemma OneEvolves(s: System, t: System, n: nat, st: CallState, row: Call)
    requires n in s.states && st.call in s.journal && row.channel == n && Evolves(s.states[n], st)
    requires t.pool == s.pool && t.dropped == s.dropped && t.states == s.states[n := st]
    requires (t.journal == s.journal && row == s.journal[st.call]) || t.journal == s.journal[st.call := row]
    requires ClosingKept(s.journal[st.call], row) && LinkKept(s.pool, s.states[n], s.journal[st.call], st, row)
    ensures Affects(s, t, n)
  {
    assert t.journal == s.journal[st.call := row];
    hide ClosingKept, LinkKept;
  }

  /** And the call is not on its way to another session. */
  lemma OneMoves(s: System, t: System, n: nat, st: CallState, row: Call)
    requires n in s.states && st.call in s.journal && row.channel == n && Evolves(s.states[n], st)
    requires t.pool == s.pool && t.dropped == s.dropped && t.states == s.states[n := st]
    requires (t.journal == s.journal && row == s.journal[st.call]) || t.journal == s.journal[st.call := row]
    requires ClosingKept(s.journal[st.call], row) && LinkKept(s.pool, s.states[n], s.journal[st.call], st, row)
    requires BusyWith(st, row).None? || BusyWith(st, row) == BusyWith(s.states[n], s.journal[st.call])
    ensures Affects(s, t, n) && NoBusier(s, t, n)
  {
    assert t.journal == s.journal[st.call := row];
    assert st.call == s.states[n].call;
    hide ClosingKept, LinkKept, BusyWith, Evolves;
    OneEvolves(s, t, n, st, row);
  }

  lemma NothingPlain(s: System, n: nat)
    ensures Plain(s, s, n)
  {
  }

  /** Before dialling nobody is on the way. */
  lemma Grounded(s: System, n: nat)
    requires AllOk(s) && n in s.states
    ensures s.states[n].call in s.journal && s.journal[s.states[n].call].channel == n
    ensures !s.states[n].task.Dialled? && !s.states[n].task.Over? ==> !s.states[n].dialled
  {
    CallFacts(s, n);
  }

  lemma AnswerFailedEvolves(s: System, n: nat) returns (t: System)
    requires AllOk(s)
    ensures t == StepAnswerFailed(s, n) && Plain(s, t, n)
  {
    hide AllOk, Plain;
    t := StepAnswerFailed(s, n);
    if Runs(s, n) && s.states[n].task.Asking? && s.states[n].task.attempt == 1 {
      t := TaskEndsEvolves(s, n, Failed, None);
    } else {
      NothingPlain(s, n);
    }
  }

  lemma RejectEndsEvolves(s: System, n: nat) returns (t: System)
    requires AllOk(s)
    ensures t == StepRejectEnds(s, n) && Plain(s, t, n)
  {
    hide AllOk, Plain;
    t := StepRejectEnds(s, n);
    if Runs(s, n) && s.states[n].task.Rejecting? {
      t := TaskEndsEvolves(s, n, s.states[n].task.status, Some(REJECT_CAUSE));
    } else {
      NothingPlain(s, n);
    }
  }

  /** A task that tears its own call down. */
  lemma TaskEndsEvolves(s: System, n: nat, status: CallStatus, cause: Option<int>) returns (t: System)
    requires AllOk(s) && n in s.states && !s.states[n].task.Dialled? && !s.states[n].task.Over?
    ensures t == BeginFinish(Put(s, n, s.states[n].(task := Over)), n, Some(status), cause, false) && Plain(s, t, n)
  {
    hide AllOk, Plain;
    Grounded(s, n);
    var off := s.states[n].(task := Over);
    var st := if off.teardown != Open then off else off.(teardown := Releasing(status, cause, off.outbound, false));
    t := BeginFinish(Put(s, n, off), n, Some(status), cause, false);
    FinishPuts(s, n, off, st, status, cause);
    hide BeginFinish, Put;
    StateMoves(s, n, st);
  }

  lemma FinishPuts(s: System, n: nat, off: CallState, st: CallState, status: CallStatus, cause: Option<int>)
    requires st == if off.teardown != Open then off else off.(teardown := Releasing(status, cause, off.outbound, false))
    ensures BeginFinish(Put(s, n, off), n, Some(status), cause, false) == Put(s, n, st)
  {
    PutTwice(s, n, off, st);
  }

  /** One call's state becomes `st`; every row stays. */
  lemma StateMoves(s: System, n: nat, st: CallState)
    requires n in s.states && s.states[n].call in s.journal && s.journal[s.states[n].call].channel == n
    requires Evolves(s.states[n], st) && st.bridge == s.states[n].bridge
    requires st.stamp == s.states[n].stamp && st.popped == s.states[n].popped
    requires st.unbridged == s.states[n].unbridged && st.session == s.states[n].session
    requires Parted(s.states[n]) ==> Parted(st)
    requires !st.task.Connecting? || st.task == s.states[n].task
    requires var row := s.journal[s.states[n].call];
             BusyWith(st, row).None? || BusyWith(st, row) == BusyWith(s.states[n], row)
    ensures Plain(s, Put(s, n, st), n)
  {
    assert st.call == s.states[n].call;
    hide BusyWith, Evolves;
    OneMoves(s, Put(s, n, st), n, st, s.journal[st.call]);
  }

  lemma AttachDoneEvolves(s: System, n: nat) returns (t: System)
    requires AllOk(s)
    ensures t == StepAttachDone(s, n) && Plain(s, t, n)
  {
    hide AllOk, Plain;
    t := StepAttachDone(s, n);
    if Runs(s, n) && s.states[n].task.Attaching? {
      Grounded(s, n);
      AttachingIsUndecided(s, n);
      if s.states[n].task.candidate.session !in s.pool.sessions {
        var st := s.states[n].(task := Over);
        assert t == Put(s, n, st);
        hide StepAttachDone;
        StateMoves(s, n, st);
      } else {
        AttachesEvolves(s, n);
      }
    } else {
      NothingPlain(s, n);
    }
  }

  lemma AttachesEvolves(s: System, n: nat)
    requires Runs(s, n) && s.states[n].task.Attaching? && s.states[n].chosen.None? && s.states[n].session.None?
    requires s.states[n].task.candidate.session in s.pool.sessions && !Parted(s.states[n])
    requires s.journal[s.states[n].call].channel == n && s.journal[s.states[n].call].status != Answered
    ensures Plain(s, StepAttachDone(s, n), n)
  {
    var t := StepAttachDone(s, n);
    assert OneKept(s, t, n) && NoBusier(s, t, n);
    assert Still(s, t, n) && Bare(s, t, n);
    hide OneKept, NoBusier, Still, Bare;
    OneAffects(s, t, n);
  }

  lemma AttachingIsUndecided(s: System, n: nat)
    requires AllOk(s) && n in s.states && s.states[n].task.Attaching?
    ensures s.states[n].chosen.None? && s.states[n].session.None? && !Parted(s.states[n])
    ensures s.states[n].call in s.journal && s.journal[s.states[n].call].status != Answered
  {
    CallFacts(s, n);
  }

  lemma BeginEvolves(s: System, n: nat) returns (t: System)
    requires AllOk(s)
    ensures t == StepBegin(s, n) && Affects(s, t, n) && Still(s, t, n) && Bare(s, t, n)
  {
    hide AllOk;
    t := StepBegin(s, n);
    if t != s {
      CallFacts(s, n);
      assert OneKept(s, t, n) && Still(s, t, n) && Bare(s, t, n);
      hide Tracked, RowTracked, OneKept, Still, Bare;
      OneAffects(s, t, n);
    }
  }

  lemma CheckLimitEvolves(s: System, n: nat) returns (t: System)
    requires AllOk(s)
    ensures t == StepCheckLimit(s, n) && Affects(s, t, n) && Still(s, t, n) && Bare(s, t, n)
  {
    hide AllOk;
    t := StepCheckLimit(s, n);
    if t != s {
      CallFacts(s, n);
      assert OneKept(s, t, n) && Still(s, t, n) && Bare(s, t, n);
      hide Tracked, RowTracked, OneKept, Still, Bare;
      OneAffects(s, t, n);
    }
  }

  lemma BridgeMadeEvolves(s: System, n: nat, ok: bool) returns (t: System)
    requires AllOk(s)
    ensures t == StepBridgeMade(s, n, ok) && Affects(s, t, n) && NoBusier(s, t, n) && Still(s, t, n)
  {
    hide AllOk;
    t := StepBridgeMade(s, n, ok);
    if t != s {
      CallFacts(s, n);
      assert OneKept(s, t, n) && NoBusier(s, t, n);
      assert Still(s, t, n);
      hide Tracked, RowTracked, OneKept, NoBusier, Still, Bare;
      OneAffects(s, t, n);
    }
  }

  lemma LegAddedEvolves(s: System, n: nat, ok: bool) returns (t: System)
    requires AllOk(s)
    ensures t == StepLegAdded(s, n, ok) && Affects(s, t, n) && NoBusier(s, t, n) && Still(s, t, n)
  {
    hide AllOk;
    t := StepLegAdded(s, n, ok);
    if t != s {
      CallFacts(s, n);
      assert OneKept(s, t, n) && NoBusier(s, t, n);
      assert Still(s, t, n);
      hide Tracked, RowTracked, OneKept, NoBusier, Still, Bare;
      OneAffects(s, t, n);
    }
  }

  lemma DialEvolves(s: System, n: nat, ok: bool) returns (t: System)
    requires AllOk(s)
    ensures t == StepDial(s, n, ok) && Affects(s, t, n) && NoBusier(s, t, n) && Still(s, t, n)
  {
    hide AllOk;
    t := StepDial(s, n, ok);
    if t != s {
      CallFacts(s, n);
      assert OneKept(s, t, n) && NoBusier(s, t, n);
      assert Still(s, t, n);
      hide Tracked, RowTracked, OneKept, NoBusier, Still, Bare;
      OneAffects(s, t, n);
    }
  }

  lemma DialReturnedEvolves(s: System, n: nat) returns (t: System)
    requires AllOk(s)
    ensures t == StepDialReturned(s, n) && Plain(s, t, n)
  {
    hide AllOk;
    t := StepDialReturned(s, n);
    if t != s {
      CallFacts(s, n);
      assert OneKept(s, t, n) && NoBusier(s, t, n);
      assert Still(s, t, n) && Bare(s, t, n);
      hide Tracked, RowTracked, OneKept, NoBusier, Still, Bare;
      OneAffects(s, t, n);
    }
  }

  lemma ReleaseEvolves(s: System, n: nat, unbridged: bool) returns (t: System)
    requires AllOk(s)
    ensures t == StepRelease(s, n, unbridged) && Plain(s, t, n)
  {
    hide AllOk;
    t := StepRelease(s, n, unbridged);
    if t != s {
      CallFacts(s, n);
      assert OneKept(s, t, n) && NoBusier(s, t, n);
      assert Still(s, t, n) && Bare(s, t, n);
      hide Tracked, RowTracked, OneKept, NoBusier, Still, Bare;
      OneAffects(s, t, n);
    }
  }

  lemma CloseRowEvolves(s: System, n: nat) returns (t: System)
    requires AllOk(s) && (n in s.states && s.states[n].call in s.journal ==>
               LinkOf(s.pool, s.states[n], s.journal[s.states[n].call]))
    ensures t == StepCloseRow(s, n) && Plain(s, t, n)
  {
    hide AllOk, Plain, LinkOf;
    t := StepCloseRow(s, n);
    if Runs(s, n) && s.states[n].teardown.Closing? {
      Grounded(s, n);
      if SessionGone(s, n) {
        var st := s.states[n].(teardown := Stuck);
        assert t == Put(s, n, st).(pump := t.pump);
        hide StepCloseRow;
        StateMoves(s, n, st);
        SamePlain(s, Put(s, n, st), n, t.pump);
      } else {
        ClosesEvolves(s, n);
      }
    } else {
      NothingPlain(s, n);
    }
  }

  lemma ClosesEvolves(s: System, n: nat)
    requires AllOk(s) && Runs(s, n) && s.states[n].teardown.Closing? && !SessionGone(s, n)
    requires LinkOf(s.pool, s.states[n], s.journal[s.states[n].call])
    ensures Plain(s, StepCloseRow(s, n), n)
  {
    hide AllOk;
    var t := StepCloseRow(s, n);
    CallFacts(s, n);
    var st, row := t.states[n], t.journal[s.states[n].call];
    ClosingLinks(s.pool, s.states[n], s.journal[st.call], st, row);
    assert Evolves(s.states[n], st) && ClosingKept(s.journal[st.call], row);
    var before := BusyWith(s.states[n], s.journal[s.states[n].call]);
    assert BusyWith(st, row).None? || BusyWith(st, row) == before;
    assert Still(s, t, n) && Bare(s, t, n);
    hide Tracked, RowTracked, BusyWith, Evolves, ClosingKept, LinkKept, Still, Bare;
    OneMoves(s, t, n, st, row);
  }

  /** Closing writes the session the call is bound to. */
  lemma ClosingLinks(db: Db, st: CallState, row: Call, after: CallState, rowAfter: Call)
    requires after.session == st.session && after.task == st.task && !Parted(st)
    requires st.session.Some? ==> st.session.value in db.sessions
    requires rowAfter.session == Or(st.session, row.session)
    ensures LinkKept(db, st, row, after, rowAfter)
  {
  }

  lemma ForgetEvolves(s: System, n: nat) returns (t: System)
    requires AllOk(s)
    ensures t == StepForget(s, n) && Affects(s, t, n) && NoBusier(s, t, n) && Bare(s, t, n)
  {
    hide AllOk, Enqueued;
    t := StepForget(s, n);
    if t != s {
      CallFacts(s, n);
      assert OneKept(s, t, n) && NoBusier(s, t, n);
      assert Bare(s, t, n);
      hide Tracked, RowTracked, OneKept, NoBusier, Still, Bare;
      OneAffects(s, t, n);
    }
  }

  lemma OutboundStartEvolves(s: System, n: nat) returns (t: System)
    requires AllOk(s)
    ensures t == StepOutboundStart(s, n) && Plain(s, t, n)
  {
    hide AllOk;
    t := StepOutboundStart(s, n);
    if t != s {
      CallFacts(s, n);
      assert OneKept(s, t, n) && NoBusier(s, t, n);
      assert Still(s, t, n) && Bare(s, t, n);
      hide Tracked, RowTracked, OneKept, NoBusier, Still, Bare;
      OneAffects(s, t, n);
    }
  }

  lemma JoinedEvolves(s: System, n: nat, ok: bool) returns (t: System)
    requires AllOk(s) && (n in s.states ==> BridgeGone(s, n))
    ensures t == StepJoined(s, n, ok) && Affects(s, t, n) && NoBusier(s, t, n) && Still(s, t, n)
  {
    hide AllOk;
    if ok && HasBridge(s, n) {
      t := StepJoined(s, n, true);
      if t != s {
        CallFacts(s, n);
        assert OneKept(s, t, n) && NoBusier(s, t, n);
        assert Still(s, t, n);
        hide Tracked, RowTracked, OneKept, NoBusier, Still, Bare;
        OneAffects(s, t, n);
      }
    } else {
      t := JoinFailsEvolves(s, n, ok);
      hide StepJoined, Affects, NoBusier, Still, Bare;
    }
  }

  lemma MarkedEvolves(s: System, n: nat) returns (t: System)
    requires AllOk(s)
    ensures t == StepMarked(s, n) && Plain(s, t, n)
  {
    hide AllOk;
    t := StepMarked(s, n);
    if t != s {
      CallFacts(s, n);
      assert OneKept(s, t, n) && NoBusier(s, t, n);
      assert Still(s, t, n) && Bare(s, t, n);
      hide Tracked, RowTracked, OneKept, NoBusier, Still, Bare;
      OneAffects(s, t, n);
    }
  }

  lemma LateCauseEvolves(s: System, n: nat, cause: Option<int>) returns (t: System)
    requires AllOk(s) && QueueOk(s)
    ensures t == StepLateCause(s, n, cause) && Affects(s, t, n) && NoBusier(s, t, n) && Bare(s, t, n)
  {
    hide AllOk;
    t := StepLateCause(s, n, cause);
    if t != s {
      CallFacts(s, n);
      var i := Find(s.pending, n);
      assert Waiting(s, s.pending[i]);
      assert OneKept(s, t, n) && NoBusier(s, t, n);
      assert Bare(s, t, n);
      hide Tracked, RowTracked, OneKept, NoBusier, Still, Bare;
      OneAffects(s, t, n);
    }
  }

  lemma TypedEvolves(c: Setup, s: System, n: nat, code: string) returns (t: System)
    requires AllOk(s)
    ensures t == StepTyped(c, s, n, code) && Plain(s, t, n)
  {
    hide AllOk, Plain, SelectByCode;
    t := StepTyped(c, s, n, code);
    if Runs(s, n) && s.states[n].task.Asking? {
      Grounded(s, n);
      assert s.states[n].chosen.None? by { AskingIsUndecided(s, n); }
      var was := s.states[n];
      var candidate := if code != "" then SelectByCode(was.task.candidates, code) else None;
      var st := if candidate.Some? then was.(task := Attaching(candidate.value), pin := Some(code))
                else was.(task := NextAttempt(c, was.task.candidates, was.task.attempt + 1));
      assert t == Put(s, n, st);
      hide StepTyped;
      StateMoves(s, n, st);
    } else {
      NothingPlain(s, n);
    }
  }

  lemma AskingIsUndecided(s: System, n: nat)
    requires AllOk(s) && n in s.states && s.states[n].task.Asking?
    ensures s.states[n].chosen.None?
  {
    CallFacts(s, n);
  }

  lemma WatchdogEvolves(s: System, n: nat) returns (t: System)
    requires AllOk(s)
    ensures t == StepWatchdog(s, n) && Plain(s, t, n)
  {
    hide AllOk, Plain;
    t := StepWatchdog(s, n);
    if Runs(s, n) && s.states[n].watchdog {
      var off := s.states[n].(watchdog := false);
      if off.answered || off.teardown != Open {
        Grounded(s, n);
        assert t == Put(s, n, off);
        hide StepWatchdog;
        StateMoves(s, n, off);
      } else {
        GivesUpEvolves(s, n);
      }
    } else {
      NothingPlain(s, n);
    }
  }

  lemma GivesUpEvolves(s: System, n: nat)
    requires AllOk(s) && n in s.states && s.states[n].watchdog && !s.states[n].answered && s.states[n].teardown == Open
    ensures var off := s.states[n].(watchdog := false, late := true);
            Plain(s, BeginFinish(Put(s, n, off), n, Some(NoAnswer), Some(NO_ANSWER_CAUSE), false), n)
  {
    hide AllOk, Plain;
    Grounded(s, n);
    WatchedIsDialled(s, n);
    var off := s.states[n].(watchdog := false, late := true);
    var st := off.(teardown := Releasing(NoAnswer, Some(NO_ANSWER_CAUSE), off.outbound, false));
    var t := BeginFinish(Put(s, n, off), n, Some(NoAnswer), Some(NO_ANSWER_CAUSE), false);
    assert t == Put(s, n, st) by { PutTwice(s, n, off, st); }
    hide BeginFinish;
    StateMoves(s, n, st);
  }

  lemma WatchedIsDialled(s: System, n: nat)
    requires AllOk(s) && n in s.states && s.states[n].watchdog
    ensures s.states[n].dialled
  {
    CallFacts(s, n);
  }

  lemma BeginFinishEvolves(s: System, outToIn: map<nat, nat>, pump: Pump, n: nat, status: Option<CallStatus>,
                           cause: Option<int>, pumped: bool)
      returns (t: System)
    requires AllOk(s) && n in s.states
    ensures t == BeginFinish(s.(outToIn := outToIn, pump := pump), n, status, cause, pumped) && Plain(s, t, n)
  {
    hide AllOk;
    t := BeginFinish(s.(outToIn := outToIn, pump := pump), n, status, cause, pumped);
    CallFacts(s, n);
    var st := t.states[n];
    assert Evolves(s.states[n], st) && Still(s, t, n) && Bare(s, t, n);
    hide Tracked, RowTracked, Evolves, Still, Bare;
    OneMoves(s, t, n, st, s.journal[st.call]);
  }

  lemma PoppedPlain(s: System, outToIn: map<nat, nat>, n: nat)
    ensures Plain(s, s.(outToIn := outToIn), n)
  {
  }

  lemma JoinFailsEvolves(s: System, n: nat, ok: bool) returns (t: System)
    requires AllOk(s) && (!ok || !HasBridge(s, n))
    ensures t == StepJoined(s, n, ok) && Plain(s, t, n)
  {
    hide AllOk;
    t := StepJoined(s, n, ok);
    if Serves(s, n) && s.pump == Joining(n) {
      CallFacts(s, n);
      var off := s.states[n].(joining := false);
      var st := if off.teardown != Open then off else off.(teardown := Releasing(Failed, None, off.outbound, true));
      var pump := if off.teardown != Open then Free else Finishing(n);
      assert t == Put(s, n, st).(pump := pump) by { PutTwice(s, n, off, st); }
      hide StepJoined, BeginFinish, Tracked, RowTracked, Plain;
      StateMoves(s, n, st);
      SamePlain(s, Put(s, n, st), n, pump);
    } else {
      NothingPlain(s, n);
    }
  }

  /** Who the pump serves is no matter of the calls. */
  lemma SamePlain(s: System, t: System, n: nat, pump: Pump)
    requires Plain(s, t, n)
    ensures Plain(s, t.(pump := pump), n)
  {
    hide BusyWith, Evolves, ClosingKept, LinkKept;
  }
}
