/** Every step concerns one call, and says little about any other. */
module Effects {
  import opened Basics
  import opened Crypto
  import opened Schema
  import opened Sessions
  import opened Routing
  import opened Lifecycle
  import opened Pool
  import opened Journal
  import opened Causes
  import opened Stasis
  import opened Calls
  import opened CallSteps
  import opened Late
  import opened Evolution
  import opened Links
  import opened Machine

  predicate MayBusy(e: Event) {
    e.Begin? || e.CheckLimit?
  }

  lemma EarlierAffects(c: Setup, s: System, e: Event) returns (n: nat)
    requires ValidSettings(c.pool.settings) && AllOk(s)
    requires e.AnswerFailed? || e.Typed? || e.AttachDone? || e.Begin? || e.CheckLimit? || e.BridgeMade? || e.LegAdded?
               || e.DialAnswered? || e.DialReturned?
    ensures Affects(s, Do(c, s, e), n) && (!MayBusy(e) ==> NoBusier(s, Do(c, s, e), n))
  {
    hide Inv, AllOk, Affects, NoBusier, Still, Bare;
    hide StepAnswerFailed, StepTyped, StepAttachDone, StepBegin;
    hide StepCheckLimit, StepBridgeMade, StepLegAdded, StepDial, StepDialReturned;
    match e
    case AnswerFailed(m) =>
      n := m;
      var t := AnswerFailedEvolves(s, m);
    case Typed(m, code) =>
      n := m;
      var t := TypedEvolves(c, s, m, code);
    case AttachDone(m) =>
      n := m;
      var t := AttachDoneEvolves(s, m);
    case Begin(m) =>
      n := m;
      var t := BeginEvolves(s, m);
    case CheckLimit(m) =>
      n := m;
      var t := CheckLimitEvolves(s, m);
    case BridgeMade(m, ok) =>
      n := m;
      var t := BridgeMadeEvolves(s, m, ok);
    case LegAdded(m, ok) =>
      n := m;
      var t := LegAddedEvolves(s, m, ok);
    case DialAnswered(m, ok) =>
      n := m;
      var t := DialEvolves(s, m, ok);
    case DialReturned(m) =>
      n := m;
      var t := DialReturnedEvolves(s, m);
  }

  lemma LaterAffects(c: Setup, s: System, e: Event) returns (n: nat)
    requires ValidSettings(c.pool.settings) && AllOk(s) && LinksOk(s)
    requires e.RejectEnds? || e.WatchdogFires? || e.Release? || e.CloseRow? || e.Forget?
    ensures Affects(s, Do(c, s, e), n) && (!MayBusy(e) ==> NoBusier(s, Do(c, s, e), n))
  {
    hide Inv, AllOk, Affects, NoBusier, Still, Bare;
    hide StepRejectEnds, StepWatchdog, StepRelease, StepCloseRow, StepForget;
    match e
    case RejectEnds(m) =>
      n := m;
      var t := RejectEndsEvolves(s, m);
    case WatchdogFires(m) =>
      n := m;
      var t := WatchdogEvolves(s, m);
    case Release(m, unbridged) =>
      n := m;
      var t := ReleaseEvolves(s, m, unbridged);
    case CloseRow(m) =>
      n := m;
      LinkAt(s, m);
      var t := CloseRowEvolves(s, m);
    case Forget(m) =>
      n := m;
      var t := ForgetEvolves(s, m);
  }

  lemma PumpAffects(c: Setup, s: System, e: Event) returns (n: nat)
    requires ValidSettings(c.pool.settings) && AllOk(s)
    requires (forall m :: m in s.states ==> BridgeGone(s, m)) && (e.OutboundStart? || e.Joined? || e.Marked?)
    ensures Affects(s, Do(c, s, e), n) && (!MayBusy(e) ==> NoBusier(s, Do(c, s, e), n))
  {
    hide Inv, AllOk, Affects, NoBusier, Still, Bare;
    hide StepOutboundStart, StepJoined, StepMarked;
    match e
    case OutboundStart(m) =>
      n := m;
      var t := OutboundStartEvolves(s, m);
    case Joined(m, ok) =>
      n := m;
      var t := JoinedEvolves(s, m, ok);
    case Marked(m) =>
      n := m;
      var t := MarkedEvolves(s, m);
  }

  lemma EndAffects(s: System, inbound: bool, n: nat) returns (k: nat)
    requires AllOk(s)
    ensures Affects(s, StepStasisEnd(s, inbound, n), k) && NoBusier(s, StepStasisEnd(s, inbound, n), k)
  {
    k := if !inbound && n in s.outToIn then s.outToIn[n] else n;
    EndIsPlain(s, inbound, n, k);
    hide StepStasisEnd, AllOk, Affects, NoBusier, Still, Bare;
  }

  lemma DestroyedAffects(s: System, inbound: bool, n: nat, cause: Option<int>) returns (k: nat)
    requires AllOk(s) && QueueOk(s)
    ensures Affects(s, StepDestroyed(s, inbound, n, cause), k) && NoBusier(s, StepDestroyed(s, inbound, n, cause), k)
  {
    hide AllOk, Affects, NoBusier, Still, Bare;
    if s.pump == Free && inbound && !Runs(s, n) {
      k := n;
      var t := LateCauseEvolves(s, n, cause);
      hide StepLateCause;
    } else {
      k := if !inbound && n in s.outToIn then s.outToIn[n] else n;
      DestroyedIsPlain(s, inbound, n, cause, k);
      hide StepDestroyed;
    }
  }

  /** The call a step concerns; only beginning to connect and passing the limit can make a session busier. */
  lemma StepAffects(c: Setup, s: System, e: Event) returns (n: nat)
    requires ValidSettings(c.pool.settings) && SysInv(c, s)
    requires !e.PoolOp? && !e.Arrive?
    ensures Affects(s, Do(c, s, e), n) && (!MayBusy(e) ==> NoBusier(s, Do(c, s, e), n))
  {
    SysCalls(c, s);
    SysQueue(c, s);
    SysGone(c, s);
    SysLinks(c, s);
    hide LinksOk, SysInv, Inv, AllOk, QueueOk, Affects, NoBusier, BridgeGone;
    if e.StasisEnd? {
      n := EndAffects(s, e.inbound, e.n);
    } else if e.Destroyed? {
      n := DestroyedAffects(s, e.inbound, e.n, e.cause);
    } else if e.RejectEnds? || e.WatchdogFires? || e.Release? || e.CloseRow? || e.Forget? {
      n := LaterAffects(c, s, e);
    } else if e.OutboundStart? || e.Joined? || e.Marked? {
      n := PumpAffects(c, s, e);
    } else {
      n := EarlierAffects(c, s, e);
    }
  }

  /** Only an arrival makes a call known, and no call is forgotten by the proofs. */
  lemma KnownCalls(c: Setup, s: System, e: Event)
    requires ValidSettings(c.pool.settings) && SysInv(c, s) && !e.Arrive?
    ensures Do(c, s, e).states.Keys == s.states.Keys
  {
    hide SysInv, Affects, NoBusier, Apply;
    if !e.PoolOp? {
      var n := StepAffects(c, s, e);
      hide Do;
      AffectsKeys(s, Do(c, s, e), n);
    }
  }

  lemma AffectsKeys(s: System, t: System, n: nat)
    requires Affects(s, t, n)
    ensures t.states.Keys == s.states.Keys
  {
  }

  lemma SysQueue(c: Setup, s: System)
    requires ValidSettings(c.pool.settings) && SysInv(c, s)
    ensures QueueOk(s)
  {
  }

  lemma SysLinks(c: Setup, s: System)
    requires ValidSettings(c.pool.settings) && SysInv(c, s)
    ensures LinksOk(s)
  {
  }

  lemma SysGone(c: Setup, s: System)
    requires ValidSettings(c.pool.settings) && SysInv(c, s)
    ensures forall n :: n in s.states ==> BridgeGone(s, n)
  {
  }

  // ---- Closed rows -------------------------------------------------------------------------

  lemma AskingWrites(c: Setup, s: System, n: nat, code: string)
    ensures StepTyped(c, s, n, code).journal == s.journal
    ensures StepAnswerFailed(s, n).journal == s.journal
    ensures StepBegin(s, n).journal == s.journal
    ensures StepCheckLimit(s, n).journal == s.journal
  {
    hide SelectByCode, NextAttempt, AnsweredOf;
  }

  lemma DiallingWrites(s: System, n: nat, ok: bool)
    ensures StepBridgeMade(s, n, ok).journal == s.journal
    ensures StepLegAdded(s, n, ok).journal == s.journal
    ensures StepDial(s, n, ok).journal == s.journal
    ensures StepDialReturned(s, n).journal == s.journal
  {
  }

  lemma EndingWrites(s: System, n: nat, unbridged: bool)
    ensures StepRejectEnds(s, n).journal == s.journal
    ensures StepWatchdog(s, n).journal == s.journal
    ensures StepRelease(s, n, unbridged).journal == s.journal
    ensures StepForget(s, n).journal == s.journal
  {
    hide Enqueued;
  }

  lemma PumpWrites(s: System, inbound: bool, n: nat, ok: bool)
    ensures StepOutboundStart(s, n).journal == s.journal
    ensures StepJoined(s, n, ok).journal == s.journal
    ensures StepStasisEnd(s, inbound, n).journal == s.journal
  {
    hide InferStatus;
  }

  lemma DestroyedWrites(s: System, inbound: bool, n: nat, cause: Option<int>)
    ensures StepDestroyed(s, inbound, n, cause).journal ==
            if s.pump == Free && inbound && !Runs(s, n) then StepLateCause(s, n, cause).journal else s.journal
  {
    hide InferStatus, UnansweredStatus, StepLateCause;
  }

  lemma ArriveWrites(c: Setup, s: System, n: nat, dialled: string, caller: string)
    requires ValidSettings(c.pool.settings)
    ensures var after := StepArrive(c, s, n, dialled, caller).journal;
            after == s.journal || (s.nextCall in after && after == s.journal[s.nextCall := after[s.nextCall]])
  {
    hide Resolve, NextAttempt;
  }

  /** What a step does to the journal; the other steps leave it alone. */
  lemma JournalWrites(c: Setup, s: System, e: Event)
    requires ValidSettings(c.pool.settings)
    ensures Do(c, s, e).journal ==
            match e
            case PoolOp(op) => StepPool(c, s, op).journal
            case Arrive(n, dialled, caller) => StepArrive(c, s, n, dialled, caller).journal
            case AttachDone(n) => StepAttachDone(s, n).journal
            case CloseRow(n) => StepCloseRow(s, n).journal
            case Marked(n) => StepMarked(s, n).journal
            case Destroyed(inbound, n, cause) =>
              if s.pump == Free && inbound && !Runs(s, n) then StepLateCause(s, n, cause).journal else s.journal
            case _ => s.journal
  {
    hide StepAnswerFailed, StepAttachDone, StepBegin, StepCheckLimit, StepBridgeMade, StepLegAdded, StepDial, StepTyped;
    hide StepDialReturned, StepRejectEnds, StepWatchdog, StepRelease, StepCloseRow, StepForget, StepOutboundStart;
    hide StepMarked, StepStasisEnd, StepDestroyed, StepArrive, StepJoined, StepLateCause, StepPool;
    match e
    case Typed(n, code) => AskingWrites(c, s, n, code);
    case AnswerFailed(n) => AskingWrites(c, s, n, "");
    case Begin(n) => AskingWrites(c, s, n, "");
    case CheckLimit(n) => AskingWrites(c, s, n, "");
    case BridgeMade(n, ok) => DiallingWrites(s, n, ok);
    case LegAdded(n, ok) => DiallingWrites(s, n, ok);
    case DialAnswered(n, ok) => DiallingWrites(s, n, ok);
    case DialReturned(n) => DiallingWrites(s, n, true);
    case RejectEnds(n) => EndingWrites(s, n, true);
    case WatchdogFires(n) => EndingWrites(s, n, true);
    case Release(n, unbridged) => EndingWrites(s, n, unbridged);
    case Forget(n) => EndingWrites(s, n, true);
    case OutboundStart(n) => PumpWrites(s, true, n, true);
    case Joined(n, ok) => PumpWrites(s, true, n, ok);
    case StasisEnd(inbound, n) => PumpWrites(s, inbound, n, true);
    case Destroyed(inbound, n, cause) => DestroyedWrites(s, inbound, n, cause);
    case _ =>
  }

  /** The status, times and duration of a row, and who called whom where. */
  predicate SameOutcome(row: Call, after: Call) {
    after.(session := row.session, direction := row.direction, cause := row.cause) == row
  }

  /** The step binds a call to the session its PIN selected, which is still stored. */
  predicate Attaches(s: System, e: Event, n: nat) {
    && e == AttachDone(n) && Runs(s, n) && s.states[n].task.Attaching?
    && s.states[n].task.candidate.session in s.pool.sessions
  }

  /** The step purges the session the row refers to. */
  predicate Clears(c: Setup, s: System, e: Event, row: Call) {
    e == PoolOp(OpPurge) && row.session.Some? && row.session.value in Purged(c.pool.settings, s.pool)
  }

  /** The step brings the cause of a call that was forgotten without one. */
  predicate BringsCause(s: System, e: Event, n: nat) {
    && e.Destroyed? && e.inbound && e.n == n && e.cause.Some? && s.pump == Free && !Runs(s, n)
    && Find(s.pending, n) < |s.pending|
  }

  /** A step changes the outcome of a closed row exactly if it marks an answer the watchdog had given up on. */
  predicate MarksLate(s: System, e: Event, n: nat) {
    e == Marked(n) && s.pump == Marking(n)
  }

  /**
    What a step may do to the closed row of call `n`, exactly. Status, times and duration change only
    when an answer that overtook the watchdog is marked; the session only when a PIN attachment that
    lands after the close names another, or when it is purged; the direction only with the former; the
    cause only when it was missing and is reported for the queued call.
   */
  predicate ChangedExactly(c: Setup, s: System, e: Event, n: nat, row: Call, after: Call) {
    && (!SameOutcome(row, after) <==> MarksLate(s, e, n))
    && (after.session != row.session <==>
          (Attaches(s, e, n) && row.session != Some(s.states[n].task.candidate.session)) || Clears(c, s, e, row))
    && (Clears(c, s, e, row) ==> after.session.None?)
    && (after.direction != row.direction <==>
          Attaches(s, e, n) && row.direction != Some(s.states[n].task.candidate.direction))
    && (after.cause != row.cause <==> BringsCause(s, e, n))
    && (row.cause.Some? ==> after.cause == row.cause)
    && after.endedAt == row.endedAt && after.duration == row.duration
  }

  /** The step deletes the row: a purge, once it is past the journal's retention and its call over. */
  predicate Deletes(c: Setup, s: System, e: Event, id: nat) {
    e == PoolOp(OpPurge) && id in Overdue(c, s)
  }

  /** Closed rows of the table over every step, exactly: whether the row stays, and what changes in it. */
  lemma ClosedRowExactly(c: Setup, s: System, e: Event, id: nat)
    requires ValidSettings(c.pool.settings) && SysInv(c, s)
    requires id in Table(s) && Table(s)[id].endedAt.Some?
    ensures var row, after := Table(s)[id], Table(Do(c, s, e));
            && (id in after <==> !Deletes(c, s, e, id))
            && (id in after ==> ChangedExactly(c, s, e, row.channel, row, after[id]))
  {
    DroppedExactly(c, s, e);
    hide SysInv, Do, ChangedExactly;
    if Deletes(c, s, e, id) {
      assert Do(c, s, e).dropped == s.dropped + Overdue(c, s);
    } else {
      hide Overdue;
      ClosedRowWrites(c, s, e, id);
    }
  }

  /** Only a purge deletes rows. */
  lemma DroppedExactly(c: Setup, s: System, e: Event)
    requires ValidSettings(c.pool.settings) && SysInv(c, s)
    ensures Do(c, s, e).dropped == if e == PoolOp(OpPurge) then s.dropped + Overdue(c, s) else s.dropped
  {
    hide SysInv, OneCall, NoBusier, Apply, Overdue, Trimmed, Resolve;
    if !e.PoolOp? && !e.Arrive? {
      var n := StepAffects(c, s, e);
      hide Do;
    }
  }

  /** What the step writes in the row, unless it deletes it. */
  lemma ClosedRowWrites(c: Setup, s: System, e: Event, id: nat)
    requires ValidSettings(c.pool.settings) && SysInv(c, s)
    requires id in s.journal && s.journal[id].endedAt.Some? && !Deletes(c, s, e, id)
    ensures id in Do(c, s, e).journal
    ensures ChangedExactly(c, s, e, s.journal[id].channel, s.journal[id], Do(c, s, e).journal[id])
  {
    hide SysInv, AllOk, Do, QueueOk, ChangedExactly;
    hide StepArrive, StepAttachDone, StepCloseRow, StepMarked, StepLateCause, StepPool;
    SysCalls(c, s);
    SysQueue(c, s);
    JournalWrites(c, s, e);
    if e.AttachDone? {
      AttachOnClosed(c, s, e.n, id);
    } else if e.Marked? {
      MarkOnClosed(c, s, e.n, id);
    } else if e.PoolOp? {
      PoolOnClosed(c, s, e.op, id);
    } else if e.Destroyed? && s.pump == Free && e.inbound && !Runs(s, e.n) {
      CauseOnClosed(c, s, e.n, e.cause, id);
    } else {
      if e.Arrive? { ArriveOnClosed(c, s, e.n, e.dialled, e.caller, id); }
      if e.CloseRow? { CloseOnClosed(s, e.n, id); }
      NothingOnClosed(c, s, e, id);
    }
  }

  lemma PoolOnClosed(c: Setup, s: System, op: Op, id: nat)
    requires ValidSettings(c.pool.settings) && id in s.journal && !Deletes(c, s, PoolOp(op), id)
    ensures var row, after := s.journal[id], StepPool(c, s, op).journal;
            id in after && ChangedExactly(c, s, PoolOp(op), row.channel, row, after[id])
  {
    hide Apply, Purged, Overdue;
  }

  lemma AttachOnClosed(c: Setup, s: System, m: nat, id: nat)
    requires AllOk(s) && id in s.journal && s.journal[id].endedAt.Some?
    ensures var row, after := s.journal[id], StepAttachDone(s, m).journal;
            id in after && ChangedExactly(c, s, AttachDone(m), row.channel, row, after[id])
  {
    RowKnown(s, id);
    OwnRow(s, m, id);
    hide AllOk;
  }

  lemma MarkOnClosed(c: Setup, s: System, m: nat, id: nat)
    requires AllOk(s) && id in s.journal && s.journal[id].endedAt.Some?
    ensures var row, after := s.journal[id], StepMarked(s, m).journal;
            id in after && ChangedExactly(c, s, Marked(m), row.channel, row, after[id])
  {
    RowKnown(s, id);
    OwnRow(s, m, id);
    CallFacts(s, s.journal[id].channel);
    hide AllOk;
  }

  lemma CauseOnClosed(c: Setup, s: System, m: nat, cause: Option<int>, id: nat)
    requires AllOk(s) && QueueOk(s) && id in s.journal && s.journal[id].endedAt.Some?
    requires s.pump == Free && !Runs(s, m)
    ensures var row, after := s.journal[id], StepLateCause(s, m, cause).journal;
            id in after && ChangedExactly(c, s, Destroyed(true, m, cause), row.channel, row, after[id])
  {
    RowKnown(s, id);
    OwnRow(s, m, id);
    LateCauseWrites(s, m, cause);
    hide AllOk, QueueOk, StepLateCause, Find;
  }

  lemma ArriveOnClosed(c: Setup, s: System, n: nat, dialled: string, caller: string, id: nat)
    requires ValidSettings(c.pool.settings) && AllOk(s) && id in s.journal
    ensures var after := StepArrive(c, s, n, dialled, caller).journal; id in after && after[id] == s.journal[id]
  {
    RowKnown(s, id);
    ArriveWrites(c, s, n, dialled, caller);
    hide AllOk, StepArrive;
  }

  lemma CloseOnClosed(s: System, m: nat, id: nat)
    requires AllOk(s) && id in s.journal && s.journal[id].endedAt.Some?
    ensures var after := StepCloseRow(s, m).journal; id in after && after[id] == s.journal[id]
  {
    RowKnown(s, id);
    OwnRow(s, m, id);
    if m in s.states { CallFacts(s, m); }
    hide AllOk, Finished;
  }

  lemma NothingOnClosed(c: Setup, s: System, e: Event, id: nat)
    requires AllOk(s) && id in s.journal && !e.AttachDone? && !e.Marked? && !e.PoolOp?
    requires !(e.Destroyed? && s.pump == Free && e.inbound && !Runs(s, e.n))
    ensures var row := s.journal[id]; ChangedExactly(c, s, e, row.channel, row, row)
  {
  }

  lemma RowKnown(s: System, id: nat)
    requires AllOk(s) && id in s.journal
    ensures id < s.nextCall && s.journal[id].channel in s.states && s.states[s.journal[id].channel].call == id
  {
    assert RowTracked(s, id);
  }

  /** A row belongs to the call of its channel only. */
  lemma OwnRow(s: System, m: nat, id: nat)
    requires AllOk(s) && id in s.journal
    ensures m in s.states && s.states[m].call == id ==> s.journal[id].channel == m
  {
    if m in s.states { CallFacts(s, m); }
  }

  /** A late cause is written on the row of the call the queue names, which has none. */
  lemma LateCauseWrites(s: System, n: nat, cause: Option<int>)
    requires AllOk(s) && QueueOk(s)
    ensures StepLateCause(s, n, cause).journal ==
            (if Find(s.pending, n) < |s.pending| && cause.Some? && n in s.states && s.states[n].call in s.journal
             then s.journal[s.states[n].call := s.journal[s.states[n].call].(cause := cause)] else s.journal)
    ensures Find(s.pending, n) < |s.pending| ==>
              && n in s.states && s.states[n].call in s.journal && n !in s.registered
              && s.journal[s.states[n].call].cause.None?
  {
    var i := Find(s.pending, n);
    if i < |s.pending| {
      assert Waiting(s, s.pending[i]);
      CallFacts(s, n);
    }
    hide AllOk;
  }
}
