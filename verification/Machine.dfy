/** The invariant of the whole system, kept by every step, hence true of every run. */
module Machine {
  import opened Basics
  import opened Crypto
  import opened Schema
  import opened Allocation
  import opened Sessions
  import opened Routing
  import opened Invariant
  import opened Lifecycle
  import opened Steps
  import opened Upkeep
  import opened Pool
  import opened Promotion
  import Phone
  import opened Journal
  import opened Causes
  import opened Stasis
  import opened Calls
  import opened CallSteps
  import opened Late
  import opened Evolution
  import opened Links
  import opened Precedence

  // ---- The parts of the invariant --------------------------------------------------------

  /** The route of a call is what the pool resolved when it arrived. */
  ghost predicate RouteOk(c: Setup, st: CallState)
    requires ValidSettings(c.pool.settings)
  {
    && Inv(st.resolvedAt) && st.proxy == st.key.proxy
    && (st.decision.Reject? || st.decision == ResolveKey(c.pool, st.resolvedAt, st.key).1)
  }

  ghost predicate RoutesOk(c: Setup, states: map<nat, CallState>)
    requires ValidSettings(c.pool.settings)
  {
    forall n {:trigger states[n]} :: n in states ==> RouteOk(c, states[n])
  }

  /** No bridge is shared, and a bridge holds legs of its own call only. */
  predicate LegOk(s: System, b: nat, leg: Leg) {
    leg.of in s.states && s.states[leg.of].bridge == Some(b)
  }

  ghost predicate BridgesOk(s: System) {
    && (forall n :: n in s.states && s.states[n].bridge.Some? ==> s.states[n].bridge.value < s.nextBridge)
    && (forall n, m :: n in s.states && m in s.states && n != m && s.states[n].bridge.Some? ==>
          s.states[n].bridge != s.states[m].bridge)
    && (forall b, leg {:trigger LegOk(s, b, leg)} :: b in s.bridges && leg in s.bridges[b] ==> LegOk(s, b, leg))
    && (forall n {:trigger BridgeGone(s, n)} :: n in s.states ==> BridgeGone(s, n))
  }

  /** An accepted originate asked for the chosen candidate's callee, showing the proxy number. */
  predicate DialFits(s: System, d: Dial) {
    && d.call in s.states && s.states[d.call].dialled && s.states[d.call].chosen.Some?
    && d.callee == s.states[d.call].chosen.value.callee && d.session == s.states[d.call].chosen.value.session
    && d.callerId == s.states[d.call].proxy
  }

  ghost predicate DialsOk(s: System) {
    forall i {:trigger s.dials[i]} :: 0 <= i < |s.dials| ==> DialFits(s, s.dials[i])
  }

  ghost predicate SysInv(c: Setup, s: System)
    requires ValidSettings(c.pool.settings)
  {
    && Inv(s.pool) && AllOk(s) && QueueInv(s) && RoutesOk(c, s.states) && BridgesOk(s) && DialsOk(s) && LinksOk(s)
  }

  // ---- Steps of one call --------------------------------------------------------------------

  lemma EvolutionKeepsRoutes(c: Setup, s: System, t: System, n: nat)
    requires ValidSettings(c.pool.settings) && RoutesOk(c, s.states) && Affects(s, t, n)
    ensures RoutesOk(c, t.states)
  {
    forall m | m in t.states ensures RouteOk(c, t.states[m]) {
      assert RouteOk(c, s.states[m]);
    }
  }

  lemma EvolutionKeepsDials(s: System, t: System, n: nat)
    requires DialsOk(s) && Affects(s, t, n) && t.dials == s.dials
    ensures DialsOk(t)
  {
    forall i | 0 <= i < |t.dials| ensures DialFits(t, t.dials[i]) { assert DialFits(s, s.dials[i]); }
  }

  /** Bridges are left alone, or some are destroyed. */
  lemma EvolutionKeepsBridges(s: System, t: System, n: nat)
    requires BridgesOk(s) && Affects(s, t, n) && t.nextBridge == s.nextBridge
    requires n in s.states && n in t.states ==> t.states[n].bridge == s.states[n].bridge
    requires forall b :: b in t.bridges ==> b in s.bridges && t.bridges[b] == s.bridges[b]
    requires n in s.states && n in t.states && t.states[n].unbridged ==>
               s.states[n].unbridged || (t.states[n].bridge.Some? && !HasBridge(t, n))
    ensures BridgesOk(t)
  {
    forall m | m in t.states ensures BridgeGone(t, m) { assert BridgeGone(s, m); }
    forall m | m in t.states ensures m in s.states && t.states[m].bridge == s.states[m].bridge {}
    forall b, leg | b in t.bridges && leg in t.bridges[b] ensures LegOk(t, b, leg) { assert LegOk(s, b, leg); }
  }

  lemma StillIsQuiet(s: System, t: System, n: nat)
    requires QueueInv(s) && Affects(s, t, n) && Still(s, t, n)
    ensures QueueInv(t)
  {
    assert Quiet(s, t);
    QuietKeeps(s, t);
  }

  lemma PlainKeeps(c: Setup, s: System, t: System, n: nat)
    requires ValidSettings(c.pool.settings) && SysInv(c, s) && AllOk(t)
    requires Affects(s, t, n) && Still(s, t, n) && Bare(s, t, n)
    ensures SysInv(c, t)
  {
    SysParts(c, s);
    assert t.pool == s.pool && t.dials == s.dials && t.nextBridge == s.nextBridge;
    hide SysInv, Inv, AllOk, QueueInv, RoutesOk, BridgesOk, DialsOk, LinksOk, Affects, Still;
    EvolutionKeepsRoutes(c, s, t, n);
    EvolutionKeepsLinks(s, t, n);
    EvolutionKeepsDials(s, t, n);
    EvolutionKeepsBridges(s, t, n);
    StillIsQuiet(s, t, n);
    SysWhole(c, t);
  }

  lemma SysParts(c: Setup, s: System)
    requires ValidSettings(c.pool.settings) && SysInv(c, s)
    ensures Inv(s.pool) && AllOk(s) && QueueInv(s) && RoutesOk(c, s.states) && BridgesOk(s) && DialsOk(s) && LinksOk(s)
  {
  }

  lemma SysCalls(c: Setup, s: System)
    requires ValidSettings(c.pool.settings) && SysInv(c, s)
    ensures AllOk(s)
  {
  }

  lemma SysPool(c: Setup, s: System)
    requires ValidSettings(c.pool.settings) && SysInv(c, s)
    ensures Inv(s.pool)
  {
  }

  lemma SysWhole(c: Setup, s: System)
    requires ValidSettings(c.pool.settings)
    requires Inv(s.pool) && AllOk(s) && QueueInv(s) && RoutesOk(c, s.states) && BridgesOk(s) && DialsOk(s) && LinksOk(s)
    ensures SysInv(c, s)
  {
  }

  lemma ChoosingStepKeeps(c: Setup, s: System, e: Event)
    requires ValidSettings(c.pool.settings) && SysInv(c, s)
    requires e.Typed? || e.AnswerFailed? || e.AttachDone? || e.Begin? || e.CheckLimit?
    ensures SysInv(c, Do(c, s, e))
  {
    hide SysInv, Inv, AllOk, Affects, Still, Bare, NoBusier;
    SysCalls(c, s);
    hide StepTyped, StepAnswerFailed, StepAttachDone, StepBegin, StepCheckLimit;
    match e
    case Typed(n, code) =>
      TypedOk(c, s, n, code);
      var t := TypedEvolves(c, s, n, code);
      PlainKeeps(c, s, t, n);
    case AnswerFailed(n) =>
      AnswerFailedOk(s, n);
      var t := AnswerFailedEvolves(s, n);
      PlainKeeps(c, s, t, n);
    case AttachDone(n) =>
      AttachDoneOk(s, n);
      var t := AttachDoneEvolves(s, n);
      PlainKeeps(c, s, t, n);
    case Begin(n) =>
      BeginOk(s, n);
      var t := BeginEvolves(s, n);
      PlainKeeps(c, s, t, n);
    case CheckLimit(n) =>
      CheckLimitOk(s, n);
      var t := CheckLimitEvolves(s, n);
      PlainKeeps(c, s, t, n);
  }

  lemma WaitingStepKeeps(c: Setup, s: System, e: Event)
    requires ValidSettings(c.pool.settings) && SysInv(c, s)
    requires e.DialReturned? || e.RejectEnds? || e.WatchdogFires?
    ensures SysInv(c, Do(c, s, e))
  {
    hide SysInv, Inv, AllOk, Affects, Still, Bare, NoBusier;
    SysCalls(c, s);
    hide StepDialReturned, StepRejectEnds, StepWatchdog;
    match e
    case DialReturned(n) =>
      DialReturnedOk(s, n);
      var t := DialReturnedEvolves(s, n);
      PlainKeeps(c, s, t, n);
    case RejectEnds(n) =>
      RejectEndsOk(s, n);
      var t := RejectEndsEvolves(s, n);
      PlainKeeps(c, s, t, n);
    case WatchdogFires(n) =>
      WatchdogOk(s, n);
      var t := WatchdogEvolves(s, n);
      PlainKeeps(c, s, t, n);
  }

  lemma EndingStepKeeps(c: Setup, s: System, e: Event)
    requires ValidSettings(c.pool.settings) && SysInv(c, s)
    requires e.Release? || e.CloseRow? || e.OutboundStart? || e.Marked?
    ensures SysInv(c, Do(c, s, e))
  {
    hide SysInv, Inv, AllOk, LinksOk, Affects, Still, Bare, NoBusier;
    SysCalls(c, s);
    assert LinksOk(s) by { SysParts(c, s); }
    hide StepRelease, StepCloseRow, StepOutboundStart, StepMarked;
    match e
    case Release(n, unbridged) =>
      ReleaseOk(s, n, unbridged);
      var t := ReleaseEvolves(s, n, unbridged);
      PlainKeeps(c, s, t, n);
    case CloseRow(n) =>
      CloseRowOk(s, n);
      LinkAt(s, n);
      var t := CloseRowEvolves(s, n);
      PlainKeeps(c, s, t, n);
    case OutboundStart(n) =>
      OutboundStartOk(s, n);
      var t := OutboundStartEvolves(s, n);
      PlainKeeps(c, s, t, n);
    case Marked(n) =>
      MarkedOk(s, n);
      var t := MarkedEvolves(s, n);
      PlainKeeps(c, s, t, n);
  }

  // ---- Steps that make a bridge, add a leg or dial ----------------------------------------------

  lemma BridgeMadeKeeps(c: Setup, s: System, n: nat, ok: bool)
    requires ValidSettings(c.pool.settings) && SysInv(c, s)
    ensures SysInv(c, StepBridgeMade(s, n, ok))
  {
    BridgeMadeOk(s, n, ok);
    var t := BridgeMadeEvolves(s, n, ok);
    assert t.dials == s.dials;
    NewBridge(s, n, ok);
    hide AllOk, Inv, QueueInv, BridgesOk, RoutesOk, DialsOk, LinksOk, Affects, Still, StepBridgeMade;
    EvolutionKeepsRoutes(c, s, t, n);
    EvolutionKeepsLinks(s, t, n);
    EvolutionKeepsDials(s, t, n);
    StillIsQuiet(s, t, n);
    assert t.pool == s.pool by { AffectsPool(s, t, n); }
  }

  lemma AffectsPool(s: System, t: System, n: nat)
    requires Affects(s, t, n)
    ensures t.pool == s.pool
  {
  }

  lemma NewBridge(s: System, n: nat, ok: bool)
    requires AllOk(s) && BridgesOk(s)
    ensures BridgesOk(StepBridgeMade(s, n, ok))
  {
    var t := StepBridgeMade(s, n, ok);
    if n in s.states { SettingUpIsUnbridged(s, n); }
    hide AllOk;
    forall b, leg | b in t.bridges && leg in t.bridges[b] ensures LegOk(t, b, leg) { assert LegOk(s, b, leg); }
    forall m | m in t.states ensures BridgeGone(t, m) { assert BridgeGone(s, m); }
  }

  lemma SettingUpIsUnbridged(s: System, n: nat)
    requires AllOk(s) && n in s.states
    ensures s.states[n].task.SettingUp? ==> s.states[n].bridge.None?
  {
    CallFacts(s, n);
  }

  /** A leg is added to the bridge of its own call. */
  lemma LegKeepsBridges(s: System, t: System, b: nat, leg: Leg)
    requires BridgesOk(s) && LegOk(s, b, leg) && b in s.bridges
    requires t.bridges == s.bridges[b := s.bridges[b] + {leg}] && t.nextBridge == s.nextBridge
    requires t.states.Keys == s.states.Keys
    requires forall m :: m in s.states ==>
               && t.states[m].bridge == s.states[m].bridge && t.states[m].unbridged == s.states[m].unbridged
    ensures BridgesOk(t)
  {
    forall x, l | x in t.bridges && l in t.bridges[x] ensures LegOk(t, x, l) {
      if l in s.bridges[x] { assert LegOk(s, x, l); }
    }
    forall m | m in t.states ensures BridgeGone(t, m) { assert BridgeGone(s, m); }
  }

  lemma LegAddedKeeps(c: Setup, s: System, n: nat, ok: bool)
    requires ValidSettings(c.pool.settings) && SysInv(c, s)
    ensures SysInv(c, StepLegAdded(s, n, ok))
  {
    LegAddedOk(s, n, ok);
    var t := LegAddedEvolves(s, n, ok);
    LegAddedBridges(s, n, ok);
    assert t.dials == s.dials;
    AffectsPool(s, t, n);
    hide AllOk, Inv, QueueInv, BridgesOk, RoutesOk, DialsOk, LinksOk, Affects, Still, StepLegAdded;
    EvolutionKeepsRoutes(c, s, t, n);
    EvolutionKeepsLinks(s, t, n);
    EvolutionKeepsDials(s, t, n);
    StillIsQuiet(s, t, n);
  }

  lemma LegAddedBridges(s: System, n: nat, ok: bool)
    requires BridgesOk(s)
    ensures BridgesOk(StepLegAdded(s, n, ok))
  {
    var t := StepLegAdded(s, n, ok);
    if Runs(s, n) && s.states[n].task.Adding? {
      if ok && HasBridge(s, n) {
        hide BridgesOk;
        LegKeepsBridges(s, t, s.states[n].bridge.value, In(n));
      } else {
        var st := s.states[n].(task := Rejecting(Failed));
        assert t == Put(s, n, st);
        hide StepLegAdded;
        PutKeepsBridges(s, n, st);
      }
    }
  }

  /** Bridges hold whatever the call is doing. */
  lemma PutKeepsBridges(s: System, n: nat, st: CallState)
    requires BridgesOk(s) && n in s.states
    requires st.bridge == s.states[n].bridge && st.unbridged == s.states[n].unbridged
    ensures BridgesOk(Put(s, n, st))
  {
    var t := Put(s, n, st);
    forall m | m in t.states ensures BridgeGone(t, m) { assert BridgeGone(s, m); }
    forall b, leg | b in t.bridges && leg in t.bridges[b] ensures LegOk(t, b, leg) { assert LegOk(s, b, leg); }
  }

  lemma JoinedKeeps(c: Setup, s: System, n: nat, ok: bool)
    requires ValidSettings(c.pool.settings) && SysInv(c, s)
    ensures SysInv(c, StepJoined(s, n, ok))
  {
    JoinedOk(s, n, ok);
    if !ok || !HasBridge(s, n) {
      var t := JoinFailsEvolves(s, n, ok);
      hide SysInv, AllOk, Affects, Still, Bare, NoBusier;
      PlainKeeps(c, s, t, n);
    } else {
      assert n in s.states ==> BridgeGone(s, n);
      var t := JoinedEvolves(s, n, ok);
      JoinedBridges(s, n, ok);
      assert t.dials == s.dials;
      AffectsPool(s, t, n);
      hide AllOk, Inv, QueueInv, BridgesOk, RoutesOk, DialsOk, LinksOk, Affects, Still, StepJoined;
      EvolutionKeepsRoutes(c, s, t, n);
    EvolutionKeepsLinks(s, t, n);
      EvolutionKeepsDials(s, t, n);
      StillIsQuiet(s, t, n);
    }
  }

  lemma JoinedBridges(s: System, n: nat, ok: bool)
    requires BridgesOk(s) && ok && HasBridge(s, n)
    ensures BridgesOk(StepJoined(s, n, ok))
  {
    var t := StepJoined(s, n, ok);
    if Serves(s, n) && s.pump == Joining(n) {
      hide BridgesOk;
      LegKeepsBridges(s, t, s.states[n].bridge.value, Out(n));
    }
  }

  lemma DialKeeps(c: Setup, s: System, n: nat, ok: bool)
    requires ValidSettings(c.pool.settings) && SysInv(c, s)
    ensures SysInv(c, StepDial(s, n, ok))
  {
    DialOk(s, n, ok);
    var t := DialEvolves(s, n, ok);
    DialDials(s, n, ok);
    assert t.bridges == s.bridges && t.nextBridge == s.nextBridge;
    assert n in s.states && n in t.states ==> t.states[n].bridge == s.states[n].bridge;
    AffectsPool(s, t, n);
    hide AllOk, Inv, QueueInv, BridgesOk, RoutesOk, DialsOk, LinksOk, Affects, Still, StepDial;
    EvolutionKeepsRoutes(c, s, t, n);
    EvolutionKeepsLinks(s, t, n);
    EvolutionKeepsBridges(s, t, n);
    StillIsQuiet(s, t, n);
  }

  lemma DialDials(s: System, n: nat, ok: bool)
    requires AllOk(s) && DialsOk(s)
    ensures DialsOk(StepDial(s, n, ok))
  {
    var t := StepDial(s, n, ok);
    if n in s.states { assert Tracked(s, n); }
    forall i | 0 <= i < |t.dials| ensures DialFits(t, t.dials[i]) {
      if i < |s.dials| { assert DialFits(s, s.dials[i]); }
    }
  }

  // ---- The queue, the pool and arrivals ------------------------------------------------------------

  lemma ForgetKeeps(c: Setup, s: System, n: nat)
    requires ValidSettings(c.pool.settings) && SysInv(c, s)
    ensures SysInv(c, StepForget(s, n))
  {
    ForgetOk(s, n);
    var t := ForgetEvolves(s, n);
    ForgetKeepsQueue(s, n);
    AffectsPool(s, t, n);
    assert t.dials == s.dials && t.nextBridge == s.nextBridge;
    hide AllOk, Inv, QueueInv, BridgesOk, RoutesOk, DialsOk, LinksOk, Affects, StepForget;
    EvolutionKeepsRoutes(c, s, t, n);
    EvolutionKeepsLinks(s, t, n);
    EvolutionKeepsDials(s, t, n);
    EvolutionKeepsBridges(s, t, n);
  }

  lemma LateCauseKeeps(c: Setup, s: System, n: nat, cause: Option<int>)
    requires ValidSettings(c.pool.settings) && SysInv(c, s)
    ensures SysInv(c, StepLateCause(s, n, cause))
  {
    LateCauseOk(s, n, cause);
    var t := LateCauseEvolves(s, n, cause);
    PopKeepsQueue(s, n, cause);
    AffectsPool(s, t, n);
    assert t.dials == s.dials && t.nextBridge == s.nextBridge;
    hide AllOk, Inv, QueueInv, BridgesOk, RoutesOk, DialsOk, LinksOk, Affects, StepLateCause;
    EvolutionKeepsRoutes(c, s, t, n);
    EvolutionKeepsLinks(s, t, n);
    EvolutionKeepsDials(s, t, n);
    EvolutionKeepsBridges(s, t, n);
  }

  lemma StasisEndKeeps(c: Setup, s: System, inbound: bool, n: nat)
    requires ValidSettings(c.pool.settings) && SysInv(c, s)
    ensures SysInv(c, StepStasisEnd(s, inbound, n))
  {
    StasisEndOk(s, inbound, n);
    var t := StepStasisEnd(s, inbound, n);
    var k := if !inbound && n in s.outToIn then s.outToIn[n] else n;
    EndIsPlain(s, inbound, n, k);
    hide SysInv, AllOk, Affects, Still, Bare, NoBusier, StepStasisEnd;
    PlainKeeps(c, s, t, k);
  }

  lemma EndIsPlain(s: System, inbound: bool, n: nat, k: nat)
    requires AllOk(s) && k == (if !inbound && n in s.outToIn then s.outToIn[n] else n)
    ensures Plain(s, StepStasisEnd(s, inbound, n), k)
  {
    PoppedPlain(s, s.outToIn, k);
    PoppedPlain(s, s.outToIn - {n}, k);
    if Runs(s, k) {
      var t := BeginFinishEvolves(s, s.outToIn, s.pump, k, None, None, true);
      var u := BeginFinishEvolves(s, s.outToIn - {n}, s.pump, k, None, None, true);
    }
    hide AllOk, Affects, Still, Bare, NoBusier, BeginFinish;
    assert s.(outToIn := s.outToIn) == s;
  }

  lemma DestroyedKeeps(c: Setup, s: System, inbound: bool, n: nat, cause: Option<int>)
    requires ValidSettings(c.pool.settings) && SysInv(c, s)
    ensures SysInv(c, StepDestroyed(s, inbound, n, cause))
  {
    DestroyedOk(s, inbound, n, cause);
    var t := StepDestroyed(s, inbound, n, cause);
    if s.pump == Free && inbound && !Runs(s, n) {
      LateCauseKeeps(c, s, n, cause);
    } else {
      var k := if !inbound && n in s.outToIn then s.outToIn[n] else n;
      DestroyedIsPlain(s, inbound, n, cause, k);
      hide SysInv, AllOk, Affects, Still, Bare, NoBusier, StepDestroyed;
      PlainKeeps(c, s, t, k);
    }
  }

  lemma DestroyedIsPlain(s: System, inbound: bool, n: nat, cause: Option<int>, k: nat)
    requires AllOk(s) && k == (if !inbound && n in s.outToIn then s.outToIn[n] else n)
    requires !(s.pump == Free && inbound && !Runs(s, n))
    ensures Plain(s, StepDestroyed(s, inbound, n, cause), k)
  {
    PoppedPlain(s, s.outToIn, k);
    PoppedPlain(s, s.outToIn - {n}, k);
    if Runs(s, k) {
      var t := BeginFinishEvolves(s, s.outToIn, s.pump, k, None, cause, true);
      var u := BeginFinishEvolves(s, s.outToIn, s.pump, k, Some(UnansweredStatus(cause, NoAnswer)), cause, true);
    }
    hide AllOk, Affects, Still, Bare, NoBusier, BeginFinish, UnansweredStatus;
    assert s.(outToIn := s.outToIn) == s;
  }

  lemma PoolOpKeeps(c: Setup, s: System, op: Op)
    requires ValidSettings(c.pool.settings) && SysInv(c, s)
    ensures SysInv(c, StepPool(c, s, op))
  {
    hide SysInv, Inv, Apply, AllOk, QueueInv, RoutesOk, BridgesOk, DialsOk, LinksOk, Trimmed, Purged, Overdue;
    SysParts(c, s);
    ApplyKeepsInv(c.pool, s.pool, op);
    ApplyPrecedes(c.pool, s.pool, op);
    PoolKeepsLinks(c, s, op);
    var t := StepPool(c, s, op);
    assert s.pool.now <= t.pool.now by { NowAdvances(s.pool, t.pool); }
    hide Precedes;
    var moved := s.(pool := t.pool);
    PoolOpOk(s, t.pool);
    if op.OpPurge? { PurgeLoosens(c, s, t); }
    LoosenOk(moved, t);
    PoolOpFrame(s, t);
    SysWhole(c, t);
  }

  lemma PurgeLoosens(c: Setup, s: System, t: System)
    requires ValidSettings(c.pool.settings) && t == StepPool(c, s, OpPurge)
    ensures t.journal.Keys == s.journal.Keys
    ensures forall id :: id in s.journal ==> Loosened(s.journal[id], t.journal[id])
  {
    hide Apply, Purged, Overdue;
  }

  lemma NowAdvances(x: Db, y: Db)
    requires Precedes(x, y)
    ensures x.now <= y.now
  {
  }

  /** Queue, legs and originates look neither at the pool nor at the rows. */
  lemma PoolOpFrame(s: System, t: System)
    requires QueueInv(s) && DialsOk(s) && BridgesOk(s)
    requires t == s.(pool := t.pool, journal := t.journal, dropped := t.dropped)
    ensures QueueInv(t) && DialsOk(t) && BridgesOk(t)
  {
    assert Quiet(s, t);
    QuietKeeps(s, t);
    hide QueueInv;
    forall i | 0 <= i < |t.dials| ensures DialFits(t, t.dials[i]) { assert DialFits(s, s.dials[i]); }
    forall b, leg | b in t.bridges && leg in t.bridges[b] ensures LegOk(t, b, leg) { assert LegOk(s, b, leg); }
    forall m | m in t.states ensures BridgeGone(t, m) { assert BridgeGone(s, m); }
  }

  lemma ArriveKeeps(c: Setup, s: System, n: nat, dialled: string, caller: string)
    requires ValidSettings(c.pool.settings) && SysInv(c, s)
    ensures SysInv(c, StepArrive(c, s, n, dialled, caller))
  {
    ArriveOk(c, s, n, dialled, caller);
    var t := StepArrive(c, s, n, dialled, caller);
    if s.pump == Free && n !in s.states {
      ResolveKeepsInv(c.pool, s.pool, dialled, caller);
      ArriveRoutes(c, s, n, dialled, caller);
      ArriveAdds(c, s, n, dialled, caller);
      ArriveKeepsLinks(c, s, n, dialled, caller);
      hide StepArrive, AllOk, Inv, QueueInv, RoutesOk, DialsOk, BridgesOk, LinksOk, Resolve;
      NewCallKeeps(s, t, n);
    }
  }

  lemma NewCallKeeps(s: System, t: System, n: nat)
    requires QueueInv(s) && DialsOk(s) && BridgesOk(s)
    requires n !in s.states && n in t.states && t.states == s.states[n := t.states[n]]
    requires t.states[n].bridge.None? && t.states[n].stamp.None? && !t.states[n].unbridged
    requires t.pending == s.pending && t.puts == s.puts && t.dials == s.dials
    requires t.bridges == s.bridges && t.nextBridge == s.nextBridge
    ensures QueueInv(t) && DialsOk(t) && BridgesOk(t)
  {
    assert Quiet(s, t);
    QuietKeeps(s, t);
    hide QueueInv;
    forall i | 0 <= i < |t.dials| ensures DialFits(t, t.dials[i]) { assert DialFits(s, s.dials[i]); }
    forall b, leg | b in t.bridges && leg in t.bridges[b] ensures LegOk(t, b, leg) { assert LegOk(s, b, leg); }
    forall m | m in t.states ensures BridgeGone(t, m) { if m != n { assert BridgeGone(s, m); } }
  }

  lemma ArriveAdds(c: Setup, s: System, n: nat, dialled: string, caller: string)
    requires ValidSettings(c.pool.settings) && s.pump == Free && n !in s.states
    ensures var t := StepArrive(c, s, n, dialled, caller);
            && t.pool == Resolve(c.pool, s.pool, dialled, caller).0
            && n in t.states && t.states == s.states[n := t.states[n]] && t.states[n].bridge.None?
                  && t.states[n].stamp.None? && !t.states[n].unbridged
            && t.pending == s.pending && t.puts == s.puts && t.dials == s.dials
            && t.bridges == s.bridges && t.nextBridge == s.nextBridge
            && t.states[n].resolvedAt == s.pool && t.states[n].chosen.None?
  {
    hide Resolve;
  }

  lemma ArriveRoutes(c: Setup, s: System, n: nat, dialled: string, caller: string)
    requires ValidSettings(c.pool.settings) && s.pump == Free && n !in s.states && Inv(s.pool) && RoutesOk(c, s.states)
    ensures RoutesOk(c, StepArrive(c, s, n, dialled, caller).states)
  {
    hide Inv, Phone.Normalize, ProxyOf, ResolveKey, LoadCandidates;
    var t := StepArrive(c, s, n, dialled, caller);
    assert RouteOk(c, t.states[n]);
    hide StepArrive, RouteOk;
    ArriveAdds(c, s, n, dialled, caller);
  }

  lemma DoKeeps(c: Setup, s: System, e: Event)
    requires ValidSettings(c.pool.settings) && SysInv(c, s)
    ensures SysInv(c, Do(c, s, e))
  {
    hide SysInv, Inv, StepArrive, StepTyped, StepAnswerFailed, StepAttachDone, StepBegin, StepCheckLimit;
    hide StepBridgeMade, StepLegAdded, StepDial, StepDialReturned, StepRejectEnds, StepWatchdog, StepRelease;
    hide StepCloseRow, StepForget, StepOutboundStart, StepJoined, StepMarked, StepStasisEnd, StepDestroyed;
    match e
    case PoolOp(op) => PoolOpKeeps(c, s, op);
    case Arrive(n, dialled, caller) => ArriveKeeps(c, s, n, dialled, caller);
    case BridgeMade(n, ok) => BridgeMadeKeeps(c, s, n, ok);
    case LegAdded(n, ok) => LegAddedKeeps(c, s, n, ok);
    case DialAnswered(n, ok) => DialKeeps(c, s, n, ok);
    case Joined(n, ok) => JoinedKeeps(c, s, n, ok);
    case Forget(n) => ForgetKeeps(c, s, n);
    case StasisEnd(inbound, n) => StasisEndKeeps(c, s, inbound, n);
    case Destroyed(inbound, n, cause) => DestroyedKeeps(c, s, inbound, n, cause);
    case Release(_, _) => EndingStepKeeps(c, s, e);
    case CloseRow(_) => EndingStepKeeps(c, s, e);
    case OutboundStart(_) => EndingStepKeeps(c, s, e);
    case Marked(_) => EndingStepKeeps(c, s, e);
    case DialReturned(_) => WaitingStepKeeps(c, s, e);
    case RejectEnds(_) => WaitingStepKeeps(c, s, e);
    case WatchdogFires(_) => WaitingStepKeeps(c, s, e);
    case _ => ChoosingStepKeeps(c, s, e);
  }

  // ---- Runs -------------------------------------------------------------------------------------

  /** The state after the steps, from an empty system at `start`. */
  function After(c: Setup, start: int, events: seq<Event>): (s: System)
    requires ValidSettings(c.pool.settings)
  {
    if events == [] then Initial(start) else Do(c, After(c, start, events[..|events| - 1]), events[|events| - 1])
  }

  lemma {:induction false} AfterInv(c: Setup, start: int, events: seq<Event>)
    requires ValidSettings(c.pool.settings)
    ensures SysInv(c, After(c, start, events))
    decreases |events|
  {
    hide SysInv, Do;
    if events == [] {
      InitialInv(c, start);
    } else {
      var k := |events| - 1;
      AfterInv(c, start, events[..k]);
      DoKeeps(c, After(c, start, events[..k]), events[k]);
    }
  }

  lemma InitialInv(c: Setup, start: int)
    requires ValidSettings(c.pool.settings)
    ensures SysInv(c, Initial(start))
  {
    EmptyInv(start);
  }
}
