/** Which legs a bridge holds: an answered call's bridge holds its two legs, and those only, until it is torn down. */
module Legs {
  import opened Basics
  import opened Crypto
  import opened Schema
  import opened Sessions
  import opened Routing
  import opened Lifecycle
  import opened Pool
  import opened Journal
  import opened Causes
  import opened Stasis
  import opened Calls
  import opened CallSteps
  import opened Evolution
  import opened Machine

  predicate LegsOf(s: System, n: nat) {
    n in s.states && var st := s.states[n];
    st.bridge.Some? ==>
      && (st.teardown.Open? || st.teardown.Releasing? ==> st.bridge.value in s.bridges)
      && (st.bridge.value in s.bridges ==>
            && (st.task.Dialling? || st.dialled ==> In(n) in s.bridges[st.bridge.value])
            && (st.answered <==> Out(n) in s.bridges[st.bridge.value]))
  }

  ghost predicate LegsAll(s: System) {
    forall n {:trigger LegsOf(s, n)} :: n in s.states ==> LegsOf(s, n)
  }

  /** Most steps leave bridges and answers alone, reopen no teardown and dial nobody who is not being dialled. */
  predicate LegsAlone(s: System, t: System, n: nat) {
    && t.bridges == s.bridges
    && (t.states == s.states || (n in s.states && n in t.states && t.states == s.states[n := t.states[n]]
        && var was, st := s.states[n], t.states[n];
           && st.bridge == was.bridge && st.answered == was.answered
           && (st.teardown.Open? || st.teardown.Releasing? ==> was.teardown.Open? || was.teardown.Releasing?)
           && (st.task.Dialling? || st.dialled ==> was.task.Dialling? || was.dialled)))
  }

  lemma AloneKeepsLegs(s: System, t: System, n: nat)
    requires LegsAll(s) && LegsAlone(s, t, n)
    ensures LegsAll(t)
  {
    forall m | m in t.states ensures LegsOf(t, m) { assert LegsOf(s, m); }
  }

  lemma ChoosingLeavesLegs(c: Setup, s: System, e: Event)
    requires ValidSettings(c.pool.settings) && (e.Typed? || e.AttachDone? || e.Begin? || e.CheckLimit?)
    ensures LegsAlone(s, Do(c, s, e), e.n)
  {
    hide SelectByCode, Attached, AnsweredOf;
  }

  lemma DiallingLeavesLegs(s: System, n: nat, ok: bool)
    ensures LegsAlone(s, StepDial(s, n, ok), n)
  {
  }

  lemma ClosingLeavesLegs(s: System, n: nat)
    ensures LegsAlone(s, StepCloseRow(s, n), n)
  {
    hide Finished;
  }

  lemma ForgettingLeavesLegs(s: System, n: nat)
    ensures LegsAlone(s, StepForget(s, n), n)
  {
    hide Enqueued;
  }

  lemma PumpLeavesLegs(c: Setup, s: System, e: Event)
    requires ValidSettings(c.pool.settings) && (e.DialReturned? || e.OutboundStart? || e.Marked?)
    ensures LegsAlone(s, Do(c, s, e), e.n)
  {
    hide MarkedAnswered;
  }

  /** A teardown begins, by a call whose state has just been noted. */
  lemma FinishLeavesLegs(s: System, n: nat, st: CallState, status: Option<CallStatus>, cause: Option<int>, pumped: bool)
    requires n in s.states && LegsAlone(s, Put(s, n, st), n)
    ensures LegsAlone(s, BeginFinish(Put(s, n, st), n, status, cause, pumped), n)
  {
    hide InferStatus;
  }

  lemma TaskEndLeavesLegs(c: Setup, s: System, e: Event)
    requires ValidSettings(c.pool.settings) && (e.AnswerFailed? || e.RejectEnds?)
    ensures LegsAlone(s, Do(c, s, e), e.n)
  {
    if Do(c, s, e) != s {
      var status := if e.AnswerFailed? then Failed else s.states[e.n].task.status;
      var cause := if e.AnswerFailed? then None else Some(REJECT_CAUSE);
      var over := s.states[e.n].(task := Over);
      assert Do(c, s, e) == BeginFinish(Put(s, e.n, over), e.n, Some(status), cause, false);
      assert LegsAlone(s, Put(s, e.n, over), e.n);
      hide Do, Put, LegsAlone, BeginFinish;
      FinishLeavesLegs(s, e.n, over, Some(status), cause, false);
    }
  }

  lemma WatchdogLeavesLegs(s: System, n: nat)
    ensures LegsAlone(s, StepWatchdog(s, n), n)
  {
    if n in s.states {
      var late := s.states[n].(watchdog := false, late := true);
      assert LegsAlone(s, Put(s, n, late), n);
      FinishLeavesLegs(s, n, late, Some(NoAnswer), Some(NO_ANSWER_CAUSE), false);
      hide BeginFinish;
    }
  }

  lemma LateCauseLeavesLegs(s: System, n: nat, cause: Option<int>)
    ensures LegsAlone(s, StepLateCause(s, n, cause), n)
  {
    hide Dequeued, WithCause;
  }

  lemma BridgeMadeLegs(s: System, n: nat, ok: bool)
    requires AllOk(s) && BridgesOk(s) && LegsAll(s)
    ensures LegsAll(StepBridgeMade(s, n, ok))
  {
    var t := StepBridgeMade(s, n, ok);
    if t != s {
      CallFacts(s, n);
      hide AllOk;
      forall m | m in t.states ensures LegsOf(t, m) { assert LegsOf(s, m); }
    }
  }

  lemma LegAddedLegs(s: System, n: nat, ok: bool)
    requires AllOk(s) && BridgesOk(s) && LegsAll(s)
    ensures LegsAll(StepLegAdded(s, n, ok))
  {
    var t := StepLegAdded(s, n, ok);
    if t != s {
      CallFacts(s, n);
      hide AllOk;
      forall m | m in t.states ensures LegsOf(t, m) { assert LegsOf(s, m); }
    }
  }

  lemma ReleaseLegs(s: System, n: nat, unbridged: bool)
    requires AllOk(s) && BridgesOk(s) && LegsAll(s)
    ensures LegsAll(StepRelease(s, n, unbridged))
  {
    var t := StepRelease(s, n, unbridged);
    if t != s {
      CallFacts(s, n);
      hide AllOk;
      forall m | m in t.states ensures LegsOf(t, m) { assert LegsOf(s, m); }
    }
  }

  lemma JoinedLegs(s: System, n: nat, ok: bool)
    requires AllOk(s) && BridgesOk(s) && LegsAll(s)
    ensures LegsAll(StepJoined(s, n, ok))
  {
    hide AllOk, BridgesOk, LegsAll;
    if ok && HasBridge(s, n) {
      JoinedAnswers(s, n);
    } else {
      JoinFailsAlone(s, n, ok);
      hide StepJoined, LegsAlone;
      AloneKeepsLegs(s, StepJoined(s, n, ok), n);
    }
  }

  lemma JoinFailsAlone(s: System, n: nat, ok: bool)
    requires !ok || !HasBridge(s, n)
    ensures LegsAlone(s, StepJoined(s, n, ok), n)
  {
    hide LegsAlone;
    if Serves(s, n) && s.pump == Joining(n) {
      var off := s.states[n].(joining := false);
      var st := if off.teardown != Open then off else off.(teardown := Releasing(Failed, None, off.outbound, true));
      var t := StepJoined(s, n, ok);
      assert t == Put(s, n, st).(pump := t.pump) by { PutTwice(s, n, off, st); }
      hide StepJoined, BeginFinish;
      StateLeavesLegs(s, n, st, t.pump);
    } else {
      NothingLeavesLegs(s, n);
    }
  }

  lemma StateLeavesLegs(s: System, n: nat, st: CallState, pump: Pump)
    requires n in s.states && st == s.states[n].(joining := st.joining, teardown := st.teardown)
    requires st.teardown == s.states[n].teardown || s.states[n].teardown.Open?
    ensures LegsAlone(s, Put(s, n, st).(pump := pump), n)
  {
  }

  lemma NothingLeavesLegs(s: System, n: nat)
    ensures LegsAlone(s, s, n)
  {
  }

  lemma JoinedAnswers(s: System, n: nat)
    requires BridgesOk(s) && LegsAll(s) && HasBridge(s, n)
    ensures LegsAll(StepJoined(s, n, true))
  {
    var t := StepJoined(s, n, true);
    forall m | m in t.states ensures LegsOf(t, m) { assert LegsOf(s, m); }
  }

  lemma FinishKeepsLegs(s: System, n: nat, status: Option<CallStatus>, cause: Option<int>, pumped: bool)
    requires LegsAll(s) && n in s.states
    ensures LegsAll(BeginFinish(s, n, status, cause, pumped))
  {
    assert Put(s, n, s.states[n]) == s;
    FinishLeavesLegs(s, n, s.states[n], status, cause, pumped);
    hide BeginFinish, LegsAll, LegsAlone;
    AloneKeepsLegs(s, BeginFinish(s, n, status, cause, pumped), n);
  }

  lemma PoppedLegs(s: System, outToIn: map<nat, nat>)
    requires LegsAll(s) && BridgesOk(s)
    ensures LegsAll(s.(outToIn := outToIn)) && BridgesOk(s.(outToIn := outToIn))
  {
    var t := s.(outToIn := outToIn);
    forall b, leg | b in t.bridges && leg in t.bridges[b] ensures LegOk(t, b, leg) { assert LegOk(s, b, leg); }
    forall m | m in t.states ensures BridgeGone(t, m) { assert BridgeGone(s, m); }
    forall m | m in s.states ensures LegsOf(s.(outToIn := outToIn), m) { assert LegsOf(s, m); }
  }

  lemma StasisEndLegs(s: System, inbound: bool, n: nat)
    requires AllOk(s) && BridgesOk(s) && LegsAll(s)
    ensures LegsAll(StepStasisEnd(s, inbound, n))
  {
    if s.pump == Free {
      if inbound {
        if Runs(s, n) { FinishKeepsLegs(s, n, None, None, true); }
      } else if n in s.outToIn {
        var popped := s.(outToIn := s.outToIn - {n});
        PoppedLegs(s, s.outToIn - {n});
        PoppedKeeps(s, s.outToIn - {n});
        if Runs(s, s.outToIn[n]) { FinishKeepsLegs(popped, s.outToIn[n], None, None, true); }
      }
    }
  }

  lemma DestroyedLegs(s: System, inbound: bool, n: nat, cause: Option<int>)
    requires AllOk(s) && BridgesOk(s) && LegsAll(s)
    ensures LegsAll(StepDestroyed(s, inbound, n, cause))
  {
    if s.pump == Free {
      if inbound {
        if Runs(s, n) {
          FinishKeepsLegs(s, n, None, cause, true);
        } else {
          LateCauseLeavesLegs(s, n, cause); AloneKeepsLegs(s, StepLateCause(s, n, cause), n);
        }
      } else if n in s.outToIn {
        var k := s.outToIn[n];
        PoppedLegs(s, s.outToIn - {n});
        if Runs(s, k) {
          if s.states[k].answered { FinishKeepsLegs(s, k, None, cause, true); }
          else { FinishKeepsLegs(s, k, Some(UnansweredStatus(cause, NoAnswer)), cause, true); }
        }
      }
    }
  }

  lemma ArriveLegs(c: Setup, s: System, n: nat, dialled: string, caller: string)
    requires ValidSettings(c.pool.settings) && LegsAll(s)
    ensures LegsAll(StepArrive(c, s, n, dialled, caller))
  {
    if s.pump == Free && n !in s.states {
      ArriveAdds(c, s, n, dialled, caller);
      hide StepArrive;
      var t := StepArrive(c, s, n, dialled, caller);
      forall m | m in t.states ensures LegsOf(t, m) { if m != n { assert LegsOf(s, m); } }
    }
  }

  lemma PoolOpLegs(s: System, t: System)
    requires LegsAll(s) && t == s.(pool := t.pool, journal := t.journal, dropped := t.dropped)
    ensures LegsAll(t)
  {
    forall m | m in s.states ensures LegsOf(t, m) { assert LegsOf(s, m); }
  }

  lemma DoLegs(c: Setup, s: System, e: Event)
    requires ValidSettings(c.pool.settings) && SysInv(c, s) && LegsAll(s)
    ensures LegsAll(Do(c, s, e))
  {
    hide SysInv, Inv, LegsAll, AllOk, BridgesOk, LegsAlone;
    SysCalls(c, s);
    SysBridges(c, s);
    hide StepArrive, StepBridgeMade, StepLegAdded, StepRelease, StepJoined, StepStasisEnd, StepDestroyed;
    match e
    case PoolOp(op) => PoolOpLegs(s, StepPool(c, s, op));
    case Arrive(n, dialled, caller) => ArriveLegs(c, s, n, dialled, caller);
    case BridgeMade(n, ok) => BridgeMadeLegs(s, n, ok);
    case LegAdded(n, ok) => LegAddedLegs(s, n, ok);
    case Release(n, unbridged) => ReleaseLegs(s, n, unbridged);
    case Joined(n, ok) => JoinedLegs(s, n, ok);
    case StasisEnd(inbound, n) => StasisEndLegs(s, inbound, n);
    case Destroyed(inbound, n, cause) => DestroyedLegs(s, inbound, n, cause);
    case _ =>
      hide Do;
      TaskLegs(c, s, e);
  }

  lemma SysBridges(c: Setup, s: System)
    requires ValidSettings(c.pool.settings) && SysInv(c, s)
    ensures BridgesOk(s)
  {
  }

  lemma TaskLegs(c: Setup, s: System, e: Event)
    requires ValidSettings(c.pool.settings) && LegsAll(s)
    requires e.AnswerFailed? || e.Typed? || e.AttachDone? || e.Begin? || e.CheckLimit? || e.DialAnswered?
             || e.DialReturned? || e.RejectEnds? || e.WatchdogFires? || e.CloseRow? || e.Forget? || e.OutboundStart?
             || e.Marked?
    ensures LegsAll(Do(c, s, e))
  {
    hide LegsAll, LegsAlone, StepDial, StepWatchdog, StepCloseRow, StepForget;
    if e.Typed? || e.AttachDone? || e.Begin? || e.CheckLimit? {
      hide Do;
      ChoosingLeavesLegs(c, s, e);
    } else if e.AnswerFailed? || e.RejectEnds? {
      hide Do;
      TaskEndLeavesLegs(c, s, e);
    } else if e.DialAnswered? {
      DiallingLeavesLegs(s, e.n, e.ok);
    } else if e.WatchdogFires? {
      WatchdogLeavesLegs(s, e.n);
    } else if e.CloseRow? {
      ClosingLeavesLegs(s, e.n);
    } else if e.Forget? {
      ForgettingLeavesLegs(s, e.n);
    } else {
      hide Do;
      PumpLeavesLegs(c, s, e);
    }
    AloneKeepsLegs(s, Do(c, s, e), e.n);
  }

  lemma {:induction false} RunLegs(c: Setup, start: int, events: seq<Event>)
    requires ValidSettings(c.pool.settings)
    ensures LegsAll(After(c, start, events))
    decreases |events|
  {
    hide SysInv, LegsAll, Do;
    if events == [] {
      assert LegsAll(Initial(start)) by { InitialLegs(start); }
    } else {
      var k := |events| - 1;
      AfterInv(c, start, events[..k]);
      RunLegs(c, start, events[..k]);
      DoLegs(c, After(c, start, events[..k]), events[k]);
    }
  }

  lemma InitialLegs(start: int)
    ensures LegsAll(Initial(start))
  {
  }
}
