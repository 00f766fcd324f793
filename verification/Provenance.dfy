/** Where what is remembered of a call comes from: the events of the run that made it so. */
module Provenance {
  import opened Basics
  import opened Crypto
  import opened Schema
  import opened Sessions
  import opened Routing
  import opened Lifecycle
  import opened Pool
  import opened Journal
  import opened Causes
  import opened Stasis
  import opened Calls
  import opened CallSteps
  import opened Late
  import opened Evolution
  import opened Machine
  import opened Effects
  import Phone

  // ---- One step ------------------------------------------------------------------------------

  /** The step bridges the callee of a call the watchdog has begun to tear down. */
  predicate JoinsLate(s: System, e: Event, n: nat) {
    && e == Joined(n, true) && s.pump == Joining(n) && Serves(s, n) && HasBridge(s, n) && s.states[n].teardown != Open
  }

  /** In no step of the run did the callee of call `n` join late. */
  ghost predicate NeverJoinedLate(c: Setup, start: int, events: seq<Event>, n: nat)
    requires ValidSettings(c.pool.settings)
  {
    forall k :: 0 <= k < |events| ==> !JoinsLate(After(c, start, events[..k]), events[k], n)
  }

  /** A late join is an event of the run, and nothing undoes it. */
  lemma {:induction false} OvertakenIsLateJoin(c: Setup, start: int, events: seq<Event>, n: nat)
    requires ValidSettings(c.pool.settings)
    ensures var s := After(c, start, events);
            if n in s.states then s.states[n].overtaken <==> !NeverJoinedLate(c, start, events, n)
            else NeverJoinedLate(c, start, events, n)
    decreases |events|
  {
    if events != [] {
      var k := |events| - 1;
      var s := After(c, start, events[..k]);
      OvertakenIsLateJoin(c, start, events[..k], n);
      AfterInv(c, start, events[..k]);
      SysCalls(c, s);
      hide SysInv, AllOk, After, Do;
      MarksStep(c, s, events[k], After(c, start, events), n);
      LateJoinSplit(c, start, events, n);
    }
  }

  lemma LateJoinSplit(c: Setup, start: int, events: seq<Event>, n: nat)
    requires ValidSettings(c.pool.settings) && events != []
    ensures var k := |events| - 1;
            NeverJoinedLate(c, start, events, n) <==>
              NeverJoinedLate(c, start, events[..k], n) && !JoinsLate(After(c, start, events[..k]), events[k], n)
  {
    hide After, JoinsLate;
    var k := |events| - 1;
    forall j | 0 <= j < k ensures events[..k][..j] == events[..j] && events[..k][j] == events[j] {}
  }

  /** The PIN typed and the late join of call `n` are remembered as they were. */
  predicate SameMarks(s: System, t: System, n: nat) {
    n in s.states ==>
      n in t.states && t.states[n].pin == s.states[n].pin && t.states[n].overtaken == s.states[n].overtaken
  }

  lemma ChoosingKeepsMarks(s: System, m: nat, n: nat)
    ensures SameMarks(s, StepAttachDone(s, m), n)
    ensures SameMarks(s, StepBegin(s, m), n)
    ensures SameMarks(s, StepCheckLimit(s, m), n)
  {
    hide Attached, AnsweredOf;
  }

  lemma BridgeMadeKeepsMarks(s: System, m: nat, ok: bool, n: nat)
    ensures SameMarks(s, StepBridgeMade(s, m, ok), n)
  {
  }

  lemma LegAddedKeepsMarks(s: System, m: nat, ok: bool, n: nat)
    ensures SameMarks(s, StepLegAdded(s, m, ok), n)
  {
  }

  lemma DiallingKeepsMarks(s: System, m: nat, ok: bool, n: nat)
    ensures SameMarks(s, StepDial(s, m, ok), n)
    ensures SameMarks(s, StepDialReturned(s, m), n)
  {
  }

  lemma AnswerFailedKeepsMarks(s: System, m: nat, n: nat)
    ensures SameMarks(s, StepAnswerFailed(s, m), n)
  {
  }

  lemma RejectEndsKeepsMarks(s: System, m: nat, n: nat)
    ensures SameMarks(s, StepRejectEnds(s, m), n)
  {
  }

  lemma WatchdogKeepsMarks(s: System, m: nat, n: nat)
    ensures SameMarks(s, StepWatchdog(s, m), n)
  {
  }

  lemma ClosingKeepsMarks(s: System, m: nat, unbridged: bool, n: nat)
    ensures SameMarks(s, StepRelease(s, m, unbridged), n)
    ensures SameMarks(s, StepCloseRow(s, m), n)
  {
    hide Finished;
  }

  lemma ForgettingKeepsMarks(s: System, m: nat, n: nat)
    ensures SameMarks(s, StepForget(s, m), n)
    ensures SameMarks(s, StepMarked(s, m), n)
  {
    hide MarkedAnswered, Enqueued;
  }

  lemma OutboundStartKeepsMarks(s: System, m: nat, n: nat)
    ensures SameMarks(s, StepOutboundStart(s, m), n)
  {
  }

  lemma StasisEndKeepsMarks(s: System, inbound: bool, m: nat, n: nat)
    ensures SameMarks(s, StepStasisEnd(s, inbound, m), n)
  {
    hide InferStatus;
  }

  lemma DestroyedKeepsMarks(s: System, inbound: bool, m: nat, cause: Option<int>, n: nat)
    ensures SameMarks(s, StepDestroyed(s, inbound, m, cause), n)
  {
    hide InferStatus, UnansweredStatus, Dequeued, WithCause;
  }

  lemma TypedMarks(c: Setup, s: System, m: nat, code: string, n: nat)
    ensures var t := StepTyped(c, s, m, code);
            n in s.states ==>
              && n in t.states && t.states[n].overtaken == s.states[n].overtaken
              && (t.states[n].pin != s.states[n].pin ==> m == n && t.states[n].pin == Some(code))
  {
    var t := StepTyped(c, s, m, code);
    if t != s {
      var st, after := s.states[m], t.states[m];
      assert t == Put(s, m, after) && after.overtaken == st.overtaken
          && (after.pin == st.pin || after.pin == Some(code)) by {
        hide SelectByCode, NextAttempt;
      }
      hide StepTyped;
    }
  }

  lemma JoinedMarks(s: System, m: nat, ok: bool, n: nat)
    requires AllOk(s)
    ensures var t := StepJoined(s, m, ok);
            n in s.states ==>
              && n in t.states && t.states[n].pin == s.states[n].pin
              && (t.states[n].overtaken <==> s.states[n].overtaken || JoinsLate(s, Joined(m, ok), n))
  {
    if n in s.states { NotYetOvertaken(s, n); }
    hide AllOk;
    if n in s.states && Serves(s, m) && s.pump == Joining(m) {
      if ok && HasBridge(s, m) { JoinMarks(s, m, n); } else { JoinFailsMarks(s, m, ok, n); }
      hide StepJoined;
    }
  }

  lemma JoinMarks(s: System, m: nat, n: nat)
    requires Serves(s, m) && s.pump == Joining(m) && HasBridge(s, m) && n in s.states
    ensures var t := StepJoined(s, m, true);
            && n in t.states && t.states[n].pin == s.states[n].pin
            && t.states[n].overtaken == if n == m then s.states[n].teardown != Open else s.states[n].overtaken
  {
  }

  lemma JoinFailsMarks(s: System, m: nat, ok: bool, n: nat)
    requires Serves(s, m) && s.pump == Joining(m) && !(ok && HasBridge(s, m)) && n in s.states
    ensures var t := StepJoined(s, m, ok);
            n in t.states && t.states[n].pin == s.states[n].pin && t.states[n].overtaken == s.states[n].overtaken
  {
    hide InferStatus;
  }

  /** What the pump is joining was not answered before. */
  lemma NotYetOvertaken(s: System, n: nat)
    requires AllOk(s) && n in s.states
    ensures s.pump == Joining(n) ==> !s.states[n].overtaken
  {
    CallFacts(s, n);
    hide AllOk;
  }

  lemma ArrivalAdds(c: Setup, s: System, n: nat, dialled: string, caller: string)
    requires ValidSettings(c.pool.settings)
    ensures var t := StepArrive(c, s, n, dialled, caller);
            t == s || (s.pump == Free && n !in s.states && n in t.states && t.states == s.states[n := t.states[n]]
                       && !t.states[n].overtaken && t.states[n].pin.None?)
  {
    hide Resolve;
  }

  lemma DoIs(c: Setup, s: System, e: Event)
    requires ValidSettings(c.pool.settings)
    ensures e.PoolOp? ==> Do(c, s, e).states == s.states
    ensures e.Typed? ==> Do(c, s, e) == StepTyped(c, s, e.n, e.code)
    ensures e.Joined? ==> Do(c, s, e) == StepJoined(s, e.n, e.ok)
    ensures e.Arrive? ==> Do(c, s, e) == StepArrive(c, s, e.n, e.dialled, e.caller)
  {
    hide Apply, StepTyped, StepJoined, StepArrive;
  }

  /** How one step can change what is remembered of a call. */
  lemma MarksStep(c: Setup, s: System, e: Event, t: System, n: nat)
    requires ValidSettings(c.pool.settings) && SysInv(c, s) && t == Do(c, s, e)
    ensures if n in s.states then
              && n in t.states && (t.states[n].overtaken <==> s.states[n].overtaken || JoinsLate(s, e, n))
              && (t.states[n].pin != s.states[n].pin ==> t.states[n].pin.Some? && e == Typed(n, t.states[n].pin.value))
            else
              !JoinsLate(s, e, n)
                  && (n in t.states ==> e.Arrive? && e.n == n && !t.states[n].overtaken && t.states[n].pin.None?)
  {
    hide SysInv, AllOk, Do, StepTyped, StepJoined, StepArrive, HasBridge;
    SysCalls(c, s);
    DoIs(c, s, e);
    if e.Typed? {
      TypedMarks(c, s, e.n, e.code, n);
    } else if e.Joined? {
      JoinedMarks(s, e.n, e.ok, n);
    } else if e.Arrive? {
      ArrivalAdds(c, s, e.n, e.dialled, e.caller);
    } else if !e.PoolOp? {
      OtherMarks(c, s, e, n);
    }
    if !e.Arrive? { KnownCalls(c, s, e); }
  }

  lemma OtherMarks(c: Setup, s: System, e: Event, n: nat)
    requires ValidSettings(c.pool.settings)
    requires !e.Typed? && !e.Joined? && !e.PoolOp? && !e.Arrive?
    ensures SameMarks(s, Do(c, s, e), n)
  {
    hide SameMarks, StepAnswerFailed, StepAttachDone, StepBegin, StepCheckLimit, StepBridgeMade, StepLegAdded, StepDial;
    hide StepDialReturned, StepRejectEnds, StepWatchdog, StepRelease, StepCloseRow, StepForget, StepOutboundStart;
    hide StepMarked, StepStasisEnd, StepDestroyed;
    match e
    case AttachDone(m) => ChoosingKeepsMarks(s, m, n);
    case Begin(m) => ChoosingKeepsMarks(s, m, n);
    case CheckLimit(m) => ChoosingKeepsMarks(s, m, n);
    case BridgeMade(m, ok) => BridgeMadeKeepsMarks(s, m, ok, n);
    case LegAdded(m, ok) => LegAddedKeepsMarks(s, m, ok, n);
    case DialAnswered(m, ok) => DiallingKeepsMarks(s, m, ok, n);
    case DialReturned(m) => DiallingKeepsMarks(s, m, true, n);
    case AnswerFailed(m) => AnswerFailedKeepsMarks(s, m, n);
    case RejectEnds(m) => RejectEndsKeepsMarks(s, m, n);
    case WatchdogFires(m) => WatchdogKeepsMarks(s, m, n);
    case Release(m, unbridged) => ClosingKeepsMarks(s, m, unbridged, n);
    case CloseRow(m) => ClosingKeepsMarks(s, m, true, n);
    case Forget(m) => ForgettingKeepsMarks(s, m, n);
    case Marked(m) => ForgettingKeepsMarks(s, m, n);
    case OutboundStart(m) => OutboundStartKeepsMarks(s, m, n);
    case StasisEnd(inbound, m) => StasisEndKeepsMarks(s, inbound, m, n);
    case Destroyed(inbound, m, cause) => DestroyedKeepsMarks(s, inbound, m, cause, n);
  }

  // ---- Where a route and its PIN come from --------------------------------------------------

  /** The lookup of an inbound call, when the caller's number is readable. */
  function KeyOf(dialled: string, caller: string): CacheKey {
    var number := Phone.Normalize(caller);
    CacheKey(ProxyOf(dialled), PartyHash(if number.Ok? then number.value else ""))
  }

  /** The route of a call is the one its arrival found in the pool. */
  predicate RoutedBy(st: CallState, pool: Db, dialled: string, caller: string) {
    && st.resolvedAt == pool && st.key == KeyOf(dialled, caller)
    && (Phone.Normalize(caller).Err? ==> st.decision.Reject?)
  }

  lemma ArrivalRoutes(c: Setup, s: System, n: nat, dialled: string, caller: string)
    requires ValidSettings(c.pool.settings) && s.pump == Free && n !in s.states
    ensures var t := StepArrive(c, s, n, dialled, caller);
            n in t.states && RoutedBy(t.states[n], s.pool, dialled, caller)
  {
    hide ResolveKey, Phone.Normalize, ProxyOf;
  }

  /** No step changes the route of a known call. */
  lemma RouteStays(c: Setup, s: System, e: Event, t: System, n: nat)
    requires ValidSettings(c.pool.settings) && SysInv(c, s) && t == Do(c, s, e) && n in s.states
    ensures n in t.states
    ensures var st, after := s.states[n], t.states[n];
            after.resolvedAt == st.resolvedAt && after.key == st.key && after.decision == st.decision
  {
    hide SysInv, Do, StepTyped, StepJoined, StepArrive, NoBusier;
    DoIs(c, s, e);
    if e.Arrive? {
      ArrivalAdds(c, s, e.n, e.dialled, e.caller);
    } else if !e.PoolOp? {
      var m := StepAffects(c, s, e);
      hide ClosingKept;
    }
  }

  /** Event `k` brought call `n`, now in state `st`, and event `j` is the PIN it is remembered by. */
  predicate OriginAt(c: Setup, start: int, events: seq<Event>, n: nat, st: CallState, k: nat, j: nat)
    requires ValidSettings(c.pool.settings)
  {
    && k < |events| && events[k].Arrive? && events[k].n == n
    && n !in After(c, start, events[..k]).states
    && RoutedBy(st, After(c, start, events[..k]).pool, events[k].dialled, events[k].caller)
    && (st.pin.Some? ==> k < j < |events| && events[j] == Typed(n, st.pin.value))
  }

  /** Every known call arrived, once, and the PIN it is remembered by was typed after that. */
  lemma {:induction false} Origin(c: Setup, start: int, events: seq<Event>, n: nat) returns (k: nat, j: nat)
    requires ValidSettings(c.pool.settings)
    requires n in After(c, start, events).states
    ensures OriginAt(c, start, events, n, After(c, start, events).states[n], k, j)
    decreases |events|
  {
    assert events != [];
    var last := |events| - 1;
    hide OriginAt, After;
    AfterLast(c, start, events);
    var s, t := After(c, start, events[..last]), After(c, start, events);
    if n in s.states {
      k, j := Origin(c, start, events[..last], n);
      j := OriginLater(c, start, events, n, s, t, k, j);
    } else {
      k, j := last, last;
      OriginNow(c, start, events, n, s, t);
    }
  }

  lemma AfterLast(c: Setup, start: int, events: seq<Event>)
    requires ValidSettings(c.pool.settings) && events != []
    ensures var last := |events| - 1;
            var s := After(c, start, events[..last]);
            SysInv(c, s) && After(c, start, events) == Do(c, s, events[last])
  {
    AfterInv(c, start, events[..|events| - 1]);
    hide Do, SysInv;
  }

  lemma OriginLater(c: Setup, start: int, events: seq<Event>, n: nat, s: System, t: System, k: nat, i: nat)
      returns (j: nat)
    requires ValidSettings(c.pool.settings) && events != [] && SysInv(c, s) && t == Do(c, s, events[|events| - 1])
    requires n in s.states && OriginAt(c, start, events[..|events| - 1], n, s.states[n], k, i)
    ensures n in t.states && OriginAt(c, start, events, n, t.states[n], k, j)
  {
    var last := |events| - 1;
    hide After, Do, SysInv, RoutedBy;
    assert events[..last][..k] == events[..k] && events[..last][k] == events[k];
    RouteCarries(c, s, events[last], t, n, After(c, start, events[..k]).pool, events[k].dialled, events[k].caller);
    j := if t.states[n].pin != s.states[n].pin then last else i;
  }

  lemma OriginNow(c: Setup, start: int, events: seq<Event>, n: nat, s: System, t: System)
    requires ValidSettings(c.pool.settings) && events != [] && SysInv(c, s) && t == Do(c, s, events[|events| - 1])
    requires s == After(c, start, events[..|events| - 1]) && n !in s.states && n in t.states
    ensures var last := |events| - 1; OriginAt(c, start, events, n, t.states[n], last, last)
  {
    hide After, Do, SysInv, RoutedBy;
    FirstArrival(c, s, events[|events| - 1], t, n);
  }

  lemma RouteCarries(c: Setup, s: System, e: Event, t: System, n: nat, pool: Db, dialled: string, caller: string)
    requires ValidSettings(c.pool.settings) && SysInv(c, s) && t == Do(c, s, e)
    requires n in s.states && RoutedBy(s.states[n], pool, dialled, caller)
    ensures n in t.states && RoutedBy(t.states[n], pool, dialled, caller)
    ensures t.states[n].pin != s.states[n].pin ==> t.states[n].pin.Some? && e == Typed(n, t.states[n].pin.value)
  {
    hide SysInv, Do, RoutedBy;
    MarksStep(c, s, e, t, n);
    RouteStays(c, s, e, t, n);
    SameRoute(s.states[n], t.states[n], pool, dialled, caller);
  }

  lemma SameRoute(st: CallState, after: CallState, pool: Db, dialled: string, caller: string)
    requires RoutedBy(st, pool, dialled, caller)
    requires after.resolvedAt == st.resolvedAt && after.key == st.key && after.decision == st.decision
    ensures RoutedBy(after, pool, dialled, caller)
  {
  }

  lemma FirstArrival(c: Setup, s: System, e: Event, t: System, n: nat)
    requires ValidSettings(c.pool.settings) && SysInv(c, s) && t == Do(c, s, e) && n !in s.states && n in t.states
    ensures e.Arrive? && e.n == n && RoutedBy(t.states[n], s.pool, e.dialled, e.caller) && t.states[n].pin.None?
  {
    hide SysInv, RoutedBy, StepArrive;
    MarksStep(c, s, e, t, n);
    DoIs(c, s, e);
    hide Do;
    ArrivalAdds(c, s, n, e.dialled, e.caller);
    ArrivalRoutes(c, s, n, e.dialled, e.caller);
  }
}
