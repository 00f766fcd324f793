/** Each step of the call machine keeps what every call keeps. */
module CallSteps {
  import opened Basics
  import opened Crypto
  import opened Schema
  import opened Sessions
  import opened Routing
  import opened Lifecycle
  import opened Pool
  import opened Journal
  import opened Causes
  import opened Stasis
  import opened Calls

  lemma TypedOk(c: Setup, s: System, n: nat, code: string)
    requires AllOk(s)
    ensures AllOk(StepTyped(c, s, n, code))
  {
    hide AllOk, SelectByCode;
    if Runs(s, n) && s.states[n].task.Asking? {
      CallFacts(s, n);
      var was, row := s.states[n], s.journal[s.states[n].call];
      var candidate := if code != "" then SelectByCode(was.task.candidates, code) else None;
      var st := if candidate.Some? then was.(task := Attaching(candidate.value), pin := Some(code))
                else was.(task := NextAttempt(c, was.task.candidates, was.task.attempt + 1));
      assert StepTyped(c, s, n, code) == Put(s, n, st);
      assert CallOk(st, row, n in s.registered, s.pump, n);
      hide CallOk, RowSound, StepTyped;
      Moved(s, Put(s, n, st), n, st, row);
    }
  }

  lemma AttachDoneOk(s: System, n: nat)
    requires AllOk(s)
    ensures AllOk(StepAttachDone(s, n))
  {
    hide AllOk;
    if Runs(s, n) && s.states[n].task.Attaching? {
      CallFacts(s, n);
      var was, candidate := s.states[n], s.states[n].task.candidate;
      var stored := candidate.session in s.pool.sessions;
      var st := was.(task := if stored then Connecting(candidate) else Over);
      var row := s.journal[was.call];
      var after := if stored then Attached(row, candidate.session, candidate.direction) else row;
      AttachedOk(was, st, row, after, n in s.registered, s.pump, n, s.pool.now);
      hide CallOk, RowSound;
      Moved(s, StepAttachDone(s, n), n, st, after);
    }
  }

  lemma AttachedOk(was: CallState, st: CallState, row: Call, after: Call, live: bool, pump: Pump, n: nat, now: int)
    requires CallOk(was, row, live, pump, n) && RowSound(was, row, now) && was.task.Attaching?
    requires || (st == was.(task := Over) && after == row)
             || (st == was.(task := Connecting(was.task.candidate))
                 && after == Attached(row, was.task.candidate.session, was.task.candidate.direction))
    ensures CallOk(st, after, live, pump, n) && RowSound(st, after, now)
  {
  }

  lemma BeginOk(s: System, n: nat)
    requires AllOk(s)
    ensures AllOk(StepBegin(s, n))
  {
    hide AllOk;
    var t := StepBegin(s, n);
    if t != s {
      CallFacts(s, n);
      var st, row := t.states[n], t.journal[s.states[n].call];
      assert CallOk(st, row, n in t.registered, t.pump, n);
      hide CallOk, RowSound;
      Moved(s, t, n, st, row);
    }
  }

  lemma CheckLimitOk(s: System, n: nat)
    requires AllOk(s)
    ensures AllOk(StepCheckLimit(s, n))
  {
    hide AllOk;
    var t := StepCheckLimit(s, n);
    if t != s {
      CallFacts(s, n);
      var st, row := t.states[n], t.journal[s.states[n].call];
      assert CallOk(st, row, n in t.registered, t.pump, n);
      hide CallOk, RowSound;
      Moved(s, t, n, st, row);
    }
  }

  lemma BridgeMadeOk(s: System, n: nat, ok: bool)
    requires AllOk(s)
    ensures AllOk(StepBridgeMade(s, n, ok))
  {
    hide AllOk;
    var t := StepBridgeMade(s, n, ok);
    if t != s {
      CallFacts(s, n);
      var st, row := t.states[n], t.journal[s.states[n].call];
      assert CallOk(st, row, n in t.registered, t.pump, n);
      hide CallOk, RowSound;
      Moved(s, t, n, st, row);
    }
  }

  lemma LegAddedOk(s: System, n: nat, ok: bool)
    requires AllOk(s)
    ensures AllOk(StepLegAdded(s, n, ok))
  {
    hide AllOk;
    var t := StepLegAdded(s, n, ok);
    if t != s {
      CallFacts(s, n);
      var st, row := t.states[n], t.journal[s.states[n].call];
      assert CallOk(st, row, n in t.registered, t.pump, n);
      hide CallOk, RowSound;
      Moved(s, t, n, st, row);
    }
  }

  lemma DialOk(s: System, n: nat, ok: bool)
    requires AllOk(s)
    ensures AllOk(StepDial(s, n, ok))
  {
    hide AllOk;
    var t := StepDial(s, n, ok);
    if t != s {
      CallFacts(s, n);
      var st, row := t.states[n], t.journal[s.states[n].call];
      assert CallOk(st, row, n in t.registered, t.pump, n);
      hide CallOk, RowSound;
      Moved(s, t, n, st, row);
    }
  }

  lemma DialReturnedOk(s: System, n: nat)
    requires AllOk(s)
    ensures AllOk(StepDialReturned(s, n))
  {
    hide AllOk;
    var t := StepDialReturned(s, n);
    if t != s {
      CallFacts(s, n);
      var st, row := t.states[n], t.journal[s.states[n].call];
      assert CallOk(st, row, n in t.registered, t.pump, n);
      hide CallOk, RowSound;
      Moved(s, t, n, st, row);
    }
  }

  lemma ReleaseOk(s: System, n: nat, unbridged: bool)
    requires AllOk(s)
    ensures AllOk(StepRelease(s, n, unbridged))
  {
    hide AllOk;
    var t := StepRelease(s, n, unbridged);
    if t != s {
      CallFacts(s, n);
      var st, row := t.states[n], t.journal[s.states[n].call];
      assert CallOk(st, row, n in t.registered, t.pump, n);
      hide CallOk, RowSound;
      Moved(s, t, n, st, row);
    }
  }

  lemma CloseRowOk(s: System, n: nat)
    requires AllOk(s)
    ensures AllOk(StepCloseRow(s, n))
  {
    hide AllOk;
    if Runs(s, n) && s.states[n].teardown.Closing? {
      CallFacts(s, n);
      var t, was, row := StepCloseRow(s, n), s.states[n], s.journal[s.states[n].call];
      var st, after := t.states[n], t.journal[was.call];
      if SessionGone(s, n) {
        StuckOk(was, st, row, s.pump, t.pump, n, s.pool.now);
      } else {
        ClosedOk(was, st, row, after, s.pump, n, s.pool.now);
      }
      hide CallOk, RowSound;
      Moved(s, t, n, st, after);
    }
  }

  lemma StuckOk(was: CallState, st: CallState, row: Call, pump: Pump, free: Pump, n: nat, now: int)
    requires CallOk(was, row, true, pump, n) && RowSound(was, row, now) && was.teardown.Closing? && was.session.Some?
    requires st == was.(teardown := Stuck) && free == if was.teardown.pumped then Free else pump
    ensures CallOk(st, row, true, free, n) && RowSound(st, row, now) && !Done(st)
  {
  }

  lemma ClosedOk(was: CallState, st: CallState, row: Call, after: Call, pump: Pump, n: nat, now: int)
    requires CallOk(was, row, true, pump, n) && RowSound(was, row, now) && was.teardown.Closing?
    requires st == was.(teardown := RowClosed(was.teardown.cause, was.teardown.pumped))
    requires after == Finished(row, now, Some(was.teardown.status), was.teardown.cause, was.session, was.direction)
    ensures CallOk(st, after, true, pump, n) && RowSound(st, after, now) && Done(st) && !Done(was)
  {
  }

  lemma ForgetOk(s: System, n: nat)
    requires AllOk(s)
    ensures AllOk(StepForget(s, n))
  {
    hide AllOk;
    var t := StepForget(s, n);
    if t != s {
      CallFacts(s, n);
      var st, row := t.states[n], t.journal[s.states[n].call];
      assert CallOk(st, row, n in t.registered, t.pump, n);
      hide CallOk, RowSound;
      Moved(s, t, n, st, row);
    }
  }

  lemma OutboundStartOk(s: System, n: nat)
    requires AllOk(s)
    ensures AllOk(StepOutboundStart(s, n))
  {
    hide AllOk;
    var t := StepOutboundStart(s, n);
    if t != s {
      CallFacts(s, n);
      var st, row := t.states[n], t.journal[s.states[n].call];
      assert CallOk(st, row, n in t.registered, t.pump, n);
      hide CallOk, RowSound;
      Moved(s, t, n, st, row);
    }
  }

  lemma MarkedOk(s: System, n: nat)
    requires AllOk(s)
    ensures AllOk(StepMarked(s, n))
  {
    hide AllOk;
    var t := StepMarked(s, n);
    if t != s {
      CallFacts(s, n);
      var st, row := t.states[n], t.journal[s.states[n].call];
      assert row == MarkedAnswered(s.journal[st.call], s.pool.now, st.bridge) && st.answered;
      assert TaskOk(st, row) && CauseOk(st, row) && TeardownOk(st, row, n in t.registered, t.pump, n);
      hide CallOk, RowSound;
      Moved(s, t, n, st, row);
    }
  }

  lemma AnswerFailedOk(s: System, n: nat)
    requires AllOk(s)
    ensures AllOk(StepAnswerFailed(s, n))
  {
    if Runs(s, n) && s.states[n].task.Asking? && s.states[n].task.attempt == 1 {
      TaskEnds(s, n);
      assert Tracked(s, n);
      BeginFinishOk(Put(s, n, s.states[n].(task := Over)), n, Some(Failed), None, false);
    }
  }

  /** A task may end before anything was dialled. */
  lemma TaskEnds(s: System, n: nat)
    requires AllOk(s) && Runs(s, n) && (s.states[n].task.Asking? || s.states[n].task.Rejecting?)
    ensures AllOk(Put(s, n, s.states[n].(task := Over)))
    ensures !s.states[n].dialled && !s.states[n].answered && s.pump != Joining(n) && s.pump != Marking(n)
  {
    assert Tracked(s, n) && RowTracked(s, s.states[n].call);
    var st, row := s.states[n].(task := Over), s.journal[s.states[n].call];
    assert CallOk(st, row, n in s.registered, s.pump, n);
    hide CallOk, RowSound;
    Moved(s, Put(s, n, st), n, st, row);
  }

  lemma RejectEndsOk(s: System, n: nat)
    requires AllOk(s)
    ensures AllOk(StepRejectEnds(s, n))
  {
    if Runs(s, n) && s.states[n].task.Rejecting? {
      TaskEnds(s, n);
      assert Tracked(s, n);
      BeginFinishOk(Put(s, n, s.states[n].(task := Over)), n, Some(s.states[n].task.status), Some(REJECT_CAUSE), false);
    }
  }

  lemma WatchdogOk(s: System, n: nat)
    requires AllOk(s)
    ensures AllOk(StepWatchdog(s, n))
  {
    hide AllOk, TaskOk, TeardownOk, CauseOk, RowSound;
    if Runs(s, n) && s.states[n].watchdog {
      CallFacts(s, n);
      hide CallOk;
      var was, row := s.states[n], s.journal[s.states[n].call];
      var off := was.(watchdog := false);
      var st := if was.answered || was.teardown != Open then off
                else off.(late := true, teardown := Releasing(NoAnswer, Some(NO_ANSWER_CAUSE), was.outbound, false));
      WatchdogPuts(s, n, st);
      hide StepWatchdog;
      WatchdogMoves(s, Put(s, n, st), n, st, row);
    }
  }

  lemma PutTwice(s: System, n: nat, x: CallState, y: CallState)
    ensures Put(Put(s, n, x), n, y) == Put(s, n, y)
  {
    assert s.states[n := x][n := y] == s.states[n := y];
  }

  lemma WatchdogPuts(s: System, n: nat, st: CallState)
    requires Runs(s, n) && s.states[n].watchdog
    requires var off := s.states[n].(watchdog := false);
             st == if off.answered || off.teardown != Open then off
                   else off.(late := true, teardown := Releasing(NoAnswer, Some(NO_ANSWER_CAUSE), off.outbound, false))
    ensures StepWatchdog(s, n) == Put(s, n, st)
  {
    PutTwice(s, n, s.states[n].(watchdog := false, late := true), st);
  }

  lemma WatchdogMoves(s: System, t: System, n: nat, st: CallState, row: Call)
    requires AllOk(s) && Runs(s, n) && s.states[n].watchdog && row == s.journal[s.states[n].call]
    requires CallOk(s.states[n], row, true, s.pump, n) && RowSound(s.states[n], row, s.pool.now)
    requires t == Put(s, n, st)
    requires var off := s.states[n].(watchdog := false);
             st == off || (!off.answered && off.teardown == Open
                           && st == off.(late := true,
                                 teardown := Releasing(NoAnswer, Some(NO_ANSWER_CAUSE), off.outbound, false)))
    ensures AllOk(t)
  {
    assert TaskOk(st, row) && CauseOk(st, row) && TeardownOk(st, row, true, s.pump, n);
    hide CallOk, RowSound;
    Moved(s, t, n, st, row);
  }

  lemma JoinedOk(s: System, n: nat, ok: bool)
    requires AllOk(s)
    ensures AllOk(StepJoined(s, n, ok))
  {
    hide AllOk;
    if Serves(s, n) && s.pump == Joining(n) {
      CallFacts(s, n);
      var t, was, row := StepJoined(s, n, ok), s.states[n], s.journal[s.states[n].call];
      var st := t.states[n];
      if ok && HasBridge(s, n) {
        AnsweredOk(was, st, row, n in s.registered, n, s.pool.now);
      } else {
        UnjoinedOk(was, st, row, n in s.registered, t.pump, n, s.pool.now);
      }
      hide CallOk, RowSound;
      JoinedMoves(s, n, ok);
      hide StepJoined;
      Moved(s, t, n, st, row);
    }
  }

  lemma JoinedMoves(s: System, n: nat, ok: bool)
    requires Serves(s, n) && s.pump == Joining(n)
    ensures var t := StepJoined(s, n, ok);
            && n in t.states && t.states == s.states[n := t.states[n]] && t.states[n].call == s.states[n].call
            && t.journal == s.journal && t.nextCall == s.nextCall && t.pool == s.pool && t.registered == s.registered
            && t.ended == s.ended && PumpFor(t.pump, n)
  {
    hide InferStatus;
  }

  lemma AnsweredOk(was: CallState, st: CallState, row: Call, live: bool, n: nat, now: int)
    requires CallOk(was, row, live, Joining(n), n) && RowSound(was, row, now)
    requires st == was.(answered := true, joining := false, overtaken := was.teardown != Open)
    ensures CallOk(st, row, live, Marking(n), n) && RowSound(st, row, now) && Done(st) == Done(was)
  {
  }

  lemma UnjoinedOk(was: CallState, st: CallState, row: Call, live: bool, pump: Pump, n: nat, now: int)
    requires CallOk(was, row, live, Joining(n), n) && RowSound(was, row, now)
    requires var off := was.(joining := false);
             if was.teardown != Open then st == off && pump == Free
             else st == off.(teardown := Releasing(Failed, None, off.outbound, true)) && pump == Finishing(n)
    ensures CallOk(st, row, live, pump, n) && RowSound(st, row, now) && Done(st) == Done(was)
  {
  }

  lemma PoppedKeeps(s: System, outToIn: map<nat, nat>)
    requires AllOk(s)
    ensures AllOk(s.(outToIn := outToIn))
  {
    var t := s.(outToIn := outToIn);
    forall n | n in t.states ensures Tracked(t, n) { assert Tracked(s, n); }
    forall id | id in t.journal ensures RowTracked(t, id) { assert RowTracked(s, id); }
  }

  lemma StasisEndOk(s: System, inbound: bool, n: nat)
    requires AllOk(s)
    ensures AllOk(StepStasisEnd(s, inbound, n))
  {
    if s.pump == Free {
      if inbound {
        if Runs(s, n) { BeginFinishOk(s, n, None, None, true); }
      } else if n in s.outToIn {
        PoppedKeeps(s, s.outToIn - {n});
        if Runs(s, s.outToIn[n]) { BeginFinishOk(s.(outToIn := s.outToIn - {n}), s.outToIn[n], None, None, true); }
      }
    }
  }

  lemma DestroyedOk(s: System, inbound: bool, n: nat, cause: Option<int>)
    requires AllOk(s) && QueueOk(s)
    ensures AllOk(StepDestroyed(s, inbound, n, cause))
  {
    if s.pump == Free {
      if inbound {
        if Runs(s, n) { BeginFinishOk(s, n, None, cause, true); } else { LateCauseOk(s, n, cause); }
      } else if n in s.outToIn {
        var k := s.outToIn[n];
        PoppedKeeps(s, s.outToIn - {n});
        if Runs(s, k) {
          if s.states[k].answered { BeginFinishOk(s, k, None, cause, true); }
          else { BeginFinishOk(s, k, Some(UnansweredStatus(cause, NoAnswer)), cause, true); }
        }
      }
    }
  }

  /** An entry of the queue names a forgotten call still waiting for its cause, and that call's own row. */
  predicate Waiting(s: System, p: Pending) {
    && p.channel in s.states && s.states[p.channel].call == p.call
    && s.states[p.channel].stamp.Some? && !s.states[p.channel].popped
  }

  ghost predicate QueueOk(s: System) {
    forall i {:trigger s.pending[i]} :: 0 <= i < |s.pending| ==> Waiting(s, s.pending[i])
  }

  lemma LateCauseOk(s: System, n: nat, cause: Option<int>)
    requires AllOk(s) && QueueOk(s)
    ensures AllOk(StepLateCause(s, n, cause))
  {
    hide AllOk;
    var t := StepLateCause(s, n, cause);
    if t != s {
      CallFacts(s, n);
      var i := Find(s.pending, n);
      assert Waiting(s, s.pending[i]);
      var st, row := t.states[n], t.journal[s.states[n].call];
      assert CallOk(st, row, n in t.registered, t.pump, n);
      hide CallOk, RowSound;
      Moved(s, t, n, st, row);
    }
  }

  // ---- Arrival -------------------------------------------------------------------------------

  lemma ArriveOk(c: Setup, s: System, n: nat, dialled: string, caller: string)
    requires ValidSettings(c.pool.settings) && AllOk(s)
    ensures AllOk(StepArrive(c, s, n, dialled, caller))
  {
    var t := StepArrive(c, s, n, dialled, caller);
    if t != s {
      ResolveWrites(c.pool, s.pool, dialled, caller);
      NewCallOk(c, s, n, dialled, caller);
      hide Resolve, CallOk, RowSound;
      Added(s, t, n, t.states[n], t.journal[s.nextCall]);
    }
  }

  lemma NewCallOk(c: Setup, s: System, n: nat, dialled: string, caller: string)
    requires ValidSettings(c.pool.settings) && s.pump == Free && n !in s.states
    ensures var t := StepArrive(c, s, n, dialled, caller);
            && t.pump == Free && n in t.states && s.nextCall in t.journal && t.states[n].call == s.nextCall
            && CallOk(t.states[n], t.journal[s.nextCall], true, Free, n)
                  && RowSound(t.states[n], t.journal[s.nextCall], s.pool.now)
            && !Done(t.states[n])
  {
    hide Resolve;
  }

  /** A call and its row are added. */
  lemma Added(s: System, t: System, n: nat, st: CallState, row: Call)
    requires AllOk(s) && s.pump == Free && n !in s.states && st.call == s.nextCall
    requires t.states == s.states[n := st] && t.journal == s.journal[s.nextCall := row] && t.nextCall == s.nextCall + 1
    requires t.registered == s.registered + {n} && t.pump == Free && t.ended == s.ended && t.pool.now == s.pool.now
    requires CallOk(st, row, true, Free, n) && RowSound(st, row, s.pool.now) && !Done(st)
    ensures AllOk(t)
  {
    assert row.channel == n;
    hide CallOk, RowSound, Done;
    forall id | id in s.journal ensures id != s.nextCall { assert RowTracked(s, id); }
    forall m | m in t.states ensures Tracked(t, m) {
      if m != n { assert Tracked(s, m); }
    }
    forall id | id in t.journal ensures RowTracked(t, id) {
      if id != s.nextCall { RowStays(s, t, n, id); }
    }
    hide Tracked, RowTracked;
  }

  lemma RowStays(s: System, t: System, n: nat, id: nat)
    requires AllOk(s) && n !in s.states && id in s.journal && id != s.nextCall
    requires n in t.states && t.states == s.states[n := t.states[n]] && t.pool.now == s.pool.now
               && t.nextCall == s.nextCall + 1
    requires s.nextCall in t.journal && t.journal == s.journal[s.nextCall := t.journal[s.nextCall]]
    ensures RowTracked(t, id)
  {
    assert RowTracked(s, id);
    hide RowSound, AllOk;
  }

  /** Time passes and the pool changes; a row once coherent stays so, whatever session it names. */
  lemma PoolOpOk(s: System, pool: Db)
    requires AllOk(s) && s.pool.now <= pool.now
    ensures AllOk(s.(pool := pool))
  {
    var t := s.(pool := pool);
    forall n | n in t.states ensures Tracked(t, n) { assert Tracked(s, n); }
    forall id | id in t.journal ensures RowTracked(t, id) { assert RowTracked(s, id); }
    hide Tracked, RowTracked;
  }

  /** A purge takes at most the reference of a row. */
  predicate Loosened(row: Call, after: Call) {
    after == row || after == row.(session := None)
  }

  lemma LoosenOk(s: System, t: System)
    requires AllOk(s) && t == s.(journal := t.journal, dropped := t.dropped) && t.journal.Keys == s.journal.Keys
    requires forall id :: id in s.journal ==> Loosened(s.journal[id], t.journal[id])
    ensures AllOk(t)
  {
    forall n | n in t.states ensures Tracked(t, n) {
      assert Tracked(s, n);
      LoosenedCall(s.states[n], s.journal[s.states[n].call], t.journal[s.states[n].call], n in s.registered, s.pump, n);
    }
    forall id | id in t.journal ensures RowTracked(t, id) {
      assert RowTracked(s, id);
      LoosenedRow(s.states[s.journal[id].channel], s.journal[id], t.journal[id], s.pool.now);
    }
    hide Tracked, RowTracked;
  }

  lemma LoosenedCall(st: CallState, row: Call, after: Call, live: bool, pump: Pump, n: nat)
    requires CallOk(st, row, live, pump, n) && Loosened(row, after)
    ensures CallOk(st, after, live, pump, n)
  {
  }

  lemma LoosenedRow(st: CallState, row: Call, after: Call, now: int)
    requires RowSound(st, row, now) && Loosened(row, after)
    ensures RowSound(st, after, now)
  {
  }
}
