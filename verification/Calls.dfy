/** What every call keeps, whatever the interleaving: its task, its teardown and its journal row. */
module Calls {
  import opened Basics
  import opened Crypto
  import opened Schema
  import opened Sessions
  import opened Routing
  import opened Lifecycle
  import opened Pool
  import opened Journal
  import opened Causes
  import opened Stasis

  // ---- One call ----------------------------------------------------------------------------

  /** The candidate a decision leads to, at once or by the PIN typed. */
  predicate Chosen(decision: Decision, candidate: Candidate, pin: Option<string>) {
    match decision
    case Connect(only) => pin.None? && candidate == only
    case AskCode(candidates) => pin.Some? && pin.value != "" && SelectByCode(candidates, pin.value) == Some(candidate)
    case Reject(_) => false
  }

  /** The row names this session, or none once that has been purged. */
  predicate Refers(row: Call, session: nat) {
    row.session.None? || row.session == Some(session)
  }

  predicate TaskOk(st: CallState, row: Call) {
    && (match st.task
        case Rejecting(status) => status != Answered
        case Asking(candidates, _) => st.chosen.None? && st.decision == AskCode(candidates)
        case Attaching(candidate) => st.chosen.None? && Chosen(st.decision, candidate, st.pin)
        case Connecting(candidate) =>
          st.chosen.None? && Chosen(st.decision, candidate, st.pin) && Refers(row, candidate.session)
        case Counting(candidate) => st.chosen == Some(candidate) && st.bridge.None?
        case SettingUp => st.chosen.Some? && st.bridge.None?
        case Adding => st.chosen.Some? && st.bridge.Some?
        case Dialling => st.chosen.Some? && st.bridge.Some?
        case Dialled => st.dialled
        case Over => true)
    && (st.chosen.Some? ==>
          && Chosen(st.decision, st.chosen.value, st.pin)
          && st.session == Some(st.chosen.value.session) && Refers(row, st.chosen.value.session)
          && st.callee == Some(st.chosen.value.callee) && st.direction == Some(st.chosen.value.direction))
    && (st.chosen.None? ==> st.session.None? && st.bridge.None?)
    && (st.dialled ==> st.chosen.Some? && st.bridge.Some? && (st.task.Dialled? || st.task.Over?))
    && (st.watchdog ==> st.dialled)
    && (st.entered ==> st.dialled)
    && (st.late ==> st.dialled)
    && (st.answered ==> st.entered && (st.late ==> st.overtaken))
    && (st.overtaken ==> st.answered && (st.late || st.teardown.Stuck?))
    && (st.joining ==> st.entered && !st.answered)
  }

  predicate Done(st: CallState) {
    st.teardown.RowClosed? || st.teardown.Gone?
  }

  /** A task that tears its call down does so before dialling, or after giving the callee up. */
  predicate OwnTeardown(st: CallState) {
    st.late || (!st.dialled && st.task.Over?)
  }

  /** The status a teardown will write agrees with the answer, unless the answer overtook the watchdog. */
  predicate StatusFits(st: CallState, status: CallStatus) {
    if st.overtaken then status != Answered else (status == Answered <==> st.answered)
  }

  predicate TeardownOk(st: CallState, row: Call, live: bool, pump: Pump, n: nat) {
    && (live <==> !st.teardown.Gone?)
    && (row.endedAt.Some? <==> Done(st))
    && (st.late ==> !st.teardown.Open?)
    && (match st.teardown
        case Open => pump != Finishing(n)
        case Releasing(status, _, _, pumped) =>
          StatusFits(st, status) && (pumped <==> pump == Finishing(n)) && (pumped || OwnTeardown(st))
        case Closing(status, _, pumped) =>
          StatusFits(st, status) && (pumped <==> pump == Finishing(n)) && (pumped || OwnTeardown(st))
        case RowClosed(cause, pumped) => row.cause == cause && (pumped <==> pump == Finishing(n))
            && (pumped || OwnTeardown(st))
        case Gone => pump != Finishing(n) && st.task.Over? && !st.watchdog
        case Stuck => pump != Finishing(n) && st.session.Some?)
    && (st.joining <==> pump == Joining(n))
    && (pump == Joining(n) ==> st.teardown.Open? || st.late || st.teardown.Stuck?)
    && (pump == Marking(n) ==> (st.teardown.Open? || st.overtaken) && st.answered)
    && (row.answeredAt.Some? <==> st.answered && pump != Marking(n))
  }

  /** A call is waiting for its cause from the moment it is forgotten without one until that is popped. */
  predicate CauseOk(st: CallState, row: Call) {
    && (st.stamp.Some? ==> st.teardown.Gone?)
    && (st.teardown.Gone? && st.stamp.None? ==> row.cause.Some?)
    && (st.stamp.Some? && !st.popped ==> row.cause.None?)
    && (st.popped ==> st.stamp.Some?)
  }

  predicate CallOk(st: CallState, row: Call, live: bool, pump: Pump, n: nat) {
    row.channel == n && TaskOk(st, row) && TeardownOk(st, row, live, pump, n) && CauseOk(st, row)
  }

  /** The one way a closed row goes wrong: the callee was bridged after the watchdog had begun to tear the call down. */
  predicate Spoilt(st: CallState, row: Call) {
    st.overtaken && row.answeredAt.Some? && row.endedAt.Some?
  }

  /** A row closed as unanswered that records an answer, or closed before it was answered. */
  predicate Broken(row: Call) {
    row.answeredAt.Some? && row.endedAt.Some? && (row.status != Answered || row.duration.None?)
  }

  predicate RowSound(st: CallState, row: Call, now: int) {
    if Spoilt(st, row) then Broken(row) else Coherent(row, now)
  }

  lemma BrokenIsIncoherent(row: Call, now: int)
    requires Broken(row)
    ensures !Coherent(row, now)
  {
  }

  // ---- All calls -----------------------------------------------------------------------------

  predicate Tracked(s: System, n: nat) {
    && n in s.states && s.states[n].call in s.journal
    && CallOk(s.states[n], s.journal[s.states[n].call], n in s.registered, s.pump, n)
  }

  predicate RowTracked(s: System, id: nat) {
    && id in s.journal && id < s.nextCall
    && s.journal[id].channel in s.states && s.states[s.journal[id].channel].call == id
    && RowSound(s.states[s.journal[id].channel], s.journal[id], s.pool.now)
  }

  ghost predicate NoDuplicates(ended: seq<nat>) {
    forall i, j :: 0 <= i < j < |ended| ==> ended[i] != ended[j]
  }

  ghost predicate AllOk(s: System) {
    && (forall n {:trigger Tracked(s, n)} :: n in s.states ==> Tracked(s, n))
    && (forall id {:trigger RowTracked(s, id)} :: id in s.journal ==> RowTracked(s, id))
    && s.registered <= s.states.Keys
    && (s.pump.Free? || s.pump.n in s.states)
    && NoDuplicates(s.ended)
    && (forall n :: n in s.ended <==> n in s.states && Done(s.states[n]))
  }

  lemma CallFacts(s: System, n: nat)
    requires AllOk(s) && n in s.states
    ensures Tracked(s, n) && RowTracked(s, s.states[n].call)
  {
    assert Tracked(s, n) && RowTracked(s, s.states[n].call);
  }

  predicate PumpFor(pump: Pump, n: nat) {
    pump.Free? || pump.n == n
  }

  /** Only call `n` and its row changed; the pump, if it changed, went between idling and serving `n`. */
  predicate Local(s: System, t: System, n: nat) {
    && n in s.states && n in t.states && t.states == s.states[n := t.states[n]]
    && s.states[n].call in s.journal && t.states[n].call == s.states[n].call && t.states[n].call in t.journal
    && t.journal == s.journal[s.states[n].call := t.journal[t.states[n].call]]
    && t.nextCall == s.nextCall && t.pool == s.pool
    && t.registered - {n} == s.registered - {n}
    && (t.pump == s.pump || (PumpFor(s.pump, n) && PumpFor(t.pump, n)))
  }

  predicate EndsTogether(s: System, t: System, n: nat)
    requires n in s.states && n in t.states
  {
    || (t.ended == s.ended && Done(t.states[n]) == Done(s.states[n]))
    || (t.ended == s.ended + [n] && !Done(s.states[n]) && Done(t.states[n]))
  }

  lemma LocalKeeps(s: System, t: System, n: nat)
    requires AllOk(s) && Local(s, t, n) && EndsTogether(s, t, n)
    requires Tracked(t, n) && RowSound(t.states[n], t.journal[t.states[n].call], t.pool.now)
    ensures AllOk(t)
  {
    assert Tracked(s, n);
    forall m | m in t.states ensures Tracked(t, m) {
      if m != n {
        assert Tracked(s, m);
        OthersKeep(s, t, n, m);
      }
    }
    forall id | id in t.journal ensures RowTracked(t, id) {
      assert RowTracked(s, id);
    }
    LocalEnds(s, t, n);
    LocalRegisters(s, t, n);
    hide Tracked, RowTracked;
  }

  lemma OthersKeep(s: System, t: System, n: nat, m: nat)
    requires Local(s, t, n) && m != n && Tracked(s, m) && Tracked(s, n)
    ensures Tracked(t, m)
  {
    assert m in t.registered <==> m in s.registered by { assert m in t.registered - {n} <==> m in s.registered - {n}; }
    assert s.journal[s.states[m].call].channel == m && s.journal[s.states[n].call].channel == n;
    assert t.journal[t.states[m].call] == s.journal[s.states[m].call];
    hide TaskOk, CauseOk;
  }

  lemma LocalRegisters(s: System, t: System, n: nat)
    requires s.registered <= s.states.Keys && Local(s, t, n)
    ensures t.registered <= t.states.Keys
  {
    forall m | m in t.registered ensures m in t.states {
      if m != n { assert m in t.registered - {n}; }
    }
  }

  lemma LocalEnds(s: System, t: System, n: nat)
    requires Local(s, t, n) && EndsTogether(s, t, n)
    requires NoDuplicates(s.ended) && forall m :: m in s.ended <==> m in s.states && Done(s.states[m])
    ensures NoDuplicates(t.ended) && forall m :: m in t.ended <==> m in t.states && Done(t.states[m])
  {
    if t.ended != s.ended {
      assert n !in s.ended;
      assert forall i :: 0 <= i < |s.ended| ==> s.ended[i] in s.ended;
    }
  }

  /** Call `n` moves to state `st`, its row to `row`. */
  lemma Moved(s: System, t: System, n: nat, st: CallState, row: Call)
    requires AllOk(s) && n in s.states && st.call == s.states[n].call
    requires t.states == s.states[n := st] && t.nextCall == s.nextCall && t.pool == s.pool
    requires t.journal == s.journal || t.journal == s.journal[st.call := row]
    requires t.journal == s.journal ==> st.call in s.journal && row == s.journal[st.call]
    requires t.registered - {n} == s.registered - {n}
    requires t.pump == s.pump || (PumpFor(s.pump, n) && PumpFor(t.pump, n))
    requires || (t.ended == s.ended && Done(st) == Done(s.states[n]))
             || (t.ended == s.ended + [n] && !Done(s.states[n]) && Done(st))
    requires CallOk(st, row, n in t.registered, t.pump, n)
    requires RowSound(st, row, s.pool.now)
    ensures AllOk(t)
  {
    assert Tracked(s, n) && RowTracked(s, st.call);
    assert t.journal == s.journal[st.call := row];
    hide CallOk, RowSound, Done;
    assert Tracked(t, n);
    LocalKeeps(s, t, n);
  }

  // ---- Teardown begins --------------------------------------------------------------------------

  /** `_finish` may be called so: by the pump when it is idle, or by a task of a call the pump is not serving. */
  predicate MayFinish(s: System, n: nat, status: Option<CallStatus>, pumped: bool)
    requires n in s.states
  {
    && (if pumped then s.pump == Free else s.pump != Joining(n) && s.pump != Marking(n) && OwnTeardown(s.states[n]))
    && (status.Some? ==> (status.value == Answered <==> s.states[n].answered))
  }

  lemma BeginFinishOk(s: System, n: nat, status: Option<CallStatus>, cause: Option<int>, pumped: bool)
    requires AllOk(s) && n in s.states && n in s.registered && MayFinish(s, n, status, pumped)
    ensures AllOk(BeginFinish(s, n, status, cause, pumped))
  {
    var t := BeginFinish(s, n, status, cause, pumped);
    assert Tracked(s, n) && RowTracked(s, s.states[n].call);
    if t != s {
      var st, row := t.states[n], s.journal[s.states[n].call];
      assert CallOk(st, row, n in t.registered, t.pump, n);
      hide CallOk, RowSound;
      Moved(s, t, n, st, row);
    }
  }
}
