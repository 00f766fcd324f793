/**
 The call machine (app/ari/stasis.py) as a state machine over its await points.

 The event pump is serial: a handler that waits keeps the pump. Each call owns tasks that run
 between the pump's steps: the one that rejects, asks for a PIN or connects, and the watchdog. A
 step is what one of them does between two waits, or an event the pump takes; any order of steps
 is a run. A step whose guard fails changes nothing, so every sequence of steps is a run.

 The pool of proxy numbers runs beside it; the journal refers to its sessions, and the foreign key
 clears what a purge deletes and refuses what is not there. A row that a purge deletes is `dropped`.
 A failed Asterisk request has no effect; inbound channel identifiers are new; no call in progress
 outlasts the retention of its row. The callee may answer at any time, also while the watchdog is
 giving it up. `Out(n)` is the channel named after inbound channel `n`.
 */
module Stasis {
  import opened Basics
  import opened Crypto
  import opened Schema
  import opened Sessions
  import opened Routing
  import opened Lifecycle
  import opened Pool
  import opened Journal
  import opened Causes

  const REJECT_CAUSE: int := 21
  const NO_ANSWER_CAUSE: int := 19

  datatype Leg = In(of: nat) | Out(of: nat)

  /** Where the main task of a call waits. */
  datatype Task =
    | Rejecting(status: CallStatus)
    | Asking(candidates: seq<Candidate>, attempt: nat)
    | Attaching(candidate: Candidate)
    | Connecting(candidate: Candidate)
    | Counting(candidate: Candidate)
    | SettingUp
    | Adding
    | Dialling
    | Dialled
    | Over

  /**
    How far `_finish` has come; `pumped` tells whether the pump is running it. It is stuck when the
    write that closes the row was refused.
   */
  datatype Teardown =
    | Open
    | Releasing(status: CallStatus, cause: Option<int>, hadOut: bool, pumped: bool)
    | Closing(status: CallStatus, cause: Option<int>, pumped: bool)
    | RowClosed(cause: Option<int>, pumped: bool)
    | Gone
    | Stuck

  /** `CallState`; from `key` on, what the proofs remember of its past. */
  datatype CallState = CallState(
    proxy: string, call: nat, session: Option<nat>, direction: Option<Direction>, callee: Option<string>,
    bridge: Option<nat>, outbound: bool, answered: bool, teardown: Teardown, task: Task, watchdog: bool,
    key: CacheKey, resolvedAt: Db, decision: Decision, pin: Option<string>, chosen: Option<Candidate>,
    dialled: bool, entered: bool, joining: bool, late: bool, overtaken: bool, unbridged: bool,
    stamp: Option<nat>, popped: bool)

  datatype Pump = Free | Joining(n: nat) | Marking(n: nat) | Finishing(n: nat)

  /** An originate request that was accepted. */
  datatype Dial = Dial(call: nat, callee: string, callerId: string, session: nat)

  datatype System = System(
    pool: Db, states: map<nat, CallState>, registered: set<nat>, outToIn: map<nat, nat>,
    journal: map<nat, Call>, nextCall: nat, pending: seq<Pending>, puts: nat,
    bridges: map<nat, set<Leg>>, nextBridge: nat, dials: seq<Dial>, ended: seq<nat>, pump: Pump, dropped: set<nat>)

  datatype Setup = Setup(pool: Config, maxAttempts: nat, callRetentionDays: int)

  datatype Event =
    | PoolOp(op: Op)
    | Arrive(n: nat, dialled: string, caller: string)
    | AnswerFailed(n: nat)
    | Typed(n: nat, code: string)
    | AttachDone(n: nat)
    | Begin(n: nat)
    | CheckLimit(n: nat)
    | BridgeMade(n: nat, ok: bool)
    | LegAdded(n: nat, ok: bool)
    | DialAnswered(n: nat, ok: bool)
    | DialReturned(n: nat)
    | RejectEnds(n: nat)
    | WatchdogFires(n: nat)
    | Release(n: nat, unbridged: bool)
    | CloseRow(n: nat)
    | Forget(n: nat)
    | OutboundStart(n: nat)
    | Joined(n: nat, ok: bool)
    | Marked(n: nat)
    | StasisEnd(inbound: bool, n: nat)
    | Destroyed(inbound: bool, n: nat, cause: Option<int>)

  function Initial(start: int): System {
    System(EmptyDb(start), map[], {}, map[], map[], 0, [], 0, map[], 0, [], [], Free, {})
  }

  // ---- Causes and statuses -----------------------------------------------------------------

  /** `CAUSE_TO_STATUS`. */
  function CauseToStatus(cause: int): Option<CallStatus> {
    if cause == 16 then Some(Answered)
    else if cause == 17 || cause == 34 then Some(Busy)
    else if cause == 18 || cause == 19 then Some(NoAnswer)
    else if cause == 21 then Some(Rejected)
    else if cause == 38 || cause == 41 || cause == 42 || cause == 47 then Some(Failed)
    else None
  }

  /** The status a cause stands for when nobody answered. */
  function UnansweredStatus(cause: Option<int>, default: CallStatus): CallStatus {
    var found := CauseToStatus(if cause.Some? then cause.value else 0);
    var status := if found.Some? then found.value else default;
    if status == Answered then NoAnswer else status
  }

  /** `_infer_status`. */
  function InferStatus(answered: bool, cause: Option<int>): CallStatus {
    if answered then Answered else UnansweredStatus(cause, Failed)
  }

  function RejectedWith(status: RejectStatus): CallStatus {
    match status
    case UnknownCaller => CallerUnknown
    case SessionExpired => CallExpired
    case RoutingFailed => Failed
  }

  // ---- Steps ---------------------------------------------------------------------------------

  /** A task of call `n` can run: the call is known and its tasks are not cancelled. */
  predicate Runs(s: System, n: nat) {
    n in s.registered && n in s.states && s.states[n].call in s.journal
  }

  /** The journal as the database has it: the rows written and not deleted since. */
  function Table(s: System): map<nat, Call> {
    Stored(s.journal, s.dropped)
  }

  function Stored(rows: map<nat, Call>, dropped: set<nat>): map<nat, Call> {
    map id | id in rows && id !in dropped :: rows[id]
  }

  function Put(s: System, n: nat, st: CallState): System {
    s.(states := s.states[n := st])
  }

  /** `_finish` up to its first wait. */
  function BeginFinish(s: System, n: nat, status: Option<CallStatus>, cause: Option<int>, pumped: bool): System
    requires n in s.states
  {
    var st := s.states[n];
    if st.teardown != Open then s
    else
      var resolved := if status.Some? then status.value else InferStatus(st.answered, cause);
      Put(s, n, st.(teardown := Releasing(resolved, cause, st.outbound, pumped)))
        .(pump := if pumped then Finishing(n) else s.pump)
  }

  /** The routing and journal transaction of an inbound call, and where its main task begins. */
  function StepArrive(c: Setup, s: System, n: nat, dialled: string, caller: string): System
    requires ValidSettings(c.pool.settings)
  {
    if s.pump != Free || n in s.states then s
    else
      var (pool, routed) := Resolve(c.pool, s.pool, dialled, caller);
      var single := if routed.decision.Connect? then Some(routed.decision.candidate) else None;
      var session := if single.Some? then Some(single.value.session) else None;
      var direction := if single.Some? then Some(single.value.direction) else None;
      var row := Opened(s.pool.now, n, routed.caller, routed.proxy, session, direction);
      var task := match routed.decision
        case Reject(status) => Rejecting(RejectedWith(status))
        case AskCode(candidates) => NextAttempt(c, candidates, 1)
        case Connect(candidate) => Connecting(candidate);
      var key := CacheKey(routed.proxy, if routed.caller.Some? then routed.caller.value else PartyHash(""));
      var st := CallState(
        routed.proxy, s.nextCall, None, None, None, None, false, false, Open, task, false,
        key, s.pool, routed.decision, None, None, false, false, false, false, false, false, None, false);
      Put(s, n, st).(pool := pool, registered := s.registered + {n},
                     journal := s.journal[s.nextCall := row], nextCall := s.nextCall + 1)
  }

  function NextAttempt(c: Setup, candidates: seq<Candidate>, attempt: nat): Task {
    if attempt <= c.maxAttempts then Asking(candidates, attempt) else Rejecting(Rejected)
  }

  /** One attempt of `_ask_for_code`: the digits collected select a candidate, or not. */
  function StepTyped(c: Setup, s: System, n: nat, code: string): System {
    if !Runs(s, n) || !s.states[n].task.Asking? then s
    else
      var st := s.states[n];
      var candidate := if code != "" then SelectByCode(st.task.candidates, code) else None;
      if candidate.Some? then Put(s, n, st.(task := Attaching(candidate.value), pin := Some(code)))
      else Put(s, n, st.(task := NextAttempt(c, st.task.candidates, st.task.attempt + 1)))
  }

  function StepAnswerFailed(s: System, n: nat): System {
    if !Runs(s, n) || !s.states[n].task.Asking? || s.states[n].task.attempt != 1 then s
    else BeginFinish(Put(s, n, s.states[n].(task := Over)), n, Some(Failed), None, false)
  }

  /** The foreign key refuses a session that has been purged, which ends what the call was doing. */
  function StepAttachDone(s: System, n: nat): System {
    if !Runs(s, n) || !s.states[n].task.Attaching? then s
    else if s.states[n].task.candidate.session !in s.pool.sessions then Put(s, n, s.states[n].(task := Over))
    else
      var st, candidate := s.states[n], s.states[n].task.candidate;
      Put(s, n, st.(task := Connecting(candidate)))
        .(journal := s.journal[st.call := Attached(s.journal[st.call], candidate.session, candidate.direction)])
  }

  /** `_connect` up to its first wait. */
  function StepBegin(s: System, n: nat): System {
    if !Runs(s, n) || !s.states[n].task.Connecting? then s
    else
      var st, candidate := s.states[n], s.states[n].task.candidate;
      Put(s, n, st.(session := Some(candidate.session), direction := Some(candidate.direction),
                    callee := Some(candidate.callee), chosen := Some(candidate),
                    task := if candidate.maxCalls.Some? then Counting(candidate) else SettingUp))
  }

  function StepCheckLimit(s: System, n: nat): System {
    if !Runs(s, n) || !s.states[n].task.Counting? || s.states[n].task.candidate.maxCalls.None? then s
    else
      var st, candidate := s.states[n], s.states[n].task.candidate;
      var used := |AnsweredOf(Table(s), candidate.session)|;
      Put(s, n, st.(task := if used >= candidate.maxCalls.value then Rejecting(Rejected) else SettingUp))
  }

  function StepBridgeMade(s: System, n: nat, ok: bool): System {
    if !Runs(s, n) || !s.states[n].task.SettingUp? then s
    else if !ok then Put(s, n, s.states[n].(task := Rejecting(Failed)))
    else
      Put(s, n, s.states[n].(bridge := Some(s.nextBridge), task := Adding))
        .(bridges := s.bridges[s.nextBridge := {}], nextBridge := s.nextBridge + 1)
  }

  function AddLeg(s: System, b: nat, leg: Leg): System
    requires b in s.bridges
  {
    s.(bridges := s.bridges[b := s.bridges[b] + {leg}])
  }

  predicate HasBridge(s: System, n: nat) {
    n in s.states && s.states[n].bridge.Some? && s.states[n].bridge.value in s.bridges
  }

  function StepLegAdded(s: System, n: nat, ok: bool): System {
    if !Runs(s, n) || !s.states[n].task.Adding? then s
    else if !ok || !HasBridge(s, n) then Put(s, n, s.states[n].(task := Rejecting(Failed)))
    else
      AddLeg(Put(s, n, s.states[n].(outbound := true, task := Dialling)), s.states[n].bridge.value, In(n))
        .(outToIn := s.outToIn[n := n])
  }

  /** The originate request takes effect, or fails. */
  function StepDial(s: System, n: nat, ok: bool): System {
    if !Runs(s, n) || !s.states[n].task.Dialling? || s.states[n].callee.None? || s.states[n].session.None? then s
    else if !ok then Put(s, n, s.states[n].(task := Rejecting(Failed))).(outToIn := s.outToIn - {n})
    else
      var st := s.states[n];
      Put(s, n, st.(task := Dialled, dialled := true))
        .(dials := s.dials + [Dial(n, st.callee.value, st.proxy, st.session.value)])
  }

  function StepDialReturned(s: System, n: nat): System {
    if !Runs(s, n) || !s.states[n].task.Dialled? then s
    else Put(s, n, s.states[n].(task := Over, watchdog := true))
  }

  function StepRejectEnds(s: System, n: nat): System {
    if !Runs(s, n) || !s.states[n].task.Rejecting? then s
    else
      BeginFinish(Put(s, n, s.states[n].(task := Over)), n, Some(s.states[n].task.status), Some(REJECT_CAUSE), false)
  }

  function StepWatchdog(s: System, n: nat): System {
    if !Runs(s, n) || !s.states[n].watchdog then s
    else
      var st := s.states[n].(watchdog := false);
      if st.answered || st.teardown != Open then Put(s, n, st)
      else BeginFinish(Put(s, n, st.(late := true)), n, Some(NoAnswer), Some(NO_ANSWER_CAUSE), false)
  }

  /** `_finish`: the legs are hung up and the bridge is destroyed, or that request fails. */
  function StepRelease(s: System, n: nat, unbridged: bool): System {
    if !Runs(s, n) || !s.states[n].teardown.Releasing? then s
    else
      var st, down := s.states[n], s.states[n].teardown;
      Put(s, n, st.(teardown := Closing(down.status, down.cause, down.pumped),
                    unbridged := st.unbridged || (unbridged && st.bridge.Some?)))
        .(outToIn := if down.hadOut then s.outToIn - {n} else s.outToIn,
          bridges := if unbridged && st.bridge.Some? then s.bridges - {st.bridge.value} else s.bridges)
  }

  /** The session the call was bound to has been purged. */
  predicate SessionGone(s: System, n: nat) {
    n in s.states && s.states[n].session.Some? && s.states[n].session.value !in s.pool.sessions
  }

  /** `_finish`: the journal row is closed and the end announced, unless the foreign key refuses the session. */
  function StepCloseRow(s: System, n: nat): System {
    if !Runs(s, n) || !s.states[n].teardown.Closing? then s
    else if SessionGone(s, n) then
      Put(s, n, s.states[n].(teardown := Stuck)).(pump := if s.states[n].teardown.pumped then Free else s.pump)
    else
      var st, down := s.states[n], s.states[n].teardown;
      Put(s, n, st.(teardown := RowClosed(down.cause, down.pumped)))
        .(journal := s.journal[st.call :=
            Finished(s.journal[st.call], s.pool.now, Some(down.status), down.cause, st.session, st.direction)],
          ended := s.ended + [n])
  }

  /** `_finish`: a missing cause is noted, the call forgotten and its tasks cancelled. */
  function StepForget(s: System, n: nat): System {
    if !Runs(s, n) || !s.states[n].teardown.RowClosed? then s
    else
      var st, down := s.states[n], s.states[n].teardown;
      var gone := st.(teardown := Gone, task := Over, watchdog := false);
      var waits := down.cause.None?;
      Put(s, n, if waits then gone.(stamp := Some(s.puts)) else gone)
        .(pending := if waits then Enqueued(s.pending, Pending(n, st.call)) else s.pending,
          puts := if waits then s.puts + 1 else s.puts,
          registered := s.registered - {n},
          pump := if down.pumped then Free else s.pump)
  }

  /** `_on_outbound_start` up to its first wait. */
  function StepOutboundStart(s: System, n: nat): System {
    if s.pump != Free || n !in s.states || !s.states[n].dialled || s.states[n].entered then s
    else
      var joins := n in s.registered && s.states[n].bridge.Some?;
      Put(s, n, s.states[n].(entered := true, joining := joins)).(pump := if joins then Joining(n) else Free)
  }

  /** The pump holds on to the state of the call it serves, torn down or not. */
  predicate Serves(s: System, n: nat) {
    n in s.states && s.states[n].call in s.journal
  }

  /** `_on_outbound_start` after its requests: the leg is bridged, or the call fails. */
  function StepJoined(s: System, n: nat, ok: bool): System {
    if !Serves(s, n) || s.pump != Joining(n) then s
    else if !ok || !HasBridge(s, n) then
      BeginFinish(Put(s, n, s.states[n].(joining := false)).(pump := Free), n, Some(Failed), None, true)
    else
      var st := s.states[n];
      var answered := st.(answered := true, joining := false, overtaken := st.teardown != Open);
      AddLeg(Put(s, n, answered), st.bridge.value, Out(n)).(pump := Marking(n))
  }

  function StepMarked(s: System, n: nat): System {
    if !Serves(s, n) || s.pump != Marking(n) then s
    else
      var st := s.states[n];
      s.(journal := s.journal[st.call := MarkedAnswered(s.journal[st.call], s.pool.now, st.bridge)], pump := Free)
  }

  function StepStasisEnd(s: System, inbound: bool, n: nat): System {
    if s.pump != Free then s
    else if inbound then
      if Runs(s, n) then BeginFinish(s, n, None, None, true) else s
    else if n in s.outToIn then
      var popped := s.(outToIn := s.outToIn - {n});
      if Runs(s, s.outToIn[n]) then BeginFinish(popped, s.outToIn[n], None, None, true) else popped
    else s
  }

  /** The late cause of a call already closed. */
  function StepLateCause(s: System, n: nat, cause: Option<int>): System {
    var (rest, call) := Dequeued(s.pending, n);
    if call.None? || n !in s.states then s
    else
      Put(s, n, s.states[n].(popped := true))
        .(pending := rest,
          journal := if cause.Some? && call.value in s.journal
                     then s.journal[call.value := WithCause(s.journal[call.value], cause.value)] else s.journal)
  }

  function StepDestroyed(s: System, inbound: bool, n: nat, cause: Option<int>): System {
    if s.pump != Free then s
    else if inbound then
      if Runs(s, n) then BeginFinish(s, n, None, cause, true) else StepLateCause(s, n, cause)
    else if n !in s.outToIn then s
    else
      var k := s.outToIn[n];
      if !Runs(s, k) then s.(outToIn := s.outToIn - {n})
      else if s.states[k].answered then BeginFinish(s, k, None, cause, true)
      else BeginFinish(s, k, Some(UnansweredStatus(cause, NoAnswer)), cause, true)
  }

  /** The sessions a purge deletes now. */
  function Purged(s: Settings, db: Db): set<nat> {
    Doomed(db, db.now - s.sessionRetentionDays * DAY)
  }

  /** The teardown of the call has come to its end, or to nothing. */
  predicate Parted(st: CallState) {
    st.teardown.Gone? || st.teardown.Stuck?
  }

  /** The rows a purge deletes now: past the journal's retention, of calls that are over. */
  function Overdue(c: Setup, s: System): set<nat> {
    set id | id in s.journal && s.journal[id].startedAt < s.pool.now - c.callRetentionDays * DAY
             && s.journal[id].channel in s.states && Parted(s.states[s.journal[id].channel])
  }

  /** What a purge leaves of a row; of a deleted one only what the proofs remember, with no reference. */
  function Trimmed(row: Call, gone: set<nat>, overdue: bool): Call {
    if overdue then row.(session := None) else Unlink(row, gone)
  }

  /** A purge deletes rows and sessions; `ON DELETE SET NULL` clears what referred to the sessions. */
  function StepPool(c: Setup, s: System, op: Op): System
    requires ValidSettings(c.pool.settings)
  {
    var after := s.(pool := Apply(c.pool, s.pool, op));
    if !op.OpPurge? then after
    else
      var gone, overdue := Purged(c.pool.settings, s.pool), Overdue(c, s);
      after.(journal := map id | id in s.journal :: Trimmed(s.journal[id], gone, id in overdue),
             dropped := s.dropped + overdue)
  }

  /** One step of the whole system. */
  function Do(c: Setup, s: System, e: Event): System
    requires ValidSettings(c.pool.settings)
  {
    match e
    case PoolOp(op) => StepPool(c, s, op)
    case Arrive(n, dialled, caller) => StepArrive(c, s, n, dialled, caller)
    case AnswerFailed(n) => StepAnswerFailed(s, n)
    case Typed(n, code) => StepTyped(c, s, n, code)
    case AttachDone(n) => StepAttachDone(s, n)
    case Begin(n) => StepBegin(s, n)
    case CheckLimit(n) => StepCheckLimit(s, n)
    case BridgeMade(n, ok) => StepBridgeMade(s, n, ok)
    case LegAdded(n, ok) => StepLegAdded(s, n, ok)
    case DialAnswered(n, ok) => StepDial(s, n, ok)
    case DialReturned(n) => StepDialReturned(s, n)
    case RejectEnds(n) => StepRejectEnds(s, n)
    case WatchdogFires(n) => StepWatchdog(s, n)
    case Release(n, unbridged) => StepRelease(s, n, unbridged)
    case CloseRow(n) => StepCloseRow(s, n)
    case Forget(n) => StepForget(s, n)
    case OutboundStart(n) => StepOutboundStart(s, n)
    case Joined(n, ok) => StepJoined(s, n, ok)
    case Marked(n) => StepMarked(s, n)
    case StasisEnd(inbound, n) => StepStasisEnd(s, inbound, n)
    case Destroyed(inbound, n, cause) => StepDestroyed(s, inbound, n, cause)
  }
}
