/** The call journal (app/services/calls.py): each write of a row, and what a coherent row is. */
module Journal {
  import opened Basics
  import opened Crypto
  import opened Schema

  datatype CallStatus = InProgress | Answered | Busy | NoAnswer | Rejected | Failed | CallExpired | CallerUnknown

  datatype Call = Call(
    channel: nat, session: Option<nat>, direction: Option<Direction>, caller: Option<PartyHash>, proxy: string,
    startedAt: int, answeredAt: Option<int>, endedAt: Option<int>, duration: Option<int>,
    status: CallStatus, cause: Option<int>, bridge: Option<nat>)

  // ---- Writes --------------------------------------------------------------------------

  function Opened(now: int, channel: nat, caller: Option<PartyHash>, proxy: string,
                  session: Option<nat>, direction: Option<Direction>): Call {
    Call(channel, session, direction, caller, proxy, now, None, None, None, InProgress, None, None)
  }

  /** `mark_answered`. */
  function MarkedAnswered(call: Call, now: int, bridge: Option<nat>): Call {
    if call.answeredAt.Some? then call
    else call.(answeredAt := Some(now), status := Answered, bridge := if bridge.Some? then bridge else call.bridge)
  }

  /** `int(total_seconds)`: truncation toward zero. */
  function WholeSeconds(micros: int): int {
    if micros >= 0 then micros / SECOND else -((-micros) / SECOND)
  }

  function Or<T>(x: Option<T>, y: Option<T>): Option<T> {
    if x.Some? then x else y
  }

  /** `finish_call`. */
  function Finished(call: Call, now: int, status: Option<CallStatus>, cause: Option<int>,
                    session: Option<nat>, direction: Option<Direction>): Call {
    if call.endedAt.Some? then call
    else
      var talked := call.answeredAt.Some?;
      call.(endedAt := Some(now),
            duration := if talked then Some(Max(WholeSeconds(now - call.answeredAt.value), 0)) else call.duration,
            status := if status.Some? then status.value else if talked then Answered else Failed,
            cause := Or(cause, call.cause), session := Or(session, call.session),
                direction := Or(direction, call.direction))
  }

  /** `attach_session`. */
  function Attached(call: Call, session: nat, direction: Direction): Call {
    call.(session := Some(session), direction := Some(direction))
  }

  /** `set_hangup_cause`. */
  function WithCause(call: Call, cause: int): Call {
    if call.cause.Some? then call else call.(cause := Some(cause))
  }

  /** What `ON DELETE SET NULL` leaves of a row when these sessions are deleted. */
  function Unlink(call: Call, gone: set<nat>): Call {
    if call.session.Some? && call.session.value in gone then call.(session := None) else call
  }

  function Unlinked(rows: map<nat, Call>, gone: set<nat>): map<nat, Call> {
    map id | id in rows :: Unlink(rows[id], gone)
  }

  // ---- The table -------------------------------------------------------------------------

  class Journal {
    var rows: map<nat, Call>
    var next: nat

    constructor ()
      ensures rows == map[] && next == 0
    {
      rows, next := map[], 0;
    }

    method StartCall(now: int, channel: nat, caller: Option<PartyHash>, proxy: string,
                     session: Option<nat>, direction: Option<Direction>) returns (id: nat)
      modifies this
      ensures id == old(next) && next == old(next) + 1
      ensures rows == old(rows)[id := Opened(now, channel, caller, proxy, session, direction)]
    {
      id := next;
      rows := rows[id := Call(channel, session, direction, caller, proxy, now, None, None, None, InProgress, None,
          None)];
      next := next + 1;
    }

    method MarkAnswered(now: int, id: nat, bridge: Option<nat>)
      modifies this
      ensures next == old(next)
      ensures rows == if id in old(rows) then old(rows)[id := MarkedAnswered(old(rows)[id], now, bridge)] else old(rows)
    {
      if id !in rows || rows[id].answeredAt.Some? {
        return;
      }
      var call := rows[id];
      call := call.(answeredAt := Some(now));
      call := call.(status := Answered);
      if bridge.Some? {
        call := call.(bridge := bridge);
      }
      rows := rows[id := call];
    }

    method FinishCall(now: int, id: nat, status: Option<CallStatus>, cause: Option<int>,
                      session: Option<nat>, direction: Option<Direction>) returns (closed: Option<Call>)
      modifies this
      ensures next == old(next)
      ensures rows == if id in old(rows)
                then old(rows)[id := Finished(old(rows)[id], now, status, cause, session, direction)] else old(rows)
      ensures closed == if id in rows then Some(rows[id]) else None
    {
      if id !in rows {
        return None;
      }
      var call := rows[id];
      if call.endedAt.Some? {
        return Some(call);
      }
      call := call.(endedAt := Some(now));
      if call.answeredAt.Some? {
        var talkTime := now - call.answeredAt.value;
        call := call.(duration := Some(Max(WholeSeconds(talkTime), 0)));
        call := call.(status := if status.Some? then status.value else Answered);
      } else {
        call := call.(status := if status.Some? then status.value else Failed);
      }
      if cause.Some? {
        call := call.(cause := cause);
      }
      if session.Some? {
        call := call.(session := session);
      }
      if direction.Some? {
        call := call.(direction := direction);
      }
      rows := rows[id := call];
      return Some(call);
    }

    method AttachSession(id: nat, session: nat, direction: Direction)
      modifies this
      ensures next == old(next)
      ensures rows == if id in old(rows) then old(rows)[id := Attached(old(rows)[id], session, direction)]
                else old(rows)
    {
      if id in rows {
        rows := rows[id := rows[id].(session := Some(session), direction := Some(direction))];
      }
    }

    method SetHangupCause(id: nat, cause: int)
      modifies this
      ensures next == old(next)
      ensures rows == if id in old(rows) then old(rows)[id := WithCause(old(rows)[id], cause)] else old(rows)
    {
      if id !in rows || rows[id].cause.Some? {
        return;
      }
      rows := rows[id := rows[id].(cause := Some(cause))];
    }

    /** The foreign key of the session column, when sessions are deleted. */
    method ClearSessions(gone: set<nat>)
      modifies this
      ensures next == old(next) && rows == Unlinked(old(rows), gone)
    {
      rows := map id | id in rows ::
        if rows[id].session.Some? && rows[id].session.value in gone then rows[id].(session := None) else rows[id];
    }

    /** The call part of `purge_old_records`. */
    method PurgeCalls(now: int, retentionDays: int) returns (deletedCalls: nat)
      modifies this
      ensures next == old(next)
      ensures forall id :: id in rows <==> id in old(rows) && !StartedBefore(old(rows), id, now - retentionDays * DAY)
      ensures forall id :: id in rows ==> rows[id] == old(rows)[id]
      ensures deletedCalls + |rows| == |old(rows)|
    {
      var cutoff := now - retentionDays * DAY;
      var doomed := set id | id in rows && StartedBefore(rows, id, cutoff);
      deletedCalls := |doomed|;
      var kept := rows.Keys - doomed;
      assert doomed + kept == rows.Keys && doomed !! kept;
      rows := rows - doomed;
      assert rows.Keys == kept;
    }
  }

  predicate StartedBefore(rows: map<nat, Call>, id: nat, cutoff: int) {
    id in rows && rows[id].startedAt < cutoff
  }

  /** The rows `answered_call_count` counts. */
  function AnsweredOf(rows: map<nat, Call>, session: nat): set<nat> {
    set id | id in rows && rows[id].session == Some(session) && rows[id].status == Answered
  }

  // ---- Coherence ---------------------------------------------------------------------------

  predicate TimesOrdered(call: Call, now: int) {
    && call.startedAt <= now
    && (call.answeredAt.Some? ==> call.startedAt <= call.answeredAt.value <= now)
    && (call.endedAt.Some? ==> call.startedAt <= call.endedAt.value <= now)
    && (call.answeredAt.Some? && call.endedAt.Some? ==> call.answeredAt.value <= call.endedAt.value)
  }

  /** Times in order; the duration is the floored talk time, present exactly on closed answered rows. */
  predicate Coherent(call: Call, now: int) {
    && TimesOrdered(call, now)
    && (call.duration.Some? <==> call.answeredAt.Some? && call.endedAt.Some?)
    && (call.duration.Some? ==> call.duration.value == (call.endedAt.value - call.answeredAt.value) / SECOND)
    && (call.status == Answered <==> call.answeredAt.Some?)
    && (call.endedAt.None? ==> call.cause.None?)
  }

  /** The first outcome wins, whatever a later finish says; so does the first answer. */
  lemma FirstOutcomeWins(call: Call, now: int, status: Option<CallStatus>, cause: Option<int>, session: Option<nat>,
                         direction: Option<Direction>,
                         now': int, status': Option<CallStatus>, cause': Option<int>, session': Option<nat>,
                         direction': Option<Direction>)
    ensures var closed := Finished(call, now, status, cause, session, direction);
            closed.endedAt.Some? && Finished(closed, now', status', cause', session', direction') == closed
  {
  }

  /** A recorded cause survives every later write of a closed row. */
  lemma CauseIsKept(call: Call, now: int, status: Option<CallStatus>, cause: Option<int>, session: Option<nat>,
                    direction: Option<Direction>,
                    late: int, bridge: Option<nat>)
    requires call.endedAt.Some? && call.cause.Some?
    ensures Finished(call, now, status, cause, session, direction).cause == call.cause
    ensures WithCause(call, late).cause == MarkedAnswered(call, now, bridge).cause == call.cause
  {
  }

  /** Closing keeps coherence exactly when the status given agrees with whether the call was answered. */
  lemma FinishCoherentExactly(call: Call, now: int, status: Option<CallStatus>, cause: Option<int>,
                              session: Option<nat>, direction: Option<Direction>)
    requires Coherent(call, now)
    ensures Coherent(Finished(call, now, status, cause, session, direction), now) <==>
              call.endedAt.Some? || status.None? || (status.value == Answered <==> call.answeredAt.Some?)
  {
  }

  /** Marking an answer keeps coherence exactly on a row still open or already answered. */
  lemma AnswerCoherentExactly(call: Call, now: int, bridge: Option<nat>)
    requires Coherent(call, now)
    ensures Coherent(MarkedAnswered(call, now, bridge), now) <==> call.endedAt.None? || call.answeredAt.Some?
  {
  }
}
