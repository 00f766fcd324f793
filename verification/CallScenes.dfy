/** Short runs of the call machine: what a late answer, a late attachment and a purge do to a row. */
module CallScenes {
  import opened Basics
  import opened Crypto
  import opened Schema
  import opened Allocation
  import opened Sessions
  import opened Routing
  import opened Invariant
  import opened Lifecycle
  import opened Pool
  import opened Reach
  import opened Promotion
  import opened Journal
  import opened Stasis
  import opened Calls
  import opened Machine
  import opened Progress
  import opened Scenes
  import Phone

  // ---- Reachable states ----------------------------------------------------------------------

  ghost predicate Reachable(c: Setup, start: int, s: System)
    requires ValidSettings(c.pool.settings)
  {
    exists events :: After(c, start, events) == s
  }

  lemma Onwards(c: Setup, start: int, s: System, e: Event)
    requires ValidSettings(c.pool.settings) && Reachable(c, start, s)
    ensures Reachable(c, start, Do(c, s, e))
  {
    hide Do;
    var events :| After(c, start, events) == s;
    assert (events + [e])[..|events|] == events;
    assert After(c, start, events + [e]) == Do(c, s, e);
  }

  /** With no call yet the pool runs alone. */
  lemma {:induction false} PoolAlone(c: Setup, start: int, ops: seq<Op>)
    requires ValidSettings(c.pool.settings)
    ensures Reachable(c, start, Initial(start).(pool := Run(c.pool, start, ops)))
    decreases |ops|
  {
    hide Apply, Reachable, Do;
    if ops == [] {
      NothingYet(c, start);
    } else {
      var k := |ops| - 1;
      var s := Initial(start).(pool := Run(c.pool, start, ops[..k]));
      PoolAlone(c, start, ops[..k]);
      Onwards(c, start, s, PoolOp(ops[k]));
      PoolOpIs(c, s, ops[k]);
    }
  }

  lemma NothingYet(c: Setup, start: int)
    requires ValidSettings(c.pool.settings)
    ensures Reachable(c, start, Initial(start).(pool := EmptyDb(start)))
  {
    assert After(c, start, []) == Initial(start);
  }

  lemma PoolOpIs(c: Setup, s: System, op: Op)
    requires ValidSettings(c.pool.settings)
    requires s.journal == map[]
    ensures Do(c, s, PoolOp(op)) == s.(pool := Apply(c.pool, s.pool, op))
  {
    hide Apply, Purged;
  }

  lemma Goes(c: Setup, start: int, s: System, more: seq<Event>, t: System)
    requires ValidSettings(c.pool.settings) && Reachable(c, start, s) && t == Follow(c, s, more)
    ensures Reachable(c, start, t)
  {
    var events :| After(c, start, events) == s;
    AfterFollow(c, start, events, more);
    hide Follow, After;
    assert After(c, start, events + more) == t;
  }

  lemma Leads(c: Setup, start: int, s: System, e: Event, t: System)
    requires ValidSettings(c.pool.settings) && Reachable(c, start, s) && t == Do(c, s, e)
    ensures Reachable(c, start, t)
  {
    Onwards(c, start, s, e);
    hide *;
  }

  // ---- Alice calls Bob ---------------------------------------------------------------------------

  function AliceKey(): CacheKey {
    CacheKey(PROXY, PartyHash(ALICE))
  }

  lemma AliceCalls(c: Config, db: Db)
    ensures Resolve(c, db, PROXY, ALICE).1 == Routed(PROXY, Some(PartyHash(ALICE)), ResolveKey(c, db, AliceKey()).1)
  {
    Names();
    Phone.NormalizeFixesE164(PROXY);
    Phone.NormalizeFixesE164(ALICE);
    hide Phone.IsE164, Phone.Normalize, ResolveKey;
  }

  lemma Uncached(c: Config, db: Db, key: CacheKey)
    requires db.cache == map[]
    ensures ResolveKey(c, db, key).1 == Verdict(c, db, key.proxy, key.caller)
  {
    hide Verdict;
  }

  /** Connecting to a stored session, with nothing done yet. */
  predicate Starts(s: System, st: CallState, row: Call, wanted: Candidate) {
    && Early(s, 0, st, row) && st.task == Connecting(wanted) && wanted.maxCalls.None? && st.bridge.None?
    && wanted.session in s.pool.sessions && s.pool.sessions[wanted.session].status == Active
    && row.session == Some(wanted.session) && row.channel == 0 && st.call == 0 && st.session.None?
  }

  lemma BobIsFound(c: Config, start: int)
    requires ValidSettings(c.settings) && CanCreate(c)
    ensures var db := OnePair(c, start, ALICE, BOB);
            var decision := Resolve(c, db, PROXY, ALICE).1.decision;
            && decision.Connect? && decision.candidate.maxCalls.None? && decision.candidate.session == 0
            && 0 in db.sessions && db.sessions[0].status == Active
  {
    hide Run, Inv, Core, Verdict, ResolveKey, Resolve, Phone.IsE164, Reaches, CanCreate;
    var db := OnePair(c, start, ALICE, BOB);
    Names();
    OnePairRuns(c, start, ALICE, BOB);
    RunInv(c, start, [ADD, Create(ALICE, BOB)]);
    InvCore(db);
    AliceCalls(c, db);
    Uncached(c, db, AliceKey());
    AliceLives(c, start);
    hide OnePair, Live;
    VerdictReaches(c, db, 0, PROXY, PartyHash(ALICE));
    hide CandidateOf;
    ReachedIs(Verdict(c, db, PROXY, PartyHash(ALICE)), CandidateOf(db, 0, PartyHash(ALICE)));
  }

  lemma AliceLives(c: Config, start: int)
    requires ValidSettings(c.settings)
    ensures var db := OnePair(c, start, ALICE, BOB);
            && Live(db, PROXY, PartyHash(ALICE)) == {0} && 0 in db.sessions && 0 in db.parties
            && CandidateOf(db, 0, PartyHash(ALICE)).maxCalls.None? && db.sessions[0].status == Active
            && CandidateOf(db, 0, PartyHash(ALICE)).session == 0
  {
    hide CodeAt;
  }

  lemma ReachedIs(decision: Decision, wanted: Candidate)
    requires Reaches(decision, wanted) && decision.Connect?
    ensures decision.candidate.maxCalls == wanted.maxCalls && decision.candidate.session == wanted.session
  {
  }

  lemma AliceArrives(c: Setup, s: System)
    requires ValidSettings(c.pool.settings) && s.states == map[] && s.journal == map[] && s.registered == {}
    requires s.nextCall == 0 && s.pump == Free
    requires var decision := Resolve(c.pool, s.pool, PROXY, ALICE).1.decision;
             && decision.Connect? && decision.candidate.maxCalls.None?
             && decision.candidate.session in s.pool.sessions
             && s.pool.sessions[decision.candidate.session].status == Active
    ensures var t := Do(c, s, Arrive(0, PROXY, ALICE));
            && 0 in t.states && 0 in t.journal && t.states[0].task.Connecting?
            && Starts(t, t.states[0], t.journal[0], t.states[0].task.candidate)
  {
    ResolveWrites(c.pool, s.pool, PROXY, ALICE);
    hide Resolve;
  }

  lemma AliceIsConnecting(c: Setup, start: int) returns (s: System, wanted: Candidate)
    requires ValidSettings(c.pool.settings) && CanCreate(c.pool)
    ensures Reachable(c, start, s) && 0 in s.states && 0 in s.journal && Starts(s, s.states[0], s.journal[0], wanted)
  {
    Names();
    OnePairRuns(c.pool, start, ALICE, BOB);
    PoolAlone(c, start, [ADD, Create(ALICE, BOB)]);
    BobIsFound(c.pool, start);
    hide Reachable, CanCreate, Run, OnePair, Resolve, Do, Starts, Phone.IsE164;
    var idle := Initial(start).(pool := OnePair(c.pool, start, ALICE, BOB));
    AliceArrives(c, idle);
    s := Do(c, idle, Arrive(0, PROXY, ALICE));
    wanted := s.states[0].task.candidate;
    Leads(c, start, idle, Arrive(0, PROXY, ALICE), s);
  }

  // ---- An answer that overtakes the watchdog -----------------------------------------------------

  /** The originate has been accepted and its watchdog waits. */
  predicate Watched(s: System, st: CallState, row: Call, wanted: Candidate) {
    && Calling(s, 0, st, row, wanted) && st.watchdog && st.dialled && st.bridge.Some?
    && wanted.session in s.pool.sessions && st.call == 0
  }

  lemma ComesBack(s: System, st: CallState, row: Call, wanted: Candidate)
    requires Calling(s, 0, st, row, wanted) && st.task.Dialled? && st.dialled && st.bridge.Some?
    requires wanted.session in s.pool.sessions && st.call == 0
    ensures var t := StepDialReturned(s, 0); 0 in t.states && Watched(t, t.states[0], row, wanted)
  {
  }

  lemma BobIsDialled(c: Setup, start: int, s: System, row: Call, wanted: Candidate) returns (t: System)
    requires ValidSettings(c.pool.settings) && Reachable(c, start, s) && 0 in s.states
    requires Starts(s, s.states[0], row, wanted)
    ensures Reachable(c, start, t) && 0 in t.states && Watched(t, t.states[0], row, wanted)
  {
    hide Reachable, Do, Early, Calling, Watched, Follow, Quietly, StepDialReturned;
    var u := CountPasses(c, s, 0, row, wanted);
    Goes(c, start, s, Counted(0, false), u);
    QuietShows(s, u, 0);
    var v := CalleeIsDialled(c, u, 0, row, wanted);
    Goes(c, start, u, Ringing(0), v);
    DoDials(c, v, DialReturned(0));
    ComesBack(v, v.states[0], row, wanted);
    t := StepDialReturned(v, 0);
    Leads(c, start, v, DialReturned(0), t);
  }

  /** A call being torn down as unanswered, with its session stored. */
  predicate GivenUp(s: System, st: CallState, row: Call) {
    && On(s, 0, st, row) && st.call == 0 && st.bridge.Some? && row.endedAt.None?
    && st.teardown.Releasing? && st.teardown.status == NoAnswer && !st.teardown.pumped
    && st.session.Some? && st.session.value in s.pool.sessions
  }

  /** Bob answers: the pump joins his leg. */
  lemma BobAnswers(s: System, st: CallState, row: Call, wanted: Candidate)
    requires Watched(s, st, row, wanted)
    ensures var t := StepOutboundStart(s, 0);
            && t == Put(s, 0, st.(entered := true, joining := true)).(pump := Joining(0))
  {
  }

  /** Meanwhile the watchdog gives him up. */
  lemma GivesUp(s: System, st: CallState, row: Call, wanted: Candidate)
    requires Watched(s, st, row, wanted)
    ensures var joining := Put(s, 0, st.(entered := true, joining := true)).(pump := Joining(0));
            var t := StepWatchdog(joining, 0);
            0 in t.states && GivenUp(t, t.states[0], row) && t.pump == Joining(0) && row.answeredAt.None?
  {
    var joining := Put(s, 0, st.(entered := true, joining := true)).(pump := Joining(0));
    var off := st.(entered := true, joining := true, watchdog := false, late := true);
    assert BeginFinish(Put(joining, 0, off), 0, Some(NoAnswer), Some(NO_ANSWER_CAUSE), false) ==
           Put(Put(joining, 0, off), 0,
               off.(teardown := Releasing(NoAnswer, Some(NO_ANSWER_CAUSE), off.outbound, false)));
    hide InferStatus, BeginFinish;
  }

  /** The join succeeds before the legs are let go. */
  lemma JoinsTornDown(s: System, st: CallState, row: Call)
    requires GivenUp(s, st, row) && s.pump == Joining(0)
    ensures var t := StepJoined(s, 0, true);
            0 in t.states && GivenUp(t, t.states[0], row) && t.pump == Marking(0)
  {
  }

  lemma MarksTornDown(s: System, st: CallState, row: Call)
    requires GivenUp(s, st, row) && s.pump == Marking(0) && row.answeredAt.None?
    ensures var t := StepMarked(s, 0);
            && 0 in t.states && 0 in t.journal && GivenUp(t, t.states[0], t.journal[0]) && t.pump == Free
            && t.journal[0].answeredAt.Some?
  {
  }

  lemma Closes(s: System, st: CallState, row: Call)
    requires GivenUp(s, st, row) && s.pump == Free && row.answeredAt.Some?
    ensures var t := StepCloseRow(StepRelease(s, 0, true), 0);
            && 0 in t.states && t.states[0].call == 0 && t.pump == Free && 0 in t.journal
            && t.journal[0].endedAt.Some? && t.journal[0].answeredAt.Some? && t.journal[0].status == NoAnswer
  {
    var u := StepRelease(s, 0, true);
    assert 0 in u.states && u.states[0].teardown.Closing? && u.states[0].teardown.status == NoAnswer
           && u.states[0].call == 0 && u.states[0].session == st.session && u.registered == s.registered
           && u.journal == s.journal && u.pool == s.pool && u.pump == Free;
    hide StepRelease;
  }

  lemma DoJoins(c: Setup, s: System, e: Event)
    requires ValidSettings(c.pool.settings)
    ensures e.OutboundStart? ==> Do(c, s, e) == StepOutboundStart(s, e.n)
    ensures e.WatchdogFires? ==> Do(c, s, e) == StepWatchdog(s, e.n)
    ensures e.Joined? ==> Do(c, s, e) == StepJoined(s, e.n, e.ok)
    ensures e.Marked? ==> Do(c, s, e) == StepMarked(s, e.n)
  {
    hide StepOutboundStart, StepWatchdog, StepJoined, StepMarked;
  }

  lemma DoEnds(c: Setup, s: System, e: Event)
    requires ValidSettings(c.pool.settings)
    ensures e.Release? ==> Do(c, s, e) == StepRelease(s, e.n, e.unbridged)
    ensures e.CloseRow? ==> Do(c, s, e) == StepCloseRow(s, e.n)
    ensures e.StasisEnd? ==> Do(c, s, e) == StepStasisEnd(s, e.inbound, e.n)
    ensures e.PoolOp? ==> Do(c, s, e) == StepPool(c, s, e.op)
  {
    hide StepRelease, StepCloseRow, StepStasisEnd, StepPool;
  }

  lemma BobIsLate(c: Setup, start: int, s: System, row: Call, wanted: Candidate) returns (t: System)
    requires ValidSettings(c.pool.settings) && Reachable(c, start, s) && 0 in s.states
    requires Watched(s, s.states[0], row, wanted)
    ensures Reachable(c, start, t) && 0 in t.states && GivenUp(t, t.states[0], row) && t.pump == Marking(0)
    ensures row.answeredAt.None?
  {
    hide Reachable, Do, Watched, GivenUp, StepOutboundStart, StepWatchdog, StepJoined;
    BobAnswers(s, s.states[0], row, wanted);
    DoJoins(c, s, OutboundStart(0));
    var u := StepOutboundStart(s, 0);
    Leads(c, start, s, OutboundStart(0), u);
    GivesUp(s, s.states[0], row, wanted);
    DoJoins(c, u, WatchdogFires(0));
    var v := StepWatchdog(u, 0);
    Leads(c, start, u, WatchdogFires(0), v);
    JoinsTornDown(v, v.states[0], row);
    DoJoins(c, v, Joined(0, true));
    t := StepJoined(v, 0, true);
    Leads(c, start, v, Joined(0, true), t);
  }

  lemma RowIsClosed(c: Setup, start: int, s: System, row: Call) returns (t: System)
    requires ValidSettings(c.pool.settings) && Reachable(c, start, s) && 0 in s.states
    requires GivenUp(s, s.states[0], row) && s.pump == Marking(0) && row.answeredAt.None?
    ensures Reachable(c, start, t) && 0 in t.states && t.states[0].call == 0 && t.pump == Free && 0 in t.journal
    ensures t.journal[0].endedAt.Some? && t.journal[0].answeredAt.Some? && t.journal[0].status == NoAnswer
  {
    hide Reachable, Do, GivenUp, StepMarked, StepRelease, StepCloseRow;
    MarksTornDown(s, s.states[0], row);
    DoJoins(c, s, Marked(0));
    var u := StepMarked(s, 0);
    Leads(c, start, s, Marked(0), u);
    Closes(u, u.states[0], u.journal[0]);
    DoEnds(c, u, Release(0, true));
    var v := StepRelease(u, 0, true);
    Leads(c, start, u, Release(0, true), v);
    DoEnds(c, v, CloseRow(0));
    t := StepCloseRow(v, 0);
    Leads(c, start, v, CloseRow(0), t);
  }

  /** A run whose watchdog fires while the answered leg is being joined: the row closes as unanswered with an answer. */
  lemma LateJoinSpoils(c: Setup, start: int) returns (s: System)
    requires ValidSettings(c.pool.settings) && CanCreate(c.pool)
    ensures Reachable(c, start, s) && 0 in s.states && s.states[0].call == 0 && s.pump == Free && 0 in s.journal
    ensures s.journal[0].endedAt.Some? && s.journal[0].answeredAt.Some? && s.journal[0].status == NoAnswer
    ensures !Coherent(s.journal[0], s.pool.now)
  {
    var wanted: Candidate;
    s, wanted := AliceIsConnecting(c, start);
    hide Reachable, CanCreate, Starts, Watched, GivenUp;
    var row := s.journal[0];
    s := BobIsDialled(c, start, s, row, wanted);
    s := BobIsLate(c, start, s, row, wanted);
    s := RowIsClosed(c, start, s, row);
  }

  // ---- Alice hangs up ------------------------------------------------------------------------------

  /** A call as Alice left it, being torn down by the pump. */
  predicate Leaving(s: System, st: CallState, row: Call, task: Task, session: Option<nat>) {
    && On(s, 0, st, row) && st.call == 0 && st.task == task && st.session == session && st.bridge.None?
    && s.pump == Finishing(0) && row.endedAt.None?
  }

  lemma HangsUp(s: System, st: CallState, row: Call)
    requires On(s, 0, st, row) && st.call == 0 && s.pump == Free && st.teardown == Open && st.bridge.None?
    requires row.endedAt.None?
    ensures var t := StepStasisEnd(s, true, 0);
            && 0 in t.states && Leaving(t, t.states[0], row, st.task, st.session) && t.pool == s.pool
            && t.states[0].teardown.Releasing? && t.states[0].teardown.pumped
  {
    var resolved := InferStatus(st.answered, None);
    assert BeginFinish(s, 0, None, None, true) ==
           Put(s, 0, st.(teardown := Releasing(resolved, None, st.outbound, true))).(pump := Finishing(0));
    hide InferStatus, BeginFinish;
  }

  lemma LetsGo(s: System, st: CallState, row: Call)
    requires Leaving(s, st, row, st.task, st.session) && st.teardown.Releasing? && st.teardown.pumped
    ensures var t := StepRelease(s, 0, true);
            && 0 in t.states && Leaving(t, t.states[0], row, st.task, st.session) && t.pool == s.pool
            && t.states[0].teardown.Closing? && t.states[0].teardown.pumped
  {
    var t, down := StepRelease(s, 0, true), st.teardown;
    var after := st.(teardown := Closing(down.status, down.cause, down.pumped), unbridged := st.unbridged);
    assert t == Put(s, 0, after).(outToIn := t.outToIn);
    hide StepRelease;
  }

  lemma TornToClosing(c: Setup, start: int, s: System, row: Call) returns (t: System)
    requires ValidSettings(c.pool.settings) && Reachable(c, start, s) && 0 in s.states && On(s, 0, s.states[0], row)
    requires s.states[0].call == 0 && s.pump == Free && s.states[0].teardown == Open && s.states[0].bridge.None?
    requires row.endedAt.None?
    ensures Reachable(c, start, t) && t.pool == s.pool && 0 in t.states
    ensures Leaving(t, t.states[0], row, s.states[0].task, s.states[0].session)
    ensures t.states[0].teardown.Closing? && t.states[0].teardown.pumped
  {
    hide Reachable, Do, On, Leaving, StepStasisEnd, StepRelease;
    HangsUp(s, s.states[0], row);
    DoEnds(c, s, StasisEnd(true, 0));
    var u := StepStasisEnd(s, true, 0);
    Leads(c, start, s, StasisEnd(true, 0), u);
    LeavingIs(u, u.states[0], row, s.states[0].task, s.states[0].session);
    LetsGo(u, u.states[0], row);
    DoEnds(c, u, Release(0, true));
    t := StepRelease(u, 0, true);
    Leads(c, start, u, Release(0, true), t);
  }

  lemma LeavingIs(s: System, st: CallState, row: Call, task: Task, session: Option<nat>)
    requires Leaving(s, st, row, task, session)
    ensures st.task == task && st.session == session
  {
  }

  /** The row closes with the session it refers to, if the call is not yet bound. */
  lemma ClosesUnbound(s: System, st: CallState, row: Call, task: Task)
    requires Leaving(s, st, row, task, None) && st.teardown.Closing?
    ensures var t := StepCloseRow(s, 0);
            && 0 in t.states && 0 in t.journal && On(t, 0, t.states[0], t.journal[0]) && t.states[0].task == task
            && t.journal[0].endedAt.Some? && t.journal[0].session == row.session && t.pool == s.pool
            && t.states[0].call == 0
  {
    var t, down := StepCloseRow(s, 0), st.teardown;
    var closed := Finished(row, s.pool.now, Some(down.status), down.cause, None, st.direction);
    assert t == Put(s, 0, st.(teardown := RowClosed(down.cause, down.pumped)))
                  .(journal := s.journal[0 := closed], ended := t.ended) by { hide Finished; }
    hide StepCloseRow;
  }

  // ---- An attachment that lands late -----------------------------------------------------------------

  /** Alice shares the number with Bob and with Carol, so she is asked for a PIN. */
  lemma AliceIsAsked(c: Config, start: int) returns (wanted: Candidate)
    requires ValidSettings(c.settings) && CanShare(c) && c.settings.mode == Always
    ensures var decision := Resolve(c, TwoPairs(c, start, ALICE, BOB, ALICE, CAROL), PROXY, ALICE).1.decision;
            && decision.AskCode? && Coded(wanted)
                  && wanted.session in TwoPairs(c, start, ALICE, BOB, ALICE, CAROL).sessions
                  && SelectByCode(decision.candidates, wanted.extCode.value) == Some(wanted)
  {
    var db := TwoPairs(c, start, ALICE, BOB, ALICE, CAROL);
    hide Run, Inv, Core, Verdict, ResolveKey, Resolve, Phone.IsE164, CanShare;
    Names();
    TwoPairsRun(c, start, ALICE, BOB, ALICE, CAROL);
    RunInv(c, start, [ADD, Create(ALICE, BOB), Create(ALICE, CAROL)]);
    InvCore(db);
    AliceCalls(c, db);
    Uncached(c, db, AliceKey());
    AliceLivesTwice(c, start);
    hide TwoPairs, Live, SelectByCode;
    VerdictReaches(c, db, 0, PROXY, PartyHash(ALICE));
    wanted := CandidateOf(db, 0, PartyHash(ALICE));
  }

  lemma AliceLivesTwice(c: Config, start: int)
    requires ValidSettings(c.settings)
    ensures var db := TwoPairs(c, start, ALICE, BOB, ALICE, CAROL);
            0 in db.sessions && 0 in db.parties && Live(db, PROXY, PartyHash(ALICE)) == {0, 1}
  {
    hide CodeAt;
  }

  /** Asked for a PIN, with nothing done yet. */
  predicate Waits(s: System, st: CallState, row: Call, wanted: Candidate) {
    && Early(s, 0, st, row) && st.task.Asking? && Coded(wanted) && st.call == 0
    && SelectByCode(st.task.candidates, wanted.extCode.value) == Some(wanted)
    && st.session.None? && st.bridge.None? && row.session.None? && wanted.session in s.pool.sessions
  }

  lemma AliceWaits(c: Setup, s: System, wanted: Candidate)
    requires ValidSettings(c.pool.settings) && s.states == map[] && s.journal == map[] && s.registered == {}
    requires s.nextCall == 0 && s.pump == Free && c.maxAttempts >= 1 && wanted.session in s.pool.sessions
    requires var decision := Resolve(c.pool, s.pool, PROXY, ALICE).1.decision;
             decision.AskCode? && Coded(wanted)
                 && SelectByCode(decision.candidates, wanted.extCode.value) == Some(wanted)
    ensures var t := Do(c, s, Arrive(0, PROXY, ALICE));
            0 in t.states && 0 in t.journal && Waits(t, t.states[0], t.journal[0], wanted)
  {
    ResolveWrites(c.pool, s.pool, PROXY, ALICE);
    hide Resolve, SelectByCode;
  }

  lemma AliceIsWaiting(c: Setup, start: int) returns (s: System, wanted: Candidate)
    requires ValidSettings(c.pool.settings) && CanShare(c.pool) && c.pool.settings.mode == Always && c.maxAttempts >= 1
    ensures Reachable(c, start, s) && 0 in s.states && 0 in s.journal && Waits(s, s.states[0], s.journal[0], wanted)
  {
    hide Reachable, CanShare, Run, TwoPairs, Resolve, Do, Waits, Phone.IsE164, SelectByCode;
    Names();
    TwoPairsRun(c.pool, start, ALICE, BOB, ALICE, CAROL);
    PoolAlone(c, start, [ADD, Create(ALICE, BOB), Create(ALICE, CAROL)]);
    wanted := AliceIsAsked(c.pool, start);
    var idle := Initial(start).(pool := TwoPairs(c.pool, start, ALICE, BOB, ALICE, CAROL));
    AliceWaits(c, idle, wanted);
    s := Do(c, idle, Arrive(0, PROXY, ALICE));
    Leads(c, start, idle, Arrive(0, PROXY, ALICE), s);
  }

  /** A run after which the attachment of a session writes it on the row that was closed without one. */
  lemma AttachmentLandsLate(c: Setup, start: int) returns (s: System, session: nat)
    requires ValidSettings(c.pool.settings) && CanShare(c.pool) && c.pool.settings.mode == Always && c.maxAttempts >= 1
    ensures Reachable(c, start, s) && 0 in s.journal && s.journal[0].endedAt.Some? && s.journal[0].session.None?
    ensures var t := Do(c, s, AttachDone(0)); 0 in t.journal && t.journal[0].session == Some(session)
  {
    var wanted: Candidate;
    s, wanted := AliceIsWaiting(c, start);
    var row := s.journal[0];
    hide Reachable, Do, CanShare, StepTyped, StepCloseRow, StepAttachDone, Early, On, Leaving, Quietly, SelectByCode;
    Selects(c, s, 0, s.states[0], row, wanted);
    DoChoices(c, s, Typed(0, wanted.extCode.value));
    var t := StepTyped(c, s, 0, wanted.extCode.value);
    Leads(c, start, s, Typed(0, wanted.extCode.value), t);
    QuietShows(s, t, 0);
    EarlyIs(t, t.states[0], row);
    var u := TornToClosing(c, start, t, row);
    ClosesUnbound(u, u.states[0], row, Attaching(wanted));
    DoEnds(c, u, CloseRow(0));
    session := wanted.session;
    s := StepCloseRow(u, 0);
    Leads(c, start, u, CloseRow(0), s);
    DoChoices(c, s, AttachDone(0));
    AttachesClosed(s, s.states[0], s.journal[0]);
  }

  lemma EarlyIs(s: System, st: CallState, row: Call)
    requires Early(s, 0, st, row)
    ensures On(s, 0, st, row) && s.pump == Free && st.teardown == Open && row.endedAt.None?
  {
  }

  lemma AttachesClosed(s: System, st: CallState, row: Call)
    requires On(s, 0, st, row) && st.call == 0 && st.task.Attaching? && st.task.candidate.session in s.pool.sessions
    ensures var t := StepAttachDone(s, 0); 0 in t.journal && t.journal[0].session == Some(st.task.candidate.session)
  {
  }

  // ---- A purge ---------------------------------------------------------------------------------------

  /** Past retention a closed session is purged. */
  lemma SessionIsPurged(s: Settings, db: Db, sid: nat, elapsed: nat)
    requires sid in db.sessions && db.sessions[sid].status == Active && elapsed > s.sessionRetentionDays * DAY
    ensures var later := Tick(CloseSession(db, sid, Closed).0, elapsed);
            sid in Purged(s, later) && sid !in Purge(s, later).sessions
  {
    var later := Tick(CloseSession(db, sid, Closed).0, elapsed);
    assert sid in later.sessions && later.sessions[sid].status == Closed && later.sessions[sid].closedAt == Some(db.now)
           && later.now == db.now + elapsed by { hide SyncParties; }
    hide CloseSession, KeysOf;
  }

  lemma PoolSteps(c: Setup, s: System, op: Op)
    requires ValidSettings(c.pool.settings)
    ensures var t := StepPool(c, s, op);
            && t == s.(pool := Apply(c.pool, s.pool, op), journal := t.journal, dropped := t.dropped)
            && (!op.OpPurge? ==> t.journal == s.journal && t.dropped == s.dropped)
  {
    hide Apply, Trimmed, Overdue;
  }

  /** The session of the only call is closed, retention passes, and it is purged. */
  lemma SessionGoes(c: Setup, start: int, s: System, sid: nat) returns (t: System, gone: set<nat>)
    requires ValidSettings(c.pool.settings) && Reachable(c, start, s)
    requires sid in s.pool.sessions && s.pool.sessions[sid].status == Active
    ensures Reachable(c, start, t) && t == s.(pool := t.pool, journal := t.journal, dropped := t.dropped)
    ensures sid in gone && sid !in t.pool.sessions
    ensures 0 in s.journal && StillOn(s, 0) ==>
              0 in t.journal && t.journal[0] == Unlink(s.journal[0], gone) && (0 in t.dropped ==> 0 in s.dropped)
  {
    hide Reachable, Do, StepPool, Purged, Purge, CloseSession, Overdue;
    var retention := c.pool.settings.sessionRetentionDays * DAY;
    var elapsed: nat := if retention < 0 then 0 else retention + 1;
    SessionIsPurged(c.pool.settings, s.pool, sid, elapsed);
    var closed := Moves(c, start, s, OpClose(sid, false));
    var later := Moves(c, start, closed, OpTick(elapsed));
    gone := Purged(c.pool.settings, later.pool);
    t := Moves(c, start, later, OpPurge);
    if 0 in s.journal && StillOn(s, 0) {
      NotOverdue(c, later, 0);
      PurgeUnlinks(c, later, 0);
    }
  }

  predicate StillOn(s: System, id: nat)
    requires id in s.journal
  {
    s.journal[id].channel in s.states && !Parted(s.states[s.journal[id].channel])
  }

  lemma NotOverdue(c: Setup, s: System, id: nat)
    requires id in s.journal && StillOn(s, id)
    ensures id !in Overdue(c, s)
  {
  }

  lemma Moves(c: Setup, start: int, s: System, op: Op) returns (t: System)
    requires ValidSettings(c.pool.settings) && Reachable(c, start, s)
    ensures Reachable(c, start, t) && t == StepPool(c, s, op)
    ensures t == s.(pool := Apply(c.pool, s.pool, op), journal := t.journal, dropped := t.dropped)
              && (!op.OpPurge? ==> t.journal == s.journal && t.dropped == s.dropped)
  {
    t := StepPool(c, s, op);
    PoolSteps(c, s, op);
    DoEnds(c, s, PoolOp(op));
    hide *;
    Leads(c, start, s, PoolOp(op), t);
  }

  lemma PurgeUnlinks(c: Setup, s: System, id: nat)
    requires ValidSettings(c.pool.settings) && id in s.journal && id !in Overdue(c, s)
    ensures var t := StepPool(c, s, OpPurge);
            && id in t.journal && t.journal[id] == Unlink(s.journal[id], Purged(c.pool.settings, s.pool))
            && (id in t.dropped ==> id in s.dropped)
  {
    hide Apply, Unlink, Purged, Overdue;
  }

  /** A run in which a purge takes the session off a closed row. */
  lemma PurgeClearsClosedRow(c: Setup, start: int) returns (s: System, t: System, sid: nat)
    requires ValidSettings(c.pool.settings) && CanCreate(c.pool)
    ensures Reachable(c, start, s) && 0 in s.journal && s.journal[0].endedAt.Some? && s.journal[0].session == Some(sid)
    ensures Reachable(c, start, t) && 0 in t.journal && t.journal[0] == s.journal[0].(session := None)
  {
    var wanted: Candidate;
    s, wanted := AliceIsConnecting(c, start);
    var row := s.journal[0];
    hide Reachable, Do, CanCreate, StepCloseRow, Early, On, Leaving;
    EarlyIs(s, s.states[0], row);
    var u := TornToClosing(c, start, s, row);
    ClosesUnbound(u, u.states[0], row, Connecting(wanted));
    DoEnds(c, u, CloseRow(0));
    sid := wanted.session;
    s := StepCloseRow(u, 0);
    Leads(c, start, u, CloseRow(0), s);
    var gone: set<nat>;
    t, gone := SessionGoes(c, start, s, sid);
  }

  /** The refused write: the session the call was bound to is gone, so the row stays open and the pump goes on. */
  lemma CloseIsRefused(s: System, st: CallState, row: Call, task: Task, session: Option<nat>)
    requires Leaving(s, st, row, task, session) && st.teardown.Closing? && st.teardown.pumped && SessionGone(s, 0)
    ensures StepCloseRow(s, 0) == Put(s, 0, st.(teardown := Stuck)).(pump := Free)
  {
  }

  /** A run in which a call's session is purged before its row is closed: the teardown is stuck. */
  lemma PurgeStrandsCall(c: Setup, start: int) returns (s: System)
    requires ValidSettings(c.pool.settings) && CanCreate(c.pool)
    ensures Reachable(c, start, s) && 0 in s.states && s.states[0].teardown.Stuck? && s.pump == Free
  {
    var wanted: Candidate;
    s, wanted := AliceIsConnecting(c, start);
    var row := s.journal[0];
    hide Reachable, Do, CanCreate, StepBegin, StepCloseRow, Early, Calling, On, Leaving, Quietly;
    Begins(s, 0, s.states[0], row, wanted);
    DoChoices(c, s, Begin(0));
    var bound := StepBegin(s, 0);
    Leads(c, start, s, Begin(0), bound);
    QuietShows(s, bound, 0);
    var left, gone := SessionGoes(c, start, bound, wanted.session);
    BoundIs(bound, left, row, wanted, gone);
    var u := TornToClosing(c, start, left, Unlink(row, gone));
    LeavingIs(u, u.states[0], Unlink(row, gone), left.states[0].task, left.states[0].session);
    CloseIsRefused(u, u.states[0], Unlink(row, gone), left.states[0].task, left.states[0].session);
    DoEnds(c, u, CloseRow(0));
    s := StepCloseRow(u, 0);
    Leads(c, start, u, CloseRow(0), s);
  }

  lemma BoundIs(s: System, t: System, row: Call, wanted: Candidate, gone: set<nat>)
    requires 0 in s.states && Calling(s, 0, s.states[0], row, wanted) && s.states[0].bridge.None?
    requires t == s.(pool := t.pool, journal := t.journal, dropped := t.dropped)
    requires 0 in t.journal && t.journal[0] == Unlink(row, gone) && s.states[0].call == 0
    ensures 0 in t.states && On(t, 0, t.states[0], Unlink(row, gone)) && t.pump == Free
    ensures t.states[0] == s.states[0] && t.states[0].teardown == Open && Unlink(row, gone).endedAt.None?
    ensures t.states[0].session == Some(wanted.session)
  {
  }
}
