/**
 What can follow in the call machine: a call that arrives for a live session can always be carried to
 the originate that dials the other party.
 */
module Progress {
  import opened Basics
  import opened Crypto
  import opened Schema
  import opened Allocation
  import opened Sessions
  import opened Routing
  import opened Invariant
  import opened Lifecycle
  import opened Pool
  import opened Reach
  import opened Journal
  import opened Stasis
  import opened Calls
  import opened Late
  import opened Links
  import opened Machine
  import opened Safety
  import opened Provenance
  import Phone

  // ---- Continuations ---------------------------------------------------------------------------

  /** The state after these steps from state `s`. */
  function Follow(c: Setup, s: System, events: seq<Event>): (t: System)
    requires ValidSettings(c.pool.settings)
  {
    if events == [] then s else Do(c, Follow(c, s, events[..|events| - 1]), events[|events| - 1])
  }

  lemma {:induction false} AfterFollow(c: Setup, start: int, events: seq<Event>, more: seq<Event>)
    requires ValidSettings(c.pool.settings)
    ensures After(c, start, events + more) == Follow(c, After(c, start, events), more)
    decreases |more|
  {
    hide Do;
    if more == [] {
      assert events + more == events;
    } else {
      var k := |more| - 1;
      assert (events + more)[..|events + more| - 1] == events + more[..k];
      AfterFollow(c, start, events, more[..k]);
    }
  }

  lemma Then(c: Setup, s: System, events: seq<Event>, t: System, e: Event)
    requires ValidSettings(c.pool.settings) && Follow(c, s, events) == t
    ensures Follow(c, s, events + [e]) == Do(c, t, e)
  {
    assert (events + [e])[..|events|] == events;
    hide Do;
  }

  // ---- One call, step by step ----------------------------------------------------------------------

  /** Call `n` is known, in this state and with this row. */
  predicate On(s: System, n: nat, st: CallState, row: Call) {
    && n in s.states && s.states[n] == st && n in s.registered
    && st.call in s.journal && s.journal[st.call] == row
    && (st.bridge.Some? ==> st.bridge.value in s.bridges)
  }

  /** Nothing of call `n` has been torn down or answered, and the pump is idle. */
  predicate Early(s: System, n: nat, st: CallState, row: Call) {
    && On(s, n, st, row) && s.pump == Free && st.teardown == Open && !st.answered && !st.entered
    && row.answeredAt.None? && row.endedAt.None? && row.status == InProgress
  }

  /** Past the choice of a session. */
  predicate Calling(s: System, n: nat, st: CallState, row: Call, wanted: Candidate) {
    Early(s, n, st, row) && st.callee == Some(wanted.callee) && st.session == Some(wanted.session)
  }

  /** Pool, originates and answered calls are as they were, and so are the row and the number shown. */
  ghost predicate Quietly(s: System, t: System, n: nat) {
    && t.pool == s.pool && t.dials == s.dials && n in s.states && n in t.states
    && t.states[n].proxy == s.states[n].proxy && t.states[n].call == s.states[n].call
    && forall sid :: AnsweredOf(Table(t), sid) == AnsweredOf(Table(s), sid)
  }

  lemma PutsQuietly(s: System, n: nat, after: CallState, row: Call)
    requires n in s.states && Early(s, n, s.states[n], row) && after.call == s.states[n].call
    requires after.proxy == s.states[n].proxy && after.teardown == Open && after.bridge == s.states[n].bridge
    requires !after.answered && !after.entered
    ensures Quietly(s, Put(s, n, after), n) && Early(Put(s, n, after), n, after, row)
  {
    hide AnsweredOf;
  }

  lemma Selects(c: Setup, s: System, n: nat, st: CallState, row: Call, wanted: Candidate)
    requires Early(s, n, st, row) && st.task.Asking? && st.bridge.None?
    requires Coded(wanted) && SelectByCode(st.task.candidates, wanted.extCode.value) == Some(wanted)
    ensures var t := StepTyped(c, s, n, wanted.extCode.value);
            && Quietly(s, t, n) && Early(t, n, t.states[n], row) && t.states[n].task == Attaching(wanted)
            && t.states[n].bridge.None? && t.states[n].session == st.session
  {
    var after := st.(task := Attaching(wanted), pin := wanted.extCode);
    assert StepTyped(c, s, n, wanted.extCode.value) == Put(s, n, after) by { hide SelectByCode; }
    hide StepTyped, SelectByCode;
    PutsQuietly(s, n, after, row);
  }

  lemma Attaches(s: System, n: nat, st: CallState, row: Call, wanted: Candidate)
    requires Early(s, n, st, row) && st.task == Attaching(wanted) && st.bridge.None?
               && wanted.session in s.pool.sessions
    ensures var t := StepAttachDone(s, n);
            && Quietly(s, t, n) && st.call in t.journal && Early(t, n, t.states[n], t.journal[st.call])
            && t.states[n].task == Connecting(wanted) && t.states[n].bridge.None?
  {
    var t := StepAttachDone(s, n);
    forall sid ensures AnsweredOf(Table(t), sid) == AnsweredOf(Table(s), sid) {
      assert AnsweredOf(Table(t), sid) == AnsweredOf(Table(s), sid);
    }
  }

  lemma Begins(s: System, n: nat, st: CallState, row: Call, wanted: Candidate)
    requires Early(s, n, st, row) && st.task == Connecting(wanted) && st.bridge.None?
    ensures var t := StepBegin(s, n);
            && Quietly(s, t, n) && Calling(t, n, t.states[n], row, wanted) && t.states[n].bridge.None?
            && t.states[n].task == if wanted.maxCalls.Some? then Counting(wanted) else SettingUp
  {
    var after := st.(
      session := Some(wanted.session), direction := Some(wanted.direction), callee := Some(wanted.callee),
      chosen := Some(wanted), task := if wanted.maxCalls.Some? then Counting(wanted) else SettingUp);
    assert StepBegin(s, n) == Put(s, n, after);
    hide StepBegin;
    PutsQuietly(s, n, after, row);
  }

  lemma Passes(s: System, n: nat, st: CallState, row: Call, wanted: Candidate)
    requires Calling(s, n, st, row, wanted) && st.task == Counting(wanted) && st.bridge.None? && wanted.maxCalls.Some?
    requires |AnsweredOf(Table(s), wanted.session)| < wanted.maxCalls.value
    ensures var t := StepCheckLimit(s, n);
            && Quietly(s, t, n) && Calling(t, n, t.states[n], row, wanted) && t.states[n].bridge.None?
            && t.states[n].task == SettingUp
  {
    var after := st.(task := SettingUp);
    assert StepCheckLimit(s, n) == Put(s, n, after) by { hide AnsweredOf; }
    hide StepCheckLimit;
    PutsQuietly(s, n, after, row);
  }

  lemma Bridges(s: System, n: nat, st: CallState, row: Call, wanted: Candidate)
    requires Calling(s, n, st, row, wanted) && st.task.SettingUp?
    ensures var t := StepBridgeMade(s, n, true);
            && Quietly(s, t, n) && Calling(t, n, t.states[n], row, wanted) && t.states[n].task.Adding?
            && t.states[n].bridge.Some?
  {
    var after := st.(bridge := Some(s.nextBridge), task := Adding);
    var t := StepBridgeMade(s, n, true);
    assert t == Put(s.(bridges := s.bridges[s.nextBridge := {}], nextBridge := s.nextBridge + 1), n, after);
    hide StepBridgeMade, AnsweredOf;
  }

  lemma Adds(s: System, n: nat, st: CallState, row: Call, wanted: Candidate)
    requires Calling(s, n, st, row, wanted) && st.task.Adding? && st.bridge.Some?
    ensures var t := StepLegAdded(s, n, true);
            && Quietly(s, t, n) && Calling(t, n, t.states[n], row, wanted) && t.states[n].task.Dialling?
            && t.states[n].bridge.Some?
  {
    hide AnsweredOf;
  }

  lemma Dials(s: System, n: nat, st: CallState, row: Call, wanted: Candidate)
    requires Calling(s, n, st, row, wanted) && st.task.Dialling? && st.bridge.Some?
    ensures var t := StepDial(s, n, true);
            && n in t.states && Calling(t, n, t.states[n], row, wanted) && t.pool == s.pool
            && t.states[n].call == st.call
            && t.states[n].task.Dialled? && t.states[n].dialled && t.states[n].bridge.Some?
            && t.dials == s.dials + [Dial(n, wanted.callee, st.proxy, wanted.session)]
  {
    hide AnsweredOf;
  }

  // ---- From the arrival to the originate -----------------------------------------------------------

  lemma {:induction false} FollowAppend(c: Setup, s: System, first: seq<Event>, more: seq<Event>)
    requires ValidSettings(c.pool.settings)
    ensures Follow(c, s, first + more) == Follow(c, Follow(c, s, first), more)
    decreases |more|
  {
    hide Do;
    if more == [] {
      assert first + more == first;
    } else {
      var k := |more| - 1;
      assert (first + more)[..|first + more| - 1] == first + more[..k];
      FollowAppend(c, s, first, more[..k]);
    }
  }

  lemma DoChoices(c: Setup, s: System, e: Event)
    requires ValidSettings(c.pool.settings)
    ensures e.Typed? ==> Do(c, s, e) == StepTyped(c, s, e.n, e.code)
    ensures e.AttachDone? ==> Do(c, s, e) == StepAttachDone(s, e.n)
    ensures e.Begin? ==> Do(c, s, e) == StepBegin(s, e.n)
    ensures e.CheckLimit? ==> Do(c, s, e) == StepCheckLimit(s, e.n)
  {
    hide StepTyped, StepAttachDone, StepBegin, StepCheckLimit;
  }

  lemma DoDials(c: Setup, s: System, e: Event)
    requires ValidSettings(c.pool.settings)
    ensures e.BridgeMade? ==> Do(c, s, e) == StepBridgeMade(s, e.n, e.ok)
    ensures e.LegAdded? ==> Do(c, s, e) == StepLegAdded(s, e.n, e.ok)
    ensures e.DialAnswered? ==> Do(c, s, e) == StepDial(s, e.n, e.ok)
    ensures e.DialReturned? ==> Do(c, s, e) == StepDialReturned(s, e.n)
  {
    hide StepBridgeMade, StepLegAdded, StepDial, StepDialReturned;
  }

  function Choosing(n: nat, pin: Option<string>): seq<Event> {
    if pin.Some? then [] + [Typed(n, pin.value)] + [AttachDone(n)] else []
  }

  function Counted(n: nat, capped: bool): seq<Event> {
    if capped then [] + [Begin(n)] + [CheckLimit(n)] else [] + [Begin(n)]
  }

  function Ringing(n: nat): seq<Event> {
    [] + [BridgeMade(n, true)] + [LegAdded(n, true)] + [DialAnswered(n, true)]
  }

  /** The steps of a call that nothing holds up, from its arrival to its originate. */
  function Path(n: nat, pin: Option<string>, capped: bool): seq<Event> {
    Choosing(n, pin) + Counted(n, capped) + Ringing(n)
  }

  /** The PIN of the wanted session is typed and the session attached. */
  lemma PinSelects(c: Setup, s: System, n: nat, row: Call, wanted: Candidate) returns (t: System, after: Call)
    requires ValidSettings(c.pool.settings) && n in s.states && Early(s, n, s.states[n], row)
    requires s.states[n].task.Asking? && s.states[n].bridge.None? && wanted.session in s.pool.sessions
    requires Coded(wanted) && SelectByCode(s.states[n].task.candidates, wanted.extCode.value) == Some(wanted)
    ensures t == Follow(c, s, Choosing(n, wanted.extCode)) && Quietly(s, t, n)
    ensures Early(t, n, t.states[n], after) && t.states[n].task == Connecting(wanted) && t.states[n].bridge.None?
  {
    hide Early, Quietly, SelectByCode, Do, StepTyped, StepAttachDone, Follow;
    assert Follow(c, s, []) == s by { Nowhere(c, s); }
    Selects(c, s, n, s.states[n], row, wanted);
    DoChoices(c, s, Typed(n, wanted.extCode.value));
    Then(c, s, [], s, Typed(n, wanted.extCode.value));
    var u := StepTyped(c, s, n, wanted.extCode.value);
    QuietPool(s, u, n);
    Attaches(u, n, u.states[n], row, wanted);
    DoChoices(c, u, AttachDone(n));
    Then(c, s, [] + [Typed(n, wanted.extCode.value)], u, AttachDone(n));
    t := StepAttachDone(u, n);
    after := t.journal[u.states[n].call];
    QuietlyTwice(s, u, t, n);
  }

  lemma Nowhere(c: Setup, s: System)
    requires ValidSettings(c.pool.settings)
    ensures Follow(c, s, []) == s
  {
  }

  lemma QuietPool(s: System, t: System, n: nat)
    requires Quietly(s, t, n)
    ensures t.pool == s.pool && n in t.states
  {
  }

  lemma QuietlyTwice(s: System, t: System, u: System, n: nat)
    requires Quietly(s, t, n) && Quietly(t, u, n)
    ensures Quietly(s, u, n)
  {
  }

  /** The call is bound to the session and, if that is capped, counted. */
  lemma CountPasses(c: Setup, s: System, n: nat, row: Call, wanted: Candidate) returns (t: System)
    requires ValidSettings(c.pool.settings) && n in s.states && Early(s, n, s.states[n], row)
    requires s.states[n].task == Connecting(wanted) && s.states[n].bridge.None?
    requires wanted.maxCalls.Some? ==> |AnsweredOf(Table(s), wanted.session)| < wanted.maxCalls.value
    ensures t == Follow(c, s, Counted(n, wanted.maxCalls.Some?)) && Quietly(s, t, n)
    ensures Calling(t, n, t.states[n], row, wanted) && t.states[n].task == SettingUp
  {
    hide Early, Calling, Do, StepBegin, StepCheckLimit, Follow, AnsweredOf;
    assert Follow(c, s, []) == s by { Nowhere(c, s); }
    Begins(s, n, s.states[n], row, wanted);
    DoChoices(c, s, Begin(n));
    Then(c, s, [], s, Begin(n));
    t := StepBegin(s, n);
    if wanted.maxCalls.Some? {
      var u := t;
      Passes(u, n, u.states[n], row, wanted);
      DoChoices(c, u, CheckLimit(n));
      Then(c, s, [] + [Begin(n)], u, CheckLimit(n));
      t := StepCheckLimit(u, n);
      QuietlyTwice(s, u, t, n);
    }
  }

  /** The bridge is made, the caller's leg added and the other party dialled. */
  lemma CalleeIsDialled(c: Setup, s: System, n: nat, row: Call, wanted: Candidate) returns (t: System)
    requires ValidSettings(c.pool.settings) && n in s.states && Calling(s, n, s.states[n], row, wanted)
    requires s.states[n].task.SettingUp?
    ensures t == Follow(c, s, Ringing(n)) && n in t.states && Calling(t, n, t.states[n], row, wanted)
    ensures t.pool == s.pool && t.dials == s.dials + [Dial(n, wanted.callee, s.states[n].proxy, wanted.session)]
    ensures t.states[n].call == s.states[n].call
    ensures t.states[n].task.Dialled? && t.states[n].dialled && t.states[n].bridge.Some?
  {
    hide Calling, Quietly, Do, StepBridgeMade, StepLegAdded, StepDial, Follow, AnsweredOf;
    assert Follow(c, s, []) == s by { Nowhere(c, s); }
    Bridges(s, n, s.states[n], row, wanted);
    DoDials(c, s, BridgeMade(n, true));
    Then(c, s, [], s, BridgeMade(n, true));
    var u := StepBridgeMade(s, n, true);
    QuietShows(s, u, n);
    Adds(u, n, u.states[n], row, wanted);
    DoDials(c, u, LegAdded(n, true));
    Then(c, s, [] + [BridgeMade(n, true)], u, LegAdded(n, true));
    var v := StepLegAdded(u, n, true);
    QuietShows(u, v, n);
    Dials(v, n, v.states[n], row, wanted);
    DoDials(c, v, DialAnswered(n, true));
    Then(c, s, [] + [BridgeMade(n, true)] + [LegAdded(n, true)], v, DialAnswered(n, true));
    t := StepDial(v, n, true);
  }

  lemma QuietShows(s: System, t: System, n: nat)
    requires Quietly(s, t, n)
    ensures t.pool == s.pool && t.dials == s.dials && n in s.states && n in t.states
    ensures t.states[n].proxy == s.states[n].proxy && t.states[n].call == s.states[n].call
  {
  }

  // ---- Reachability, end to end ----------------------------------------------------------------

  /** A call that has arrived for a session, with its row: routed at once or asked for the session's PIN. */
  predicate Offered(s: System, n: nat, row: Call, wanted: Candidate) {
    && n in s.states && Early(s, n, s.states[n], row) && s.states[n].bridge.None?
    && if s.states[n].task.Asking? then
         Coded(wanted) && SelectByCode(s.states[n].task.candidates, wanted.extCode.value) == Some(wanted)
       else
         s.states[n].task.Connecting? && s.states[n].task.candidate.(extCode := wanted.extCode) == wanted
  }

  lemma ArrivalIsOffered(c: Setup, s: System, n: nat, dialled: string, caller: string, wanted: Candidate)
    requires ValidSettings(c.pool.settings) && s.pump == Free && n !in s.states && c.maxAttempts >= 1
    requires Reaches(Resolve(c.pool, s.pool, dialled, caller).1.decision, wanted)
    ensures var t, decision := StepArrive(c, s, n, dialled, caller),
              Resolve(c.pool, s.pool, dialled, caller).1.decision;
            && s.nextCall in t.journal && Offered(t, n, t.journal[s.nextCall], wanted)
            && (t.states[n].task.Asking? <==> decision.AskCode?)
  {
    hide Resolve, SelectByCode;
  }

  lemma ArrivalIsQuiet(c: Setup, s: System, n: nat, dialled: string, caller: string)
    requires ValidSettings(c.pool.settings) && AllOk(s) && s.pump == Free && n !in s.states
    ensures var t := StepArrive(c, s, n, dialled, caller);
            && n in t.states && t.states[n].proxy == ProxyOf(dialled)
            && t.dials == s.dials && t.pool.sessions == s.pool.sessions
            && forall sid :: AnsweredOf(Table(t), sid) == AnsweredOf(Table(s), sid)
  {
    ResolveWrites(c.pool, s.pool, dialled, caller);
    NextRowIsNew(s);
    assert Resolve(c.pool, s.pool, dialled, caller).1.proxy == ProxyOf(dialled) by {
      hide Phone.Normalize, ProxyOf, ResolveKey;
    }
    hide Resolve, ProxyOf, AllOk, AnsweredOf;
    var t := StepArrive(c, s, n, dialled, caller);
    RowIsOpen(s, s.nextCall, t);
  }

  lemma RowIsOpen(s: System, id: nat, t: System)
    requires id !in s.journal && id in t.journal && t.journal == s.journal[id := t.journal[id]]
    requires t.journal[id].status == InProgress && t.dropped == s.dropped
    ensures forall sid :: AnsweredOf(Table(t), sid) == AnsweredOf(Table(s), sid)
  {
  }

  lemma NextRowIsNew(s: System)
    requires AllOk(s)
    ensures s.nextCall !in s.journal
  {
    assert s.nextCall in s.journal ==> RowTracked(s, s.nextCall);
  }

  /** From the arrival on, nothing need hold the call up. */
  lemma OfferedIsDialled(c: Setup, s: System, n: nat, row: Call, wanted: Candidate)
    requires ValidSettings(c.pool.settings) && Offered(s, n, row, wanted) && wanted.session in s.pool.sessions
    requires wanted.maxCalls.Some? ==> |AnsweredOf(Table(s), wanted.session)| < wanted.maxCalls.value
    ensures var pin := if s.states[n].task.Asking? then wanted.extCode else None;
            Follow(c, s, Path(n, pin, wanted.maxCalls.Some?)).dials ==
            s.dials + [Dial(n, wanted.callee, s.states[n].proxy, wanted.session)]
  {
    hide Follow, Early, Calling, On, Quietly, SelectByCode, AnsweredOf, Choosing, Counted, Ringing;
    var pin := if s.states[n].task.Asking? then wanted.extCode else None;
    var u, after, candidate := s, row, wanted;
    if pin.Some? {
      u, after := PinSelects(c, s, n, row, wanted);
    } else {
      candidate := s.states[n].task.candidate;
      QuietSelf(s, n);
      ChoosesNothing(c, s, n);
    }
    assert u == Follow(c, s, Choosing(n, pin));
    assert candidate.session == wanted.session && candidate.maxCalls == wanted.maxCalls
        && candidate.callee == wanted.callee;
    QuietCounts(s, u, n, wanted.session);
    QuietShows(s, u, n);
    var v := CountPasses(c, u, n, after, candidate);
    QuietShows(u, v, n);
    var t := CalleeIsDialled(c, v, n, after, candidate);
    FollowAppend(c, s, Choosing(n, pin), Counted(n, wanted.maxCalls.Some?));
    FollowAppend(c, s, Choosing(n, pin) + Counted(n, wanted.maxCalls.Some?), Ringing(n));
  }

  lemma ChoosesNothing(c: Setup, s: System, n: nat)
    requires ValidSettings(c.pool.settings)
    ensures Follow(c, s, Choosing(n, None)) == s
  {
  }

  lemma QuietSelf(s: System, n: nat)
    requires n in s.states
    ensures Quietly(s, s, n)
  {
  }

  lemma QuietCounts(s: System, t: System, n: nat, sid: nat)
    requires Quietly(s, t, n)
    ensures AnsweredOf(Table(t), sid) == AnsweredOf(Table(s), sid)
  {
  }

  /** The session is live, not at its cap, and `number` is a party of it calling its proxy number. */
  predicate Callable(s: System, sid: nat, dialled: string, caller: string, number: string) {
    var db := s.pool;
    && sid in db.sessions && db.sessions[sid].status == Active && db.sessions[sid].expiresAt > db.now
    && Phone.Normalize(dialled) == Ok(E164Of(db, db.sessions[sid].number))
    && Phone.Normalize(caller) == Ok(number) && sid in db.parties && IsParty(db.parties[sid], number)
    && (db.sessions[sid].maxCalls.Some? ==> |AnsweredOf(Table(s), sid)| < db.sessions[sid].maxCalls.value)
  }

  /** The arrival, then the PIN of the session if one is asked for, then the steps up to the originate. */
  function Connection(c: Config, db: Db, n: nat, sid: nat, dialled: string, caller: string, number: string): seq<Event>
    requires sid in db.sessions && sid in db.parties
  {
    var wanted := CandidateOf(db, sid, PartyHash(number));
    var asked := Resolve(c, db, dialled, caller).1.decision.AskCode?;
    [Arrive(n, dialled, caller)] + Path(n, if asked then wanted.extCode else None, wanted.maxCalls.Some?)
  }

  /**
    Reachability, end to end and over every run: whenever the pump is idle and either party of a live
    session whose cap is not used up dials its proxy number, in any notation, the run can go on, with
    the PIN of the session if one is asked for, to an originate that dials the other party.
   */
  lemma SessionIsConnected(c: Setup, start: int, events: seq<Event>, n: nat, sid: nat,
                           dialled: string, caller: string, number: string)
    requires ValidSettings(c.pool.settings) && c.maxAttempts >= 1
    requires var s := After(c, start, events);
             s.pump == Free && n !in s.states && Callable(s, sid, dialled, caller, number)
    ensures var s := After(c, start, events);
            var callee := CandidateOf(s.pool, sid, PartyHash(number)).callee;
            && After(c, start, events + Connection(c.pool, s.pool, n, sid, dialled, caller, number)).dials ==
               s.dials + [Dial(n, callee, E164Of(s.pool, s.pool.sessions[sid].number), sid)]
            && callee != number && IsParty(s.pool.parties[sid], callee)
  {
    var s := After(c, start, events);
    AfterInv(c, start, events);
    SysParts(c, s);
    hide SysInv, Inv, AllOk, QueueInv, RoutesOk, BridgesOk, DialsOk, LinksOk, Connection, CandidateOf, IsParty, After;
    ConnectsFrom(c, s, n, sid, dialled, caller, number);
    AfterFollow(c, start, events, Connection(c.pool, s.pool, n, sid, dialled, caller, number));
  }

  lemma ConnectsFrom(c: Setup, s: System, n: nat, sid: nat, dialled: string, caller: string, number: string)
    requires ValidSettings(c.pool.settings) && c.maxAttempts >= 1 && Inv(s.pool) && AllOk(s)
    requires s.pump == Free && n !in s.states && Callable(s, sid, dialled, caller, number)
    ensures var callee := CandidateOf(s.pool, sid, PartyHash(number)).callee;
            && Follow(c, s, Connection(c.pool, s.pool, n, sid, dialled, caller, number)).dials ==
               s.dials + [Dial(n, callee, E164Of(s.pool, s.pool.sessions[sid].number), sid)]
            && callee != number && IsParty(s.pool.parties[sid], callee)
  {
    hide Inv, AllOk, Phone.Normalize, ProxyOf, CandidateOf, Resolve;
    hide Reaches, IsParty, Offered, StepArrive, Follow, Path;
    hide AnsweredOf;
    var wanted := CandidateOf(s.pool, sid, PartyHash(number));
    CandidateIs(s.pool, sid, PartyHash(number));
    ResolveReaches(c.pool, s.pool, sid, dialled, caller, number);
    ProxyIs(dialled, E164Of(s.pool, s.pool.sessions[sid].number));
    ArrivalIsOffered(c, s, n, dialled, caller, wanted);
    ArrivalIsQuiet(c, s, n, dialled, caller);
    var t := StepArrive(c, s, n, dialled, caller);
    OfferedIsDialled(c, t, n, t.journal[s.nextCall], wanted);
    var asked := Resolve(c.pool, s.pool, dialled, caller).1.decision.AskCode?;
    ArrivesFirst(c, s, n, dialled, caller, Path(n, if asked then wanted.extCode else None, wanted.maxCalls.Some?));
  }

  lemma CandidateIs(db: Db, sid: nat, caller: PartyHash)
    requires sid in db.sessions && sid in db.parties
    ensures CandidateOf(db, sid, caller).maxCalls == db.sessions[sid].maxCalls
  {
  }

  lemma ProxyIs(dialled: string, e164: string)
    requires Phone.Normalize(dialled) == Ok(e164)
    ensures ProxyOf(dialled) == e164
  {
  }

  lemma ArrivesFirst(c: Setup, s: System, n: nat, dialled: string, caller: string, path: seq<Event>)
    requires ValidSettings(c.pool.settings)
    ensures Follow(c, s, [Arrive(n, dialled, caller)] + path) == Follow(c, StepArrive(c, s, n, dialled, caller), path)
  {
    hide StepArrive;
    Nowhere(c, s);
    Then(c, s, [], s, Arrive(n, dialled, caller));
    assert [] + [Arrive(n, dialled, caller)] == [Arrive(n, dialled, caller)];
    assert Do(c, s, Arrive(n, dialled, caller)) == StepArrive(c, s, n, dialled, caller);
    hide Follow, Do;
    FollowAppend(c, s, [Arrive(n, dialled, caller)], path);
  }
}
