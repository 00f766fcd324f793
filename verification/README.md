# A model of the number-masking service

The service lends proxy telephone numbers to pairs of parties. A session binds a pair to a number
until it is closed or expires; a caller who dials the number is routed to the other party, by a PIN
when several of the caller's sessions share the number. This project models that service and proves
what it promises over whole histories.

Three state machines are modelled, with two small cores beside them.

- **The pool** (`Schema`, `Allocation`, `Sessions`, `Routing`): numbers, sessions, party rows and the
  lookup cache. One transaction, with the trigger and the cache invalidation it causes, is one step
  at one instant of a clock that never runs back. `Invariant`, `Lifecycle`, `Steps`, `Upkeep` and
  `Pool` prove what every step keeps; `Reach`, `Cooling`, `Serial`, `Promotion`, `Exhaustion`,
  `Reporting`, `Outcomes`, `Statistics` and `Precedence` prove the theorems; `Scenes` and
  `SharedScenes` give the runs that show where a promise ends. `Store` is the service itself: an
  object whose fields the methods update, loop by loop, each method proved to compute the function of
  the state that specifies it.
- **The cache** (`Routing`, `Lifecycle`, `Reach`): a keyed store with deadlines, proved to refine the
  uncached query.
- **The call machine** (`Journal`, `Causes`, `Stasis`): the event pump, each call's own tasks and the
  journal. It is a state machine over the await points, because its theorems are about interleavings:
  any sequence of steps is a run. `Calls`, `CallSteps`, `Late`, `Evolution`, `Effects`, `Machine`,
  `Links`, `Legs`, `Provenance`, `Safety`, `Cap` and `Progress` prove its theorems, `CallScenes` gives
  runs. The journal table and the queue of pending causes are also given as objects with their own
  methods.
- **Digits and numbers** (`Phone`, `Scrub`, `Crypto`, `Dtmf`).

## Conventions of the model

- The party hash is a free constructor, hence injective; a ciphertext remembers its plain text, hence
  decryption undoes encryption. PINs are modelled digit by digit; random draws come from an arbitrary
  tape, so a theorem holds for every sequence of draws.
- The database may order rows in any way the `ORDER BY` of a query allows (`Schema.Plan`); theorems
  hold for every such order. `SKIP LOCKED` is an arbitrary set `locked`.
- Session and journal identifiers are increasing numbers. `closures` and `forgotten` are history,
  read by no operation: every session end, and every party row a purge deleted.
- The only setting assumed valid is a PIN length of at least one digit.
- In the call machine a failed Asterisk request has no effect, inbound channel identifiers are new,
  and no call in progress outlasts the retention of its journal row. The callee may answer, and the
  join of its leg succeed or fail, at any time, also while the watchdog tears the call down; a teardown
  may fail to destroy the bridge.
- The foreign key from journal rows to sessions is modelled: a purge clears it, and a write that names
  a purged session fails. Otherwise the database does not fail during teardown. What the proofs
  remember of rows a purge has deleted is kept in `journal`; `Stasis.Table` is the table itself.

## Where the code and its documentation differ

- `scrub_text` promises to mask every number-shaped run; it leaves seven digits in a row exactly on
  texts with a run of eighteen or more (`Scrub.CleanExactly`, with an input in `Scrub.EighteenDigits`).
- `pool_stats` counts a number released exactly at the cooldown edge as free; in number scope the
  allocator still refuses it, at that instant and no other (`Cooling.FreeIsAllocatable`, with a run
  in `Scenes.EdgeInstant`).
- `extend_session` documents a ceiling; it holds exactly unless an instant beyond it is asked for
  (`Outcomes.ExtendedAsAsked`, with a run in `Scenes.BeyondCeiling`).
- `promoted_session_ids` lists the promotions made on the number won. A candidate given up after a
  promotion keeps it unlisted; the list is complete exactly if there was none such
  (`Reporting.PromotedExactly`, with a run in `SharedScenes.UnlistedPromotion`). The invariants
  survive this (`Invariant.AllocateOk`).
- A purge may forget a quarantine, and the cooldown be cut short, exactly when the retention of closed
  sessions is shorter than the cooldown, sessions can be created, and mode "always" in number scope
  does not leave one session a number (`Scenes.PurgeTransparentExactly`, `Scenes.CooldownExactly`).
- The watchdog does not stop a join in progress. If the join then succeeds, the call's row ends as
  unanswered with an answer, and in no other case is a row incoherent (`Safety.JournalIsCoherent`,
  with a run in `CallScenes.LateJoinSpoils`).
- A closed row is not final. A late join can still be marked on it; `attach_session`, which has no
  guard, can still set its session; a purge clears its session, and later deletes it; a missing cause is
  filled in. Nothing else changes it (`Effects.ClosedRowExactly`, with runs in
  `CallScenes.AttachmentLandsLate` and `CallScenes.PurgeClearsClosedRow`).
- Teardown promises to close the row and forget the call. It does so exactly if the session the call was
  bound to is still stored; if that was closed and purged during the call, the row is never closed and
  the call never forgotten (`Safety.ClosesExactly`, with a run in `CallScenes.PurgeStrandsCall`).

## Model

| member | source | states |
|---|---|---|
| `Reach.LiveSessionReachable` | app/services/routing.py:85-177 | Over every run: either party of a live session who dials its proxy number, in any notation, is routed to that session and the other party, at once or by that session's PIN |
| `Reach.VerdictReaches` | app/services/routing.py:127-177 | The same for the uncached query in any invariant state; it connects directly exactly when the session is the caller's only live one there |
| `Reach.NeverAmbiguous` | app/services/routing.py:148-166 | The ambiguous-without-code branch is unreachable and no live session is dropped from the PIN choice |
| `Reach.SeveralAreCoded` | app/services/allocation.py:13-18 | Several live sessions of one caller on one number all carry PINs, pairwise distinct |
| `Reach.SelectByOwnCode` | app/services/routing.py:180-185 | Among candidates with distinct PINs a candidate's PIN selects it, in any row order |
| `Reach.SelectNothingElse` | app/services/routing.py:180-185 | A PIN selects a candidate that carries it, and nothing only if none does |
| `Reach.OffersAreLive` | app/services/routing.py:219-266 | A call is only ever offered live sessions of its caller on the dialled proxy |
| `Reach.CacheRefines` | app/services/routing.py:127-146 | The cached decision has the action, session, callee and direction of the query; only a reject status can lag, saying expired of a party whose rows a purge deleted |
| `Reach.CacheRefinesOnRuns` | app/services/routing.py:293-391 | The same over every run, with exact reject statuses when nothing was purged |
| `Pool.RememberKeepsCache` | app/services/routing.py:293-333 | What an uncached decision stores is right for as long as it is visible, and never outlives the session |
| `Pool.ApplyKeepsInv` | app/services/allocation.py:186-288 | Every operation keeps the invariant: rows mirror, sessions stay apart, history and cache are right |
| `Pool.MirrorsAndIndexes` | app/db/models.py:191-197 | Over every run party rows mirror their session, both partial unique indexes hold, and no creation is refused by them |
| `Invariant.IndexesHold` | app/db/models.py:131-139 | The invariant implies that no two entries of either partial index collide |
| `Invariant.PromoteKeepsCore` | app/db/triggers.py:12-35 | Giving an unused PIN to an active session keeps the invariant and changes PINs only |
| `Invariant.FreshCodeFacts` | app/services/allocation.py:291-297 | A drawn PIN is unused and well formed; failing means all twenty draws were in use |
| `Invariant.PromoteAllOk` | app/services/allocation.py:248-288 | The promotion loop keeps the invariant, complete or abandoned; complete, every row has a PIN unused before |
| `Invariant.TryCandidatesOk` | app/services/allocation.py:186-245 | The candidate loop keeps the invariant and its winner fits the number it won |
| `Invariant.AllocateOk` | app/services/allocation.py:134-183 | Whatever is locked and drawn the chosen number is eligible, unlocked and fits the new session |
| `Steps.CreateShape` | app/services/sessions.py:36-148 | A creation adds one row that fits and issues PINs, or leaves no trace but the draws |
| `Steps.CreateKeepsInv` | app/services/sessions.py:109-136 | A creation keeps the invariant and never ends in an allocation conflict |
| `Steps.PinsKeepSound` | app/services/allocation.py:276-287 | Issuing PINs changes no history and no cached route |
| `Steps.InvalidateClears` | app/db/cache.py:105-113 | Dropping a number's cached decisions leaves no stale one |
| `Upkeep.ExtendKeepsInv` | app/services/sessions.py:182-240 | Extending keeps the invariant, in particular the expiry bound of cached routes |
| `Upkeep.CloseKeepsInv` | app/services/sessions.py:243-275 | Closing keeps the invariant, in particular that an idle number was released no earlier than any end on it |
| `Upkeep.SweepKeepsInv` | app/services/sessions.py:306-343 | The sweep, ending all due rows first and releasing their numbers after, keeps the invariant |
| `Upkeep.EndAndRelease` | app/services/sessions.py:327-341 | Between the two loops numbers await release and invalidation; after the second none does |
| `Upkeep.PurgeKeepsInv` | app/services/sessions.py:346-389 | Purging keeps the invariant |
| `Upkeep.TickKeepsInv` | app/db/cache.py:85-92 | Time passing keeps the invariant: a visible entry stays right until its deadline |
| `Cooling.CooldownRespected` | app/services/allocation.py:62-77 | Over every run without a purge, and over every run if retention covers the cooldown, in every mode and both scopes: a session created on a number after one of its parties had one end there starts no sooner than the cooldown after that end |
| `Scenes.CooldownExactly` | app/services/sessions.py:362-381 | For all settings: the cooldown is respected on all runs, whatever PINs are drawn, if and only if retention covers it, or no session can be created, or mode always in number scope has a cap below two; else a run creates too soon |
| `Cooling.FreeIsAllocatable` | app/services/numbers.py:145-159 | A number counted free passes the exclusive query for every pair, exactly but for the edge instant in number scope |
| `Cooling.AllocatableIsFree` | app/services/numbers.py:145-159 | In number scope the idle numbers the query accepts for any pair are exactly the free ones off the edge |
| `Cooling.PurgeTransparent` | app/services/sessions.py:346-389 | With retention covering the cooldown a purge changes no number's eligibility for any pair, now or later |
| `Scenes.PurgeTransparentExactly` | app/services/allocation.py:69-76 | For all settings: over all runs a purge changes no eligibility under exactly the same condition; else a run has a number a purge frees too soon |
| `Serial.SerialRespects` | app/services/allocation.py:62-68 | In mode always, number scope and a cap below two the cooldown holds on every run for whole numbers, whatever is purged when |
| `Serial.SerialTransparent` | app/services/allocation.py:62-77 | In those settings a purge changes no eligibility: a number where a party is in quarantine is itself in its cooldown |
| `Serial.ApplyKeepsTurns` | app/services/allocation.py:62-68 | In those settings every operation keeps the sessions of a number in turn: at most one active, each begun after the cooldown of all ended before |
| `Scenes.EdgeInstant` | app/services/numbers.py:153-159 | In number scope a run ends at the instant where the number counted free is refused |
| `Cooling.PurgeKeepsVerdicts` | app/services/routing.py:188-216 | A purge changes no connection and no PIN choice, now or later; a reject stays a reject |
| `Promotion.PromotionBounded` | app/services/allocation.py:118-131 | One candidate promotes at most two sessions, each the only active one there of a requested party |
| `Promotion.PinSupply` | app/services/allocation.py:200-230 | With the cap within 10^length, an unused PIN exists at the first draw and at every promotion |
| `Promotion.AlwaysNeverPromotes` | app/services/allocation.py:20-22 | In runs of mode always nothing is ever promoted |
| `Promotion.QuarantinedNumberIsIdle` | app/services/allocation.py:64-68 | Over every run, in number scope: a number released within the cooldown has no active session |
| `Reporting.PromotedExactly` | app/services/allocation.py:40-51 | The list of a creation is exactly what needed promotion on the number won and exactly what gained a PIN there; it is all that gained a PIN if and only if no earlier candidate was given up after a promotion |
| `Reporting.TurnIsReported` | app/services/allocation.py:200-245 | One candidate: a winner lists every session it gave a PIN; one given up gave a PIN to any session exactly if a PIN was drawn for the new session and the first of two rows but none for the second |
| `Reporting.LoopIsReported` | app/services/allocation.py:186-245 | The candidate loop: unlisted promotions exist exactly if some candidate was so given up, and lie on other numbers |
| `Reporting.RepeatedDraws` | app/services/allocation.py:276-287 | With two rows to promote, draws 2 to 21 that repeat draw 0 lose the candidate with a promotion made |
| `SharedScenes.UnlistedPromotion` | app/services/allocation.py:49-50 | In mode auto a run of two numbers and four sessions ends in a creation that succeeds and leaves a session promoted and unlisted |
| `Exhaustion.HonestExhaustion` | app/services/allocation.py:165-245 | Nothing locked and no candidate unlucky in its turn: mode auto refuses exactly when no number passes the exclusive query and every eligible one is at the cap; a shared number is least loaded |
| `Exhaustion.RefusalIsHonest` | app/services/allocation.py:165-245 | Whatever is locked: refusing, sharing, or choosing a busier number is each excused by numbers no busier that were locked or lost their own turn for want of fresh draws |
| `Exhaustion.LimitHidesNothing` | app/services/allocation.py:96-106 | The limit of twenty rows hides no number less loaded than those listed |
| `Exhaustion.ExclusiveIsFirst` | app/services/allocation.py:79-94 | The exclusive choice is first in release order, never-released numbers before, skipping locked ones only |
| `Exhaustion.LoopPassesOver` | app/services/allocation.py:198-245 | The winner of the candidate loop is exactly the first candidate that is not full, not locked and not unlucky from the draw its own turn begins with |
| `Exhaustion.GivenUpExactly` | app/services/allocation.py:200-230 | A candidate is given up exactly when one of the fresh PINs it needs, drawn in a row from where its turn begins, finds twenty draws used |
| `Exhaustion.UnluckyHadSupply` | app/services/allocation.py:291-297 | An unlucky candidate under its cap had an unused PIN; twenty draws of its turn missed it |
| `Outcomes.EndedIsNeverOffered` | app/services/sessions.py:255-274 | Over every run: once closed or swept a session is never offered to a caller again, whatever happens later and whatever was cached |
| `Outcomes.EndedForGood` | app/services/sessions.py:265-270 | Over every run an ended session stays ended |
| `Outcomes.CreatedAsAsked` | app/services/sessions.py:36-148 | A created session has the parties, roles, cap and lifetime asked for and the number and PIN allocated; others differ at most by a PIN; an error leaves no trace |
| `Outcomes.ExtendedAsAsked` | app/services/sessions.py:182-240 | An extension moves one active session's expiry into the future and touches nothing else stored; it stays within the ceiling exactly unless an instant beyond it was asked for; an error changes nothing |
| `Scenes.BeyondCeiling` | app/services/sessions.py:212-217 | A run whose extension to an instant beyond the ceiling is accepted |
| `Outcomes.CloseEnds` | app/services/sessions.py:268-274 | A close ends the session and its party rows now, releases its number exactly if it was the last there, and spares every other session and number |
| `Outcomes.CloseTwice` | app/services/sessions.py:265-267 | Closing again changes nothing |
| `Outcomes.SweepIsExact` | app/services/sessions.py:316-333 | A sweep ends exactly the rows it returns, all due and due longest first; a due one is left only at the limit |
| `Statistics.Snapshot` | app/services/numbers.py:132-169 | The snapshot loop counts exactly the sets each figure names |
| `Statistics.CountsAddUp` | app/services/numbers.py:145-159 | Enabled numbers are partitioned into in use, cooling down and free |
| `Precedence.ApplyPrecedes` | app/services/sessions.py:346-389 | Time and identifiers only grow, and a session's call cap never changes, over every operation |
| `Store.Store.FreshCode` | app/services/allocation.py:291-297 | The draw loop computes the first unused PIN within twenty draws |
| `Store.Store.PromoteConflictingSessions` | app/services/allocation.py:248-288 | The promotion loop computes its specification, including the abandoned state |
| `Store.Store.AllocateWithExtensionCode` | app/services/allocation.py:186-245 | The candidate loop computes its specification |
| `Store.Store.AllocateNumber` | app/services/allocation.py:134-183 | The allocator computes its specification in each mode |
| `Store.Store.CreateSession` | app/services/sessions.py:36-148 | Computes the specified state or error, keeps the invariant, and never reports a conflict |
| `Store.Store.ExtendSession` | app/services/sessions.py:182-240 | Computes the specified state or error and keeps the invariant |
| `Store.Store.CloseSession` | app/services/sessions.py:243-275 | Computes the specified state or error and keeps the invariant |
| `Store.Store.MarkNumberReleased` | app/services/sessions.py:286-303 | Releases the number exactly when no active session is left on it |
| `Store.Store.ExpireDueSessions` | app/services/sessions.py:306-343 | The two loops compute the specified sweep and the rows it returns |
| `Store.Store.PurgeOldRecords` | app/services/sessions.py:373-381 | Deletes exactly the closed sessions past retention, and counts them; what the journal loses is stated by `Links.PurgedTable` |
| `Store.Store.UpdateSession` | app/db/triggers.py:12-35 | A row update with its trigger is the specified write |
| `Store.Store.InvalidateNumber` | app/db/cache.py:105-113 | Deleting the scanned keys one by one drops exactly the number's entries |
| `Store.Store.ResolveCall` | app/services/routing.py:85-177 | Computes the specified decision and cache write, and keeps the invariant |
| `Store.Store.LoadCandidates` | app/services/routing.py:219-266 | The loop builds the candidate of each live session, in row order |
| `Store.Store.SelectByCode` | app/services/routing.py:180-185 | The search finds the first candidate with the PIN |
| `Store.Store.RejectWithoutSession` | app/services/routing.py:188-216 | Rejects by the caller's past and stores the miss |
| `Store.Store.CacheSingle` | app/services/routing.py:293-333 | Stores an uncapped route for the lesser of the limit and its remaining whole seconds |
| `Store.Store.AddNumber` | app/services/numbers.py:41-73 | Adds a canonical number once, or reports why not |
| `Store.Store.SetNumberStatus` | app/services/numbers.py:76-107 | Changes the number's status and drops its cached decisions, or reports it missing |
| `Safety.OriginateIsSafe` | app/ari/stasis.py:471-505 | Over every run: for each originate the run holds the arrival of its call, and just before it the session was live on the proxy dialled for the number calling, the caller's only one there or the one whose PIN the run has typed since; its counterpart is dialled, shown only the proxy number |
| `Provenance.Origin` | app/ari/stasis.py:383-416 | Over every run each known call has one first arrival, whose pool and numbers fix its route for good, and a PIN it goes by was typed for it later |
| `Safety.BridgesAreNotShared` | app/ari/stasis.py:557-573 | No bridge ever holds legs of two calls |
| `Safety.JournalIsCoherent` | app/services/calls.py:82-145 | Over every run and interleaving: times ordered, duration the floored talk time and only then, closed as answered exactly when the callee leg was bridged; a settled row is so if and only if no join succeeded after the watchdog had given the call up |
| `Safety.AnsweredIsBridged` | app/ari/stasis.py:569-588 | Over every run the bridge of an answered call not torn down holds its two legs alone, and a bridge holds the callee's leg only of an answered call |
| `Provenance.OvertakenIsLateJoin` | app/ari/stasis.py:541-588 | A call is marked as overtaken exactly if some step of the run joined its callee after its teardown began |
| `CallScenes.LateJoinSpoils` | app/ari/stasis.py:541-588 | Whatever the settings that admit a session, a run where the watchdog fires during a join closes a row as unanswered with an answer |
| `Safety.TornDownOnce` | app/ari/stasis.py:688-767 | In every interleaving, the watchdog during a join included, a call is finished and announced at most once, and leaves the known calls only with its row closed |
| `Safety.LateCauseLands` | app/ari/stasis.py:633-647 | A call forgotten without a cause and overtaken by fewer than 512 others gets the cause reported later on its own row |
| `Safety.QueueIsBounded` | app/ari/stasis.py:757-763 | The queue never exceeds 512 entries and is ordered by age |
| `Safety.ChoiceIsSafe` | app/ari/stasis.py:401-416 | The candidate a decision and PIN lead to is a session the caller may reach, with its counterpart and cap |
| `Effects.ClosedRowExactly` | app/services/calls.py:148-161 | What a step does to a closed row of the table, exactly: it goes if and only if a purge finds it past retention and its call over; status and answer change if and only if a late join is marked; the session if and only if an attachment of another one lands or a purge deletes it; the direction with such an attachment only; the cause if and only if a missing one is reported for the queued call; its end and duration never |
| `CallScenes.AttachmentLandsLate` | app/services/calls.py:148-161 | In mode always a run closes a row without a session and then attaches one to it |
| `CallScenes.PurgeClearsClosedRow` | app/db/models.py:220-223 | A run closes a row with a session and then a purge takes the session off it |
| `CallScenes.PurgeStrandsCall` | app/ari/stasis.py:727-737 | A run purges the session of a call being set up, and the teardown of the call is stuck |
| `Safety.ClosesExactly` | app/ari/stasis.py:727-737 | A teardown closes its row and announces the end if and only if the session the call was bound to is stored; else no continuation of the run closes the row, announces the end or forgets the call |
| `Safety.StuckForever` | app/ari/stasis.py:704-767 | A stuck call stays known, open and unannounced on every continuation |
| `Safety.ForeignKeyHolds` | app/db/models.py:220-223 | Over every run each journal row refers to a stored session or to none, and the row of a call in progress is stored |
| `Links.PoolKeepsLinks` | app/db/models.py:220-223 | Every pool operation, the purge included, keeps each row referring to a stored session or none, and until its call is over to the one that call is bound to while that is stored |
| `Links.EvolutionKeepsLinks` | app/ari/stasis.py:233-250 | Every step of a call keeps it too |
| `Links.PurgedTable` | app/services/sessions.py:362-381 | A purge turns the journal table into its rows not overdue, with every reference to a deleted session cleared |
| `Links.OnlyPurgesDelete` | app/services/sessions.py:373-381 | No operation but the purge deletes a session, and the purge exactly the closed ones past retention |
| `Progress.SessionIsConnected` | app/ari/stasis.py:252-517 | Over every run with the pump idle: when a party of a live session below its cap dials the proxy number, the run can go on, with the session's PIN if asked for, to an originate that dials the other party |
| `Cap.CallCapHolds` | app/ari/stasis.py:453-469 | With at most K calls at once past the limit check, not recorded as answered, and answered or with a callee whose leg may still be joined, no more than the cap and K - 1 are answered in the journal, over every run; a teardown that failed to destroy the bridge leaves its call counted |
| `Cap.CheckBusy` | app/services/sessions.py:392-404 | Passing the check means fewer than the cap were answered then |
| `Machine.DoKeeps` | app/ari/stasis.py:233-250 | Every step of the pump, of a call or of the pool keeps the invariant of the whole system |
| `CallSteps.TypedOk` | app/ari/stasis.py:383-419 | An attempt at the PIN, right or wrong, keeps what every call keeps |
| `CallSteps.BeginOk` | app/ari/stasis.py:429-451 | Beginning to connect binds the call to the chosen candidate |
| `CallSteps.LegAddedOk` | app/ari/stasis.py:471-492 | Bridging the caller and registering the outbound channel keeps what every call keeps |
| `CallSteps.DialOk` | app/ari/stasis.py:494-517 | The originate request, accepted or refused, keeps it |
| `CallSteps.WatchdogOk` | app/ari/stasis.py:541-551 | The watchdog keeps it, whether it gives up or stands down, also during a join |
| `CallSteps.JoinedOk` | app/ari/stasis.py:553-588 | Joining the answered leg, or failing to, keeps it, whether or not the call is being torn down |
| `CallSteps.StasisEndOk` | app/ari/stasis.py:622-631 | Either leg leaving keeps it |
| `CallSteps.DestroyedOk` | app/ari/stasis.py:633-670 | A destroyed channel, inbound or outbound, known or not, keeps it |
| `CallSteps.RejectEndsOk` | app/ari/stasis.py:672-686 | A rejection keeps it |
| `CallSteps.CloseRowOk` | app/ari/stasis.py:727-737 | Closing the row keeps it: the status agrees with whether the call was answered, unless the answer overtook the watchdog; or the write is refused and the pump goes on |
| `CallSteps.AttachDoneOk` | app/services/calls.py:148-161 | Attaching the chosen session keeps it, and so does failing to because it was purged |
| `CallSteps.ReleaseOk` | app/ari/stasis.py:712-725 | Hanging up and destroying the bridge, or failing to, keeps it |
| `CallSteps.ForgetOk` | app/ari/stasis.py:757-767 | Forgetting the call keeps it |
| `Calls.BeginFinishOk` | app/ari/stasis.py:704-711 | The guard admits one teardown, whose status says answered exactly if the call was |
| `Late.PutKeepsQueue` | app/ari/stasis.py:761-763 | A new entry evicts only one that 512 later ones have overtaken |
| `Legs.RunLegs` | app/ari/stasis.py:478-488 | Over every run a bridge exists until its call releases it, and holds the callee's leg exactly if the call was answered |
| `Journal.Journal.StartCall` | app/services/calls.py:25-69 | Opens one new row |
| `Journal.Journal.MarkAnswered` | app/services/calls.py:72-92 | Marks the first answer only |
| `Journal.Journal.FinishCall` | app/services/calls.py:95-145 | Closes an open row with the specified outcome; a closed or missing one is untouched |
| `Journal.Journal.AttachSession` | app/services/calls.py:148-161 | Binds the row to the session |
| `Journal.Journal.SetHangupCause` | app/services/calls.py:228-245 | Fills in a missing cause only |
| `Journal.Journal.PurgeCalls` | app/services/sessions.py:359-371 | Deletes exactly the rows started before the cutoff, keeps the others as they are, and counts them |
| `Journal.Journal.ClearSessions` | app/db/models.py:220-223 | Clears exactly the references to the deleted sessions, and leaves the rest of every row |
| `Journal.FirstOutcomeWins` | app/services/calls.py:95-121 | A second finish changes nothing, whatever it says |
| `Journal.CauseIsKept` | app/services/calls.py:237-241 | A recorded cause survives every later write of a closed row |
| `Journal.FinishCoherentExactly` | app/services/calls.py:123-130 | Closing keeps a row coherent exactly when the status given agrees with whether it was answered |
| `Journal.AnswerCoherentExactly` | app/services/calls.py:82-89 | Marking an answer keeps a row coherent exactly if it is open or already answered |
| `Causes.PendingCauses.Put` | app/ari/stasis.py:761-763 | The eviction loop leaves the newest 512 entries |
| `Causes.PendingCauses.Pop` | app/ari/stasis.py:643-643 | Removes the channel's entry and returns its call |
| `Causes.PutEvictsOldest` | app/ari/stasis.py:761-763 | A new entry pushes out at most the oldest one, and nothing while there is room |
| `Causes.PutThenPop` | app/ari/stasis.py:643-647 | What is put is what is popped |
| `Phone.NormalizeDependsOn` | app/core/phone.py:54-75 | The result depends on the first visible character and the digits alone |
| `Phone.NormalizeIdempotent` | app/core/phone.py:54-75 | Every result is strict E.164 and normalises to itself |
| `Phone.InteriorPunctuationIgnored` | app/core/phone.py:58-59 | A non-digit after the first visible character changes nothing |
| `Phone.SurroundingSpaceIgnored` | app/core/phone.py:54-56 | Surrounding white space changes nothing |
| `Phone.NotationsAgree` | app/core/phone.py:63-68 | The trunk 8, 00 and plus notations of a national number are one number |
| `Phone.DoubleZeroIsPlus` | app/core/phone.py:67-68 | 00 before digits means what plus means |
| `Scrub.CleanExactly` | app/core/phone.py:102-104 | No run of seven digits is left exactly when no run of the text exceeds seventeen |
| `Scrub.IdempotentExactly` | app/core/phone.py:102-104 | A second scrub changes nothing under the same condition, and only then |
| `Scrub.ScrubHidesNumbers` | app/core/phone.py:19-19 | Text with runs within the fifteen digits of section 6.1 of ITU-T E.164 scrubs clean, once |
| `Scrub.ScrubKeepsRest` | app/core/phone.py:102-104 | A text cut into numbers, the leftmost longest matches, and what lies between is scrubbed by masking the numbers and keeping every other character |
| `Scrub.EveryTextParses` | app/core/phone.py:102-104 | Every text can be cut so |
| `Scrub.EighteenDigits` | app/core/phone.py:102-104 | Eighteen digits leave seven in a row, which a second scrub masks again |
| `Crypto.ExtCodeRoundTrip` | app/core/crypto.py:93-96 | A PIN has exactly the asked number of digits and denotes its draw |
| `Crypto.EveryPinIsDrawn` | app/core/crypto.py:93-96 | Every string of that many digits is the PIN of one draw |
| `Crypto.UnusedPinExists` | app/core/crypto.py:93-96 | Fewer than 10^length PINs in use leave one unused |
| `Dtmf.DigitCollector.Collect` | app/ari/dtmf.py:64-105 | The timed loop takes presses while they come in time and the input is open, and returns what was typed since the last star |
| `Dtmf.DigitCollector.Reset` | app/ari/dtmf.py:59-62 | Drops what has arrived and nothing later |
| `Dtmf.DigitCollector.Feed` | app/ari/dtmf.py:55-57 | Appends the press |
| `Dtmf.OutcomeUnique` | app/ari/dtmf.py:64-105 | The presses and timers determine the outcome |
| `Dtmf.NeverTooLong` | app/ari/dtmf.py:100-105 | Never more digits than asked for |
| `Dtmf.PinAtOnce` | app/ari/dtmf.py:64-105 | A PIN typed in full and in time with nothing before it is returned exactly, and nothing after it is taken |
| `Dtmf.PinAfterClear` | app/ari/dtmf.py:91-105 | A PIN typed in full after any clear is returned exactly, whatever came before |
| `Dtmf.PinOnEmptyBuffer` | app/ari/dtmf.py:64-105 | The same after any keys that leave no digits |

## Left out

- HTTP routers, schemas, authentication, rate limiting, pagination, health and metrics rendering: plumbing over the services.
- The ARI HTTP and websocket client, reconnecting and the registration watchdog: Asterisk requests succeed or fail.
- Webhook delivery: only that `call.ended` is announced once.
- HMAC and AES-GCM internals, and the rejection of ciphertexts that do not decrypt.
- Redis failures, the fail-open paths of the cache, and races between a commit and the invalidation before it: a transaction and its invalidation are one step.
- Concurrency below a transaction, other than the set of numbers a transaction finds locked.
- The glob that invalidation scans with: an entry is dropped if it is of that proxy number.
- The `default_country_prefix` parameter, which no caller passes; Unicode digits and spaces.
- External and trace identifiers, prompts, sounds and log lines.
- Statuses of a number other than enabled or not.
- Two timers of the DTMF collector at the very instant of a press: the press is taken as received.
- Multi-character DTMF events.
- Playback waits and `_fail_channel`: they hold no call state.
- An inbound call whose routing transaction fails: no state is kept for it.
- Bridges or legs acquired by a `_connect` that is cancelled in the middle of a request, and process shutdown: the code promises nothing there.
- The deletion of the journal row of a call still in progress: it would take a call longer than the journal's retention.
- `CallState` and the dictionaries of the Stasis application as objects updated in place: they are fields of one state value, because the theorems quantify over interleavings of its steps.
- The order of `list_numbers`: the snapshot does not depend on it.
