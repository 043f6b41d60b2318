# The dungeon runtime of the game server, modelled and proved in Dafny

The game server keeps parties of players in dungeons. Each player is seen on two channels: a TCP
session, which logs in, drops and comes back under a new session id, and a UDP endpoint, which
carries movements, attacks and snapshots and is admitted by a token. This project models that
runtime as it is written — objects whose methods update their fields — and proves what the code is
for: that seats and tokens stay together through drops, reconnects, rollbacks and expiry; that each
cast of a skill strikes once and on time; that waves lose no hit points; that no wake-up of the
snapshot pump is lost; that packets survive any chunking; that the tick keeps its grid; and that no
window of the login limiter overflows.

`dafny verify dfyconfig.toml` checks the whole project.

## How it is laid out

Every source file of the core has a module of its own, with the source's class and methods in it.
The class is proved against plain values: `View()` (or `Seats()`, `Content()`, `Progress()`) is the
value an object stands for, each method's contract says which step on that value it is, and the
properties of whole runs are lemmas about the values. What a step means is said once more without
the step's own functions, field by field (`RuntimeStateGone`, `SweptExactly`, `RegisteredExactly`,
`BlowLanded` and their like), and carried to the methods.

| modules | what they hold |
|---|---|
| `Common`, `DungeonRoom` | identifiers, time, lists that name a set once, templates and geometry |
| `SeatTable`, `SeatIndex`, `DungeonInstances` | one dungeon: the seat table, the five containers that represent it, the object |
| `DungeonRegistry`, `DungeonManagers`, `PartyManagers` | all dungeons, who is logged in, who leads what; the manager object; the parties |
| `Sequencing`, `InputLane`, `UdpSession`, `DungeonUdpManagers` | wrap-around numbers, bounded input queues, tokens and endpoints, all UDP sessions |
| `LifecycleRuns`, `LifecycleGaps` | every interleaving of the two managers' locked sections, with the exact condition under which the two sides stay together; the runs in which it fails |
| `DungeonLifecycleServices` | the composite calls as runs of those sections |
| `EnterRequests`, `PacketDispatchers` | the enter request, section by section, with the calls of others before, between and after them |
| `TickClock`, `StartGate`, `RunningPass`, `TickBooks`, `DungeonTurns`, `DungeonTickServices` | deadlines; what a tick starts, cancels, runs, sweeps and releases; one running dungeon's turn; the whole tick |
| `PlayerState`, `CombatRounds`, `CombatBlows`, `DungeonCombatProcessors` | the character and its skills; the table of pending hits over whole fights; the blows that carry the casts out; the combat tick |
| `RoomStates`, `DungeonMovementProcessors` | waves, damage, obstacles; the movement tick |
| `SnapshotPump` | the latest-wins snapshot sender, handler by handler |
| `Packet`, `ReceiveBuffers` | framing, and both receive buffers against one byte queue |
| `LoginAttemptLimiters` | the sliding windows |

## What is proved

- **Seats and tokens.** `LifecycleRuns` takes each locked section of the dungeon manager, of a dungeon
  and of the UDP manager as a step of its own and lets the steps of different calls mix; an enter
  request creates, reads its participants, allocates, looks up its leader's token and, if it must,
  cancels and releases. The invariant says whose token each live dungeon's UDP session holds at
  every moment, half-done enter requests, reconnects and sweeps included. It holds at every moment
  of a run if and only if every allocation in the run comes in time (`EveryRunFits`): its dungeon is
  about to be released anyway, or it is there and the participants read before are those whose
  tokens the UDP side must hold now (`AllocationKeepsIff`); with a list just read that means that no
  reconnect to the dungeon is under way (`FreshListIsInTime`). Whenever no call is half done the two
  sides then agree exactly (`SettledMeansCoupled`). In time or not, the manager's side, the seats of
  leaders who ask, and the dungeons being entered are in order at every moment
  (`EveryRunIsOrderly`). The class `DungeonLifecycleService` is proved to perform exactly such runs.
  A reconnect moves seat and token together or leaves no trace (`ReconnectIsAllOrNothing`).
- **The enter request.** `PacketDispatcher.HandleEnterDungeonRequest` is proved with any run of other
  calls' sections before, between and after its own: what it has done by its answer, what a success
  hands out, that a failure leaves no dungeon behind, and that it fails with an exception only when
  somebody else has released its dungeon. Left alone, its answer is the one the checks give in
  their order.
- **Expiry and the tick.** A disconnected seat can be reclaimed exactly when it is not swept
  (`ReclaimXorSweep`). `HandleTick` is proved as a whole: sweep, waiting, running and finished
  dungeons, on live objects; after it no timer is overdue, no running dungeon has an idle endpoint
  or an input left, and the service's tables mention nothing else (`TickLeavesNothingOverdue`). Each
  running dungeon has had one turn: the movement tick and the combat tick on what had come for it
  before the pass, its next waves, and the finish if it is cleared; inside all others nothing changes.
  In the movement tick the order in which the sessions are visited decides nothing
  (`OrderDecidesNothing`). The ready timeout runs over unbroken rows of passes (`ReadyTimeoutRuns`).
- **Combat.** A cast deals exactly one blow, exactly `startupTicks` calls after it was accepted, if
  and only if its caster is found alive, under the same session, in a running dungeon, in every call
  up to then (`CombatBlows.EachCastStrikesOnTime`); the blows of that log are the ones a tick deals
  to the rooms (`TickIsACall`). The action fields follow a closed-form schedule (`Timeline`).
- **Waves.** A room's enemies are always exactly the spawns of the waves so far; damage dealt plus hit
  points left is constant over every run; a room is clear exactly when every spawn has come and died.
- **Datagrams and streams.** Over every history an endpoint rests on a hello with its session's token
  (`EveryEndpointWasGreeted`). The snapshot pump never loses a wake-up and sends the newest snapshot to
  every endpoint loaded for it, in order; queued sequence numbers increase along the unrolled circle and
  repeat exactly after whole turns; framing does not depend on chunking, and compaction moves exactly
  the bytes it must and never more than were popped.
- **Clocks and windows.** Deadlines stay on the grid of their start; no window of any run, shortened by
  the skew of its clock readings, holds more accepted logins than configured.

## What the code does not promise

Each of these is proved, with the exact condition or a concrete case.

- A rollback does not look at the new session's entry in `disconnectedSince_`. It breaks the five
  containers exactly when the new session has been reported gone in the meantime
  (`SeatIndex.RollbackIndexed`). The TCP strand rules that out: a session does not close in the
  middle of its own registration.
- Nothing keeps other calls out of an enter request. A sweep between reading the participants and
  allocating releases the dungeon first, and its UDP session then stays behind for good
  (`LifecycleGaps.SweptBeforeAllocation`, `LifecycleGaps.StrandedForGood`). And without any sweep: a
  member who drops and comes back between the creation and the allocation is refused a token and
  rolled back, but the allocation has read the new name; the request succeeds, and the seat can never
  be taken over again (`LifecycleGaps.ReconnectedBeforeAllocation`, `LifecycleGaps.TokenlessForGood`).
  The exact condition is `LifecycleRuns.AllocationKeepsIff`.
- The cancel behind a missing leader token never cancels anything: in every run the token is missing
  only once the dungeon has been released, so the request throws there and never answers that the
  allocation failed (`LifecycleRuns.MissingTokenMeansReleased`). It does happen
  (`LifecycleGaps.ReleasedBeforeLookup`).
- The two checks of a tick and the start are three locked sections. A disconnect between them starts
  a dungeon with its only participant gone (`LifecycleGaps.StartedWithSomebodyGone`). What is sure is
  that nobody was gone at the first check and that every token had its endpoint at the second
  (`LifecycleGaps.StartedThroughTheGate`).
- A session can sit in two dungeons, by entering one, changing its party and entering another; its
  disconnect is then noted in one of them only (`LifecycleGaps.TwoDungeons`). Whatever dungeon the
  search finds, the report reaches every seat of the session exactly when a session that counts as
  present anywhere has no other seat (`LifecycleGaps.DepartureReachesAll`).
- If the dungeon of a half-done reconnect is released before the rollback, the rollback is refused and
  the session is signed off instead, as the source does (`Abandon` in `LifecycleRuns`). In a dungeon
  that is still there a rollback is never refused (`LifecycleRuns.LiveRollbackSucceeds`).
- Accepted sequence numbers are unambiguous within one turn of 2^32 only (`Sequencing.AWholeTurnRepeats`);
  two are equal exactly when whole turns lie between them (`Sequencing.RepeatsAfterWholeTurns`).
- The limiter reads the clock before it takes its lock, so calls may be served out of clock order. If no
  reading is more than d behind an earlier one, windows of the configured length less d are bounded,
  and no longer ones: for every d up to the window there is a run that overflows a window longer by
  one (`LoginAttemptLimiters.NoWindowOverflows`, `LoginAttemptLimiters.ClockOrderMatters`).

Where the repository's own documentation and its code disagree, the code is followed: README.md lines
192, 359 and 366 list the login rate limit, and lines 355 and 366 reconnection, as not implemented,
while src/LoginAttemptLimiter.cpp and src/DungeonInstance.cpp:149-261 implement them.

## Assumptions

- Each section of code under one mutex is one atomic step. From the creation on, an enter request is
  four of them when it succeeds and up to six when it does not, and may be overtaken between any two.
  Its two look-ups of the party count as one, at the time of the second: nobody else can end a
  session's lead (`PacketDispatchers.OthersKeepLead`).
- A tick is given one reading of the clock for all its passes, and a second one for its deadline.
- Session ids are nonzero and never reused (src/SessionManager.cpp:58). What a session does comes one
  after the other on its strand: it registers at most once, not after it has closed, and does not
  close during its own registration (src/TcpSession.cpp:204-215, src/TcpSession.cpp:334-352); it asks
  to enter only when it has registered (src/PacketDispatcher.cpp:105-110), and neither closes nor
  asks for anything else before the request has returned (src/TcpSession.cpp:137-175,
  src/PacketDispatcher.cpp:86-112).
- Dungeon templates are those the catalogs accept (src/DungeonCatalog.cpp:35-114,
  src/EnemyCatalog.cpp:11-16). The instance constructor's own checks of its participants are its
  precondition; `PartyManagers.StepKeepsConsistent` shows that a party's member list always meets it.
- Iteration over unordered containers visits the elements in any order.
- It is not assumed that a session sits in one dungeon only, that endpoints differ, or that a spawn
  point is free.

## Model

| member | source | states |
|---|---|---|
| `LifecycleRuns.EveryRunFits` | src/DungeonLifecycleService.cpp:22-131 | over every interleaving of the locked sections of all calls, those of an enter request included: at every moment each live dungeon that is not being entered has a UDP session whose tokens are those of its seats, up to exactly the reconnects, drops and releases still under way, and all containers are consistent, if and only if every allocation of the run comes in time |
| `LifecycleRuns.AllocationKeepsIff` | src/PacketDispatcher.cpp:242-260 | in any state that fits, an allocation keeps it so if and only if it is refused, its dungeon is about to be released, or its dungeon is there and the participants read before are those whose tokens the UDP side must hold now |
| `LifecycleRuns.FreshListIsInTime` | src/PacketDispatcher.cpp:242-244 | with the participants read just before, an allocation that is granted comes in time if and only if no reconnect to the dungeon is under way |
| `LifecycleRuns.SettledMeansCoupled` | src/DungeonLifecycleService.cpp:22-131 | whenever no call is half done, an enter request counting until it has found its leader's token or given up, and every allocation so far came in time, UDP session ids are exactly the live dungeon ids, token keys are exactly the participants, tokens are nonzero and pairwise different |
| `LifecycleRuns.StepKeeps` | src/DungeonLifecycleService.cpp:22-131 | each single locked section keeps the invariant, whatever else is half done, save an allocation that does not come in time |
| `LifecycleRuns.ReconnectIsAllOrNothing` | src/DungeonLifecycleService.cpp:45-67 | at every moment of every run: a reconnect whose token is taken has moved seat and token and nothing else; one whose token is refused rolls back and leaves only the fact that the session has registered |
| `LifecycleRuns.OnlyTheTokenCanFail` | src/DungeonUdpSession.cpp:128-159 | in a live dungeon the UDP side refuses a reconnect exactly when the drawn token is zero or in use, or the dungeon has no UDP session yet, which is to say that it is still being entered |
| `LifecycleRuns.LiveRollbackSucceeds` | src/DungeonLifecycleService.cpp:50-65 | at every moment of every run, in a dungeon that is still there, the compensating rollback is not refused |
| `LifecycleRuns.EveryRunIsOrderly` | src/DungeonLifecycleService.cpp:22-131 | at every moment of every run, whether allocations come in time or not: the manager's containers and the calls under way are in order, a leader who asks is seated and, once its allocation is granted, has its token unless the dungeon is gone, and a dungeon being entered waits and has no UDP session |
| `LifecycleRuns.MissingTokenMeansReleased` | src/PacketDispatcher.cpp:249-276 | in every run a granted request misses its leader's token only if its dungeon has been released, and a request that gives up has a dungeon to cancel if and only if it has not been released |
| `LifecycleRuns.EnterRunKeeps` | src/PacketDispatcher.cpp:213-262 | a request that nobody interrupts and that is granted keeps the invariant |
| `LifecycleRuns.IdsAreNeverReused` | src/DungeonManager.cpp:51-72 | a dungeon id that was used and released never comes back, over every run |
| `LifecycleGaps.DepartureReachesAll` | src/DungeonManager.cpp:201-234 | whichever dungeon the search finds, the disconnect reaches every seat of the session, if and only if a session that is present anywhere has no other seat |
| `LifecycleGaps.TwoDungeons` | src/DungeonManager.cpp:225-233 | a reachable run in which a session that has left is still present in a second dungeon |
| `LifecycleGaps.SweptBeforeAllocation` | src/PacketDispatcher.cpp:213-276 | a run in which a sweep gets between reading the participants and allocating: it ends with no call half done, the two sides disagree, and the UDP session is never released, whatever follows |
| `LifecycleGaps.StrandedForGood` | src/DungeonUdpManager.cpp:342-361 | a UDP session whose dungeon is gone and that no call is about to release stays for as long as the server runs |
| `LifecycleGaps.ReconnectedBeforeAllocation` | src/PacketDispatcher.cpp:242-262 | a run without sweep or timeout in which a member drops and comes back between the creation and the allocation of its leader's request: the leader finds its token, the run ends with no call half done, the member's seat and token are under different names, and no later reconnect can take the seat over |
| `LifecycleGaps.ReleasedBeforeLookup` | src/PacketDispatcher.cpp:249-276 | a run in which a sweep gets between the allocation and the lookup of the leader's token: the lookup fails, nothing is left to cancel, and the two sides agree in the end |
| `LifecycleGaps.TokenlessForGood` | src/DungeonUdpSession.cpp:128-159 | a session that has been there and has no token in a dungeon never gets one, so its seat can never be taken over on the UDP side |
| `LifecycleGaps.StartedThroughTheGate` | src/DungeonTickService.cpp:203-224 | in every interleaving a start was preceded by a check that found nobody gone and, after it, one that found an endpoint for every token; in time, for every seat of that moment but those of reconnects under way |
| `LifecycleGaps.StartedWithSomebodyGone` | src/DungeonTickService.cpp:203-224 | a run in which a disconnect between the two checks starts a dungeon whose only participant is gone |
| `DungeonLifecycleServices.DungeonLifecycleService.RegisterPlayerSession` | src/DungeonLifecycleService.cpp:22-68 | the call is exactly the run of its locked sections; field by field: without a reconnect only the manager changes; a reconnect moves the seat and, under a fresh unused token and with nothing of the old runtime state, the place in the UDP session; without a fresh token nothing has changed but the registration |
| `DungeonLifecycleServices.RegistrationInBoth` | src/DungeonLifecycleService.cpp:22-68 | what a registration answers and leaves in both managers, field by field, for every run of its sections |
| `DungeonLifecycleServices.DungeonLifecycleService.TakeBack` | src/DungeonLifecycleService.cpp:50-65 | the rollback right after its reconnect is accepted and puts the seat back |
| `DungeonLifecycleServices.DungeonLifecycleService.DisconnectPlayerSession` | src/DungeonLifecycleService.cpp:70-81 | the login is gone, the seat in the dungeon that reported it has its first disconnect time, and in that dungeon's UDP session the session has its token but no endpoint, activity, sequence or queued input left; every other session keeps all of its own; nothing else changes, and without a dungeon nothing on the UDP side |
| `DungeonLifecycleServices.DungeonLifecycleService.SweepAbandonedParticipants` | src/DungeonLifecycleService.cpp:83-109 | a dungeon stays exactly if it is younger than the lifetime and has a seat that is not gone, or not for the whole grace period; exactly those seats stay, untouched and in order; the report names each other seat and dungeon once; each loses its token or its UDP session, and nothing is left half done |
| `DungeonLifecycleServices.DungeonLifecycleService.CancelWaitingDungeon` | src/DungeonLifecycleService.cpp:111-120 | exactly a waiting dungeon goes, from both managers |
| `DungeonLifecycleServices.DungeonLifecycleService.FinishDungeon` | src/DungeonLifecycleService.cpp:122-131 | exactly a running or finished dungeon goes, from both managers |
| `DungeonLifecycleServices.DungeonLifecycleService.IsCoupled` | src/DungeonLifecycleService.cpp:22-131 | between calls the service's two managers agree on dungeons and participants |
| `PacketDispatchers.PacketDispatcher.HandleEnterDungeonRequest` | src/PacketDispatcher.cpp:169-288 | with any run of other calls before, between and after its sections: NotInParty exactly to a session in no party, NotPartyLeader exactly to a member who does not lead, and only a leader's request goes on; refused before creation exactly when the manager is stopping, the template unknown or the party in a dungeon, in this order, in the state it meets; a success has created, listed, been granted and found, and hands out the port and the token the leader has now; a failed allocation leaves neither dungeon nor UDP session of its number; the exception comes only when somebody else has released the dungeon; with nobody in between, success exactly when none of these stands against it and the UDP side runs and has a socket, and otherwise nothing left but a used number |
| `PacketDispatchers.LeadershipMeans` | src/PacketDispatcher.cpp:175-211 | the party side's verdict by its two tables: not joined, joined under another leader, or leading |
| `PacketDispatchers.RefusalMeans` | src/PacketDispatcher.cpp:213-238 | the manager's verdict by its tables, in the order of the checks |
| `PacketDispatchers.PacketDispatcher.Proceed` | src/PacketDispatcher.cpp:240-276 | what the request does after the creation, by its answer, whatever comes in between; with nobody in between it succeeds exactly when the UDP side runs and has a socket |
| `PacketDispatchers.PacketDispatcher.TakeBack` | src/PacketDispatcher.cpp:264-276 | the cancellation succeeds exactly when the dungeon is still there, and then takes its UDP session with it, whatever comes between the two sections |
| `PacketDispatchers.OthersKeepLead` | src/PartyManager.cpp:54-89 | nothing that another session does with parties ends a session's lead |
| `EnterRequests.AnyRunMayComeBetween` | src/PacketDispatcher.cpp:240-276 | any run of other calls may come between two sections: all that holds at every moment still holds, and the request finds its own affairs as it left them |
| `PacketDispatchers.TakenBackRun` | src/PacketDispatcher.cpp:240-276 | the run of a request that is refused a UDP session ends where it began but for a used id, and keeps the invariant |
| `SeatTable.ReclaimXorSweep` | src/DungeonInstance.cpp:170-178 | a bound, disconnected seat can be reclaimed iff disconnectedAt <= now < disconnectedAt + grace and is swept iff now >= disconnectedAt + grace |
| `SeatTable.RollbackUndoesReconnect` | src/DungeonInstance.cpp:210-261 | a rollback after a reconnect restores order, seats, players and times exactly |
| `SeatTable.ReconnectKeepsTheSeat` | src/DungeonInstance.cpp:149-208 | a reconnect changes the session label and the disconnect time only: same place, same player, same character object, everybody else untouched |
| `SeatTable.ReclaimIsUnambiguous` | src/DungeonInstance.cpp:164-178 | a player can reclaim at most one seat |
| `SeatIndex.IndexedMeansWellSeated` | src/DungeonInstance.cpp:103-318 | consistent containers represent a seat table: order lists each seat once, no player and no character twice |
| `SeatIndex.BindDecision` | src/DungeonInstance.cpp:103-133 | what the bind looks up decides whether the seat table allows it |
| `SeatIndex.BindIndexed` | src/DungeonInstance.cpp:103-133 | the two map insertions are the bind on the seat table |
| `SeatIndex.VacateIndexed` | src/DungeonInstance.cpp:135-147 | try_emplace is the first disconnect report on the seat table |
| `SeatIndex.ReclaimDecision` | src/DungeonInstance.cpp:164-178 | the lookups of a reconnect accept exactly the one seat that can be reclaimed |
| `SeatIndex.RollbackDecision` | src/DungeonInstance.cpp:215-229 | the lookups of a rollback accept exactly the seats that can be put back |
| `SeatIndex.RelabelIndexed` | src/DungeonInstance.cpp:181-203 | moving one session in the containers is relabelling one seat |
| `SeatIndex.RollbackIndexed` | src/DungeonInstance.cpp:231-260 | a rollback keeps the containers consistent if and only if the new session has no disconnect time |
| `SeatIndex.RemoveIndexed` | src/DungeonInstance.cpp:286-302 | erasing one session from all containers is dropping one seat |
| `DungeonInstances.DungeonInstance.constructor` | src/DungeonInstance.cpp:10-68 | a waiting dungeon with consistent containers, unbound seats in order, fresh characters at the first room's spawn, rooms without enemies and with intact obstacles |
| `DungeonInstances.DungeonInstance.BindParticipantPlayer` | src/DungeonInstance.cpp:103-133 | binds exactly when the seat is free or already this player's and the player sits nowhere else; then exactly the two map entries are there, otherwise nothing changes |
| `DungeonInstances.DungeonInstance.DisconnectParticipant` | src/DungeonInstance.cpp:135-147 | notes the first disconnect time of a seat |
| `DungeonInstances.DungeonInstance.ReconnectParticipant` | src/DungeonInstance.cpp:149-208 | accepted exactly when the player's session is gone for less than the grace period and the new one has no seat; then order, character, player and session maps have the new name in the old place and the disconnect time is gone; otherwise nothing changes |
| `DungeonInstances.DungeonInstance.RollbackParticipantReconnect` | src/DungeonInstance.cpp:210-261 | accepted exactly when the player sits under the new session and the old one has no seat; puts the seat back under its old session and time; exact condition for consistent containers |
| `DungeonInstances.DungeonInstance.RemoveExpiredDisconnectedParticipants` | src/DungeonInstance.cpp:263-306 | drops and reports, each once, exactly the sessions with since + grace <= now, keeps the order of the others |
| `DungeonInstances.DungeonInstance.RemoveAllParticipants` | src/DungeonInstance.cpp:308-318 | empties the containers and reports everybody |
| `DungeonInstances.DungeonInstance.HasDisconnectedParticipants` | src/DungeonInstance.cpp:326-330 | true iff some seat has a disconnect time |
| `DungeonInstances.DungeonInstance.ConnectedParticipantCount` | src/DungeonInstance.cpp:332-336 | the difference of two sizes is the number of connected seats |
| `DungeonInstances.DungeonInstance.Start` | src/DungeonInstance.cpp:540-554 | only from Waiting; the first room gets its first wave |
| `DungeonInstances.DungeonInstance.Finish` | src/DungeonInstance.cpp:556-567 | only from Running |
| `DungeonInstances.DungeonInstance.AdvanceRoomWaves` | src/DungeonInstance.cpp:388-425 | in a running dungeon exactly the rooms in which somebody connected stands are offered their next wave, each once, all others stay, and the started ones are counted |
| `DungeonInstances.DungeonInstance.TryUsePortal` | src/DungeonInstance.cpp:427-494 | the exact outcome for every state; a portal that asks for a cleared room opens only when all its spawns are dead; only this player moves, only the target room gets a wave |
| `DungeonInstances.DungeonInstance.PortalOutcomeMeans` | src/DungeonInstance.cpp:427-494 | under the first portal that holds the player: through it iff the dungeon runs, the player lives, no cleared room is asked for or every spawn is dead, and the far end is there and free; RoomNotCleared iff running and not so cleared |
| `DungeonInstances.DungeonInstance.NoPortalNoPassage` | src/DungeonInstance.cpp:427-494 | who stands under no portal uses none |
| `DungeonInstances.DungeonInstance.TryFinishIfCleared` | src/DungeonInstance.cpp:496-538 | finishes exactly when running, not empty, everybody in the last room and every spawn of every room spawned and killed |
| `DungeonRegistry.OpenedIsSound` | src/DungeonManager.cpp:39-75 | creation keeps logins inverse, parties and dungeons inverse, ids below the next one, nobody absent logged in |
| `DungeonRegistry.CreationMeans` | src/DungeonManager.cpp:39-75 | a creation field by field: one waiting dungeon more under the next id, the members seated in order, each bound to its login, nobody gone; all other dungeons as before |
| `DungeonRegistry.AnsweredIsSound` | src/DungeonManager.cpp:77-163 | so does every outcome of a registration |
| `DungeonRegistry.RegistrationMeans` | src/DungeonManager.cpp:77-163 | a registration field by field: refused exactly to a session whose identity contradicts the logins or its seat; binds the session's own seat, or moves one seat of its player that has been gone for less than the grace period, and says there is none only if no unfinished dungeon has one |
| `DungeonRegistry.ReturnedIsSound` | src/DungeonManager.cpp:165-199 | so does a rollback while the new session has not left and the old one has not come back |
| `DungeonRegistry.RollbackRestores` | src/DungeonManager.cpp:165-199 | a rollback straight after its reconnect is accepted, and restores the manager exactly iff the session was not logged in before |
| `DungeonRegistry.DepartedIsSound` | src/DungeonManager.cpp:201-234 | a disconnect keeps the manager sound |
| `DungeonRegistry.DepartureMeans` | src/DungeonManager.cpp:201-234 | a disconnect field by field: the login and, if it was the session's, the player's entry are gone; one seat of the session, if there is any, has its first disconnect time; nothing else changes |
| `DungeonRegistry.SweptIsSound` | src/DungeonManager.cpp:236-283 | a sweep keeps the manager sound |
| `DungeonRegistry.SweepLeavesNothingOverdue` | src/DungeonManager.cpp:236-283 | after a sweep a dungeon is there iff it was, now < createdAt + lifetime, and some seat has no disconnect time or one with now < since + grace; exactly these seats are left in it, untouched and in order, party entries exactly for what is left, logins as before |
| `DungeonRegistry.SweepReportsExactly` | src/DungeonManager.cpp:236-283 | the two report lists: each dungeon that is gone, and each seat that was overdue or in a dungeon past its lifetime, once and nothing else |
| `DungeonRegistry.ClosedIsSound` | src/DungeonManager.cpp:360-400 | removing a dungeon with its party entry keeps the manager sound |
| `DungeonManagers.DungeonManager.CreateDungeon` | src/DungeonManager.cpp:15-75 | every refusal in order; otherwise a fresh dungeon under the next id, its members seated in order and bound to whoever is logged in |
| `DungeonManagers.DungeonManager.RegisterPlayerSession` | src/DungeonManager.cpp:77-163 | the answer is one the seat tables allow, and what it leaves is, field by field, what DungeonRegistry.RegistrationMeans says |
| `DungeonManagers.DungeonManager.RollbackPlayerReconnect` | src/DungeonManager.cpp:165-199 | accepted exactly when the seat can go back; then the logins and the seat are as described |
| `DungeonManagers.DungeonManager.DisconnectPlayerSession` | src/DungeonManager.cpp:201-234 | logs the session out and notes the first disconnect time in one dungeon that knows it, if any does; field by field nothing else |
| `DungeonManagers.DungeonManager.SweepAbandonedParticipants` | src/DungeonManager.cpp:236-283 | a dungeon stays iff younger than the lifetime with a seat that is not gone for the grace period, with exactly those seats; the report lists each other dungeon and seat once; nothing at all for a grace or lifetime that is not positive |
| `DungeonManagers.DungeonManager.FindDungeonByParty` | src/DungeonManager.cpp:299-311 | finds a dungeon iff some live dungeon belongs to the party; the lookup by at() never fails |
| `DungeonManagers.DungeonManager.StartDungeon` | src/DungeonManager.cpp:347-358 | only a waiting dungeon; its first room gets a wave, no other room of any dungeon changes |
| `DungeonManagers.DungeonManager.CancelDungeon` | src/DungeonManager.cpp:360-374 | only a waiting dungeon goes, with its party entry |
| `DungeonManagers.DungeonManager.FinishDungeon` | src/DungeonManager.cpp:376-400 | only a running or finished dungeon goes, with its party entry |
| `DungeonManagers.DungeonManager.Stop` | src/DungeonManager.cpp:402-415 | everything is emptied and stays stopped |
| `DungeonManagers.DungeonManager.DungeonIdsIn` | src/DungeonManager.cpp:417-469 | lists the dungeons in a state, each once |
| `PartyManagers.StepKeepsConsistent` | src/PartyManager.cpp:7-89 | whatever sessions do, membership and joinedParties are inverse and every party has 1 to 4 distinct nonzero members, its leader among them |
| `PartyManagers.LeaveKeepsConsistent` | src/PartyManager.cpp:54-89 | leaving hands the lead on or dissolves the party |
| `PartyManagers.LeavingMeans` | src/PartyManager.cpp:54-89 | whoever leaves is in no party; its party, and no other, goes on with the others in their order, led by the same leader or else by the first of them, and is gone iff nobody else was in it |
| `PartyManagers.PartyManager.CreateParty` | src/PartyManager.cpp:7-26 | refused exactly to a member of a party; otherwise a party of one under a new id |
| `PartyManagers.PartyManager.JoinParty` | src/PartyManager.cpp:28-52 | the result in every case, and the member appended at the end |
| `PartyManagers.PartyManager.LeaveParty` | src/PartyManager.cpp:54-89 | the member is gone, the order of the others kept, the lead passed to the first of them only when the leader leaves |
| `PartyManagers.PartyManager.GetParty` | src/PartyManager.cpp:91-102 | whatever is found is a list the dungeon constructor accepts |
| `PartyManagers.PartyManager.GetJoinedParty` | src/PartyManager.cpp:104-115 | who has joined a party is found among its members |
| `UdpSession.TrafficKeepsConsistent` | src/DungeonUdpSession.cpp:180-317 | hello, heartbeat, input, pop, refresh, prune and disconnect keep the six containers consistent and leave all tokens alone |
| `UdpSession.EveryEndpointWasGreeted` | src/DungeonUdpSession.cpp:440-468 | over every history of traffic: whoever has an endpoint has sent a hello from that very endpoint with its own token, and no disconnect of the session came after it |
| `UdpSession.EndpointsComeByHello` | src/DungeonUdpSession.cpp:440-468 | in any step an endpoint appears only by a hello with the session's token, never changes while it is there, and goes only by a disconnect of the session or for its silence |
| `UdpSession.ActivityComesFromTheEndpoint` | src/DungeonUdpSession.cpp:440-593 | the activity time of a session is stamped by a refresh and by what its own endpoint sends, and by nothing else |
| `UdpSession.MovementIsCredited` | src/DungeonUdpSession.cpp:519-555 | a movement enters the queue under a session whose endpoint is the sender, iff fewer than 256 wait and its number is new or newer than the remembered one |
| `UdpSession.AttackIsCredited` | src/DungeonUdpSession.cpp:557-593 | likewise an attack |
| `UdpSession.DisconnectSilencesOne` | src/DungeonUdpSession.cpp:116-126 | after a disconnect the session has no endpoint, activity, remembered sequence or queued input, every other session all of its own and its packets in their order, and all tokens are as before |
| `UdpSession.RemovalTakesOneToken` | src/DungeonUdpSession.cpp:161-172 | a removal silences the session likewise and takes exactly its token |
| `UdpSession.ReplacementMovesOneToken` | src/DungeonUdpSession.cpp:128-159 | a replacement silences the old session likewise and leaves everybody else's token alone |
| `UdpSession.PruneSilencesTheIdle` | src/DungeonUdpSession.cpp:191-219 | a prune silences likewise exactly the sessions whose last activity lies the timeout or more back |
| `InputLane.WithoutLeavesOut` | src/DungeonUdpSession.cpp:331-356 | the queue without some sessions is the others' packets, all of them, in their order |
| `UdpSession.ReplaceKeepsConsistent` | src/DungeonUdpSession.cpp:128-159 | replacing a participant keeps the containers consistent and tokens distinct |
| `UdpSession.ReplacementStartsAfresh` | src/DungeonUdpSession.cpp:128-159 | the new session has a new token and nothing of the old endpoint, activity, sequences or queued input survives under either name |
| `UdpSession.RemoveKeepsConsistent` | src/DungeonUdpSession.cpp:161-172 | removing a participant keeps the containers consistent |
| `UdpSession.SizesDecideAuthentication` | src/DungeonUdpSession.cpp:174-178 | equal sizes of endpoints and tokens mean equal sets |
| `UdpSession.DungeonUdpSession.DisconnectParticipant` | src/DungeonUdpSession.cpp:116-126 | endpoint, activity, sequences and queued input of the session gone, everybody else's kept, every token kept |
| `UdpSession.DungeonUdpSession.ReplaceParticipant` | src/DungeonUdpSession.cpp:128-159 | accepted exactly for a known old session, an unknown new one and an unused nonzero token |
| `UdpSession.DungeonUdpSession.RemoveParticipant` | src/DungeonUdpSession.cpp:161-172 | runtime state gone, everybody else's kept, and exactly the session's token taken |
| `UdpSession.DungeonUdpSession.AllParticipantsAuthenticated` | src/DungeonUdpSession.cpp:174-178 | true iff every participant has an endpoint |
| `UdpSession.DungeonUdpSession.RefreshAllActivity` | src/DungeonUdpSession.cpp:180-189 | every registered endpoint is stamped, nothing else |
| `UdpSession.DungeonUdpSession.RemoveInactiveEndpoints` | src/DungeonUdpSession.cpp:191-219 | exactly the idle sessions are silenced and listed once |
| `UdpSession.DungeonUdpSession.TryPopMovement` | src/DungeonUdpSession.cpp:284-297 | takes the oldest queued movement |
| `UdpSession.DungeonUdpSession.TryPopAttack` | src/DungeonUdpSession.cpp:305-317 | takes the oldest queued attack |
| `UdpSession.DungeonUdpSession.RemoveParticipantRuntimeState` | src/DungeonUdpSession.cpp:331-356 | one session's endpoint, activity, sequences and queued input are gone, the queue order of the others kept |
| `UdpSession.DungeonUdpSession.HandleHello` | src/DungeonUdpSession.cpp:440-468 | success iff the session has a token, it is the one sent, and the endpoint known, if any, is the sender; then the endpoint and its time are the sender's and now, otherwise nothing changes |
| `UdpSession.DungeonUdpSession.HandleHeartbeat` | src/DungeonUdpSession.cpp:503-517 | only the registered endpoint's heartbeat counts |
| `UdpSession.DungeonUdpSession.HandlePlayerMovement` | src/DungeonUdpSession.cpp:519-555 | credited to a session whose endpoint is the sender, or to none; queued at the end iff there is room and the number is newer; the sequence is recorded iff the packet is queued |
| `UdpSession.DungeonUdpSession.HandlePlayerAttack` | src/DungeonUdpSession.cpp:557-593 | the same for attacks |
| `UdpSession.DungeonUdpSession.CopyEndpoints` | src/DungeonUdpSession.cpp:622-635 | the copy a snapshot is sent to has the endpoint of every registered session, once for each |
| `DungeonUdpManagers.DungeonUdpManager.Allocate` | src/DungeonUdpManager.cpp:32-97 | granted exactly for a new nonzero id, distinct nonzero participants and a socket; then each participant has a nonzero token of its own |
| `DungeonUdpManagers.DungeonUdpManager.DrawTokens` | src/DungeonUdpManager.cpp:74-87 | the draw loop gives every participant a nonzero token, all different |
| `DungeonUdpManagers.DungeonUdpManager.FindToken` | src/DungeonUdpManager.cpp:113-126 | the session's token in that dungeon, if any |
| `DungeonUdpManagers.DungeonUdpManager.DisconnectParticipant` | src/DungeonUdpManager.cpp:143-156 | in that dungeon's session the participant's runtime state is gone, everybody else's and all tokens kept; no other session is touched; true iff the dungeon and the participant are known |
| `DungeonUdpManagers.DungeonUdpManager.ReplaceParticipant` | src/DungeonUdpManager.cpp:158-187 | the first of sixteen draws the session takes, or none of them and no change |
| `DungeonUdpManagers.DungeonUdpManager.RemoveParticipant` | src/DungeonUdpManager.cpp:189-202 | in that dungeon's session the participant's runtime state and token are gone, everybody else's kept; no other session is touched; true iff the dungeon and the participant are known |
| `DungeonUdpManagers.DungeonUdpManager.AllParticipantsAuthenticated` | src/DungeonUdpManager.cpp:204-216 | true iff the dungeon is known and every participant has an endpoint |
| `DungeonUdpManagers.DungeonUdpManager.RefreshAllActivity` | src/DungeonUdpManager.cpp:223-232 | a refresh of that dungeon's session only |
| `DungeonUdpManagers.DungeonUdpManager.RemoveInactiveEndpoints` | src/DungeonUdpManager.cpp:234-247 | a prune of that dungeon's session only; lists exactly its idle sessions, each once |
| `DungeonUdpManagers.DungeonUdpManager.TryPopMovement` | src/DungeonUdpManager.cpp:270-283 | the oldest movement of that dungeon, no other queue touched |
| `DungeonUdpManagers.DungeonUdpManager.TryPopAttack` | src/DungeonUdpManager.cpp:299-312 | the oldest attack of that dungeon, no other queue touched |
| `DungeonUdpManagers.DungeonUdpManager.Release` | src/DungeonUdpManager.cpp:342-361 | exactly that session goes |
| `DungeonUdpManagers.DungeonUdpManager.Stop` | src/DungeonUdpManager.cpp:363-388 | all sessions go, once |
| `Sequencing.NewerIsAntisymmetric` | src/DungeonUdpSession.cpp:21-31 | of two different numbers exactly one is newer, unless they are half a turn apart |
| `Sequencing.AcceptedIsChain` | src/DungeonUdpSession.cpp:519-545 | each accepted number is newer than the one accepted before it |
| `Sequencing.UnwrappedIsCongruent` | src/DungeonUdpSession.cpp:21-31 | the unrolled position is laps times 2^32 plus the number |
| `Sequencing.UnwrappedIncreases` | src/DungeonUdpSession.cpp:21-31 | accepted numbers strictly increase along the unrolled line |
| `Sequencing.WithinOneTurn` | src/DungeonUdpSession.cpp:21-31 | below an advance of 2^32 no number repeats, and a later one is newer iff the advance is below 2^31 |
| `Sequencing.RepeatsAfterWholeTurns` | src/DungeonUdpSession.cpp:21-31 | two accepted numbers are equal if and only if whole turns lie between them on the unrolled line |
| `Sequencing.AWholeTurnRepeats` | src/DungeonUdpSession.cpp:21-31 | beyond a whole turn a number is accepted twice |
| `Sequencing.ServerTickTracker.TryAccept` | client/scripts/ServerTickTracker.cs:11-30 | the client's test is the server's, and remembers what it accepts |
| `InputLane.QueuedInOrder` | src/DungeonUdpSession.cpp:519-593 | within one registration queued numbers form a chain, the remembered one is the last queued, the queue holds the latest ones in order and at most 256 |
| `InputLane.QueuedNumbersDoNotRepeat` | src/DungeonUdpSession.cpp:519-593 | packets queued less than a turn apart carry different numbers, ordered as they came below half a turn |
| `InputLane.LatestIsLast` | src/DungeonMovementProcessor.cpp:32-40 | the drain's overwrite keeps each session's last packet |
| `InputLane.DrainKeepsNewest` | src/DungeonMovementProcessor.cpp:32-40 | what the drain keeps is the newest movement of the registration |
| `DungeonMovementProcessors.DungeonMovementProcessor.Drain` | src/DungeonMovementProcessor.cpp:32-40 | empties this dungeon's queue and nothing else, keeps the latest movement per session, counts them all |
| `DungeonMovementProcessors.DungeonMovementProcessor.Process` | src/DungeonMovementProcessor.cpp:17-90 | a running dungeon's characters and rooms are exactly what carrying out each session's newest movement once, in some order, makes of them, in rooms where the order decides nothing; the counts are exact |
| `DungeonMovementProcessors.DungeonMovementProcessor.MoveOne` | src/DungeonMovementProcessor.cpp:45-86 | one move: a step if the character lives and the place is free, then the portal under it if open, with the target room's wave |
| `DungeonMovementProcessors.OrderDecidesNoMove` | src/DungeonMovementProcessor.cpp:45-87 | in any state of the rooms and whatever the iteration order, the same movements take effect, and nobody ends up anywhere but one step, or the portal under that step, from where they were |
| `DungeonMovementProcessors.OrderDecidesNothing` | src/DungeonMovementProcessor.cpp:45-87 | whatever the iteration order, every session ends where its newest movement would have taken it alone from the state before the loop, and every room entered through a portal is offered its next wave once |
| `DungeonMovementProcessors.AnyOrderWillDo` | src/DungeonMovementProcessor.cpp:45-87 | two iteration orders leave the same characters in the same places and the same waves in the rooms |
| `SnapshotPump.EveryInterleaving` | src/DungeonUdpSession.cpp:221-282 | in every interleaving of submissions, strand handlers, completions and Stop: wake-up protocol, latest-wins order, accounts and delivery hold |
| `SnapshotPump.NoLostWakeUp` | src/DungeonUdpSession.cpp:595-686 | before Stop a pending snapshot has exactly one pump coming, no handler starts during a send, accepted = replaced + pumped + pending, and at rest the last accepted one has been pumped |
| `SnapshotPump.TakesNewestAndServesAll` | src/DungeonUdpSession.cpp:595-686 | over every behaviour: between the loading of the endpoints and the next finish the sends made are exactly those endpoints in their order, or with a stop in between the first of them, each with the snapshot taken last, which was the newest accepted when it was taken |
| `SnapshotPump.StoppedForGood` | src/DungeonUdpSession.cpp:59-81 | after Stop nothing is ever pending again |
| `SnapshotPump.BackgroundMakesProgress` | src/DungeonUdpSession.cpp:595-686 | every handler step brings the pump nearer to rest |
| `SnapshotPump.RestsOnlyWhenDone` | src/DungeonUdpSession.cpp:595-686 | the pump is at rest exactly when no handler step is possible |
| `SnapshotPump.ComesToRest` | src/DungeonUdpSession.cpp:595-686 | from every reachable state the pump can come to rest, with the last accepted snapshot pumped unless stopped |
| `SnapshotPump.SnapshotSender.AcceptSnapshot` | src/DungeonUdpSession.cpp:221-282 | accepts exactly 1 to 1200 bytes before the stop, which replace what was pending, and wakes the pump exactly when none is scheduled |
| `SnapshotPump.SnapshotSender.TakePendingSnapshot` | src/DungeonUdpSession.cpp:595-620 | one pump start is the stop check followed by the take of what is pending, or by the clearing |
| `SnapshotPump.SnapshotSender.LoadSnapshotDestinations` | src/DungeonUdpSession.cpp:622-635 | the destinations are the endpoints given, from the first on, for the active snapshot |
| `SnapshotPump.SnapshotSender.SendSnapshotToNextEndpoint` | src/DungeonUdpSession.cpp:638-672 | starts the next send or hands over to the finish |
| `SnapshotPump.SnapshotSender.SendCompleted` | src/DungeonUdpSession.cpp:653-671 | counts the completed send or the error and moves on |
| `SnapshotPump.SnapshotSender.FinishSnapshotOnStrand` | src/DungeonUdpSession.cpp:674-686 | the active snapshot is let go and the pump looks again |
| `SnapshotPump.SnapshotSender.Stop` | src/DungeonUdpSession.cpp:59-81 | sets the flag, then clears what is pending, once |
| `CombatBlows.EachCastStrikesOnTime` | src/DungeonCombatProcessor.cpp:73-200 | in the log of all blows dealt each accepted cast has at most one, exactly startupTicks calls after it was accepted, and it has that one iff its caster is found alive under the same session in a running dungeon in every call up to then |
| `CombatBlows.EveryLogFits` | src/DungeonCombatProcessor.cpp:73-200 | over every run the blows dealt are exactly the casts marked as hits, each once, in the call in which it was marked |
| `CombatBlows.ResolutionMarksItsBlows` | src/DungeonCombatProcessor.cpp:137-200 | one resolution marks as hits exactly the casts whose blows it deals, none of them decided before |
| `CombatRounds.EachCastMeetsItsFate` | src/DungeonCombatProcessor.cpp:73-200 | a cast is marked as a hit startupTicks calls later, waits, or is lost, by whether its caster has been found alive under the same session in a running dungeon in every call so far |
| `CombatRounds.CastsAreConserved` | src/DungeonCombatProcessor.cpp:73-200 | accepted casts = those that struck or were lost + those that wait |
| `CombatBlows.InsertNeverAssigns` | src/DungeonCombatProcessor.cpp:110-128 | at every attack of every run insert_or_assign meets no older hit of the same session |
| `CombatRounds.EveryFightFits` | src/DungeonCombatProcessor.cpp:73-200 | over every run each waiting hit has a living caster in the startup of that very skill, and every fate is explained by the calls that led to it |
| `CombatRounds.NextKeeps` | src/DungeonCombatProcessor.cpp:73-200 | one call keeps the fight's invariant |
| `CombatRounds.NextIsProcessed` | src/DungeonCombatProcessor.cpp:73-135 | the history of a fight decides nothing: characters and table are those of the tick |
| `CombatRounds.AttackMeans` | src/DungeonCombatProcessor.cpp:95-130 | an attack is accepted iff its caster is seated, alive and idle, and the skill is known, off its cooldown and paid for; then its hit waits in the table and its cast has begun; otherwise nothing changes |
| `DungeonCombatProcessors.StrikeRoom` | src/DungeonCombatProcessor.cpp:168-189 | each enemy that lives and stands in the hit box of a blow with damage loses exactly min(damage, hp), and its life with the last point; every other one is untouched; the count is the number of the former |
| `DungeonCombatProcessors.BlowKeepsRoll` | src/DungeonCombatProcessor.cpp:168-189 | a blow keeps the room's enemies, their order and their spawns and revives nobody; it lands on exactly the living enemies in its hit box, and what the room has left to take drops by what they lose |
| `DungeonCombatProcessors.BlowsLand` | src/DungeonCombatProcessor.cpp:137-200 | a list of blows, one after the other: each lands in its own room on exactly the living enemies in its hit box, from where its caster stands, and the count is theirs |
| `DungeonCombatProcessors.TickLandsItsBlows` | src/DungeonCombatProcessor.cpp:73-200 | both lists of blows of a tick land so, from the rooms before the tick to those after it, and the hits counted are the enemies that lost something |
| `DungeonCombatProcessors.TickIsACall` | src/DungeonCombatProcessor.cpp:73-200 | a tick of a running dungeon is one call of the fight: table and characters go where the fight says, and the rooms suffer exactly the blows of the fight's log, in its order |
| `DungeonCombatProcessors.DungeonCombatProcessor.ResolvePendingHits` | src/DungeonCombatProcessor.cpp:137-200 | the due hits strike, each once, in some order; the due and the stale leave the table, the others stay |
| `DungeonCombatProcessors.DungeonCombatProcessor.TakeAttacks` | src/DungeonCombatProcessor.cpp:95-130 | the queue is emptied in order; each attack begins its skill or is rejected; exact counts; no other queue touched |
| `DungeonCombatProcessors.DungeonCombatProcessor.Process` | src/DungeonCombatProcessor.cpp:73-135 | tick, resolve, attack, resolve on characters, table, queue and rooms; other dungeons' hits untouched; a dungeon that does not run loses its hits only |
| `PlayerState.Timeline` | src/DungeonPlayerState.cpp:167-277 | k ticks into a cast the action is the schedule cut at s, s+a, s+a+r, whatever other calls come in between, while the caster lives |
| `PlayerState.CooldownRuns` | src/DungeonPlayerState.cpp:167-277 | k ticks after a cast its cooldown has max(0, c-k) left, whatever happens in between, death included |
| `PlayerState.CastsAreSpaced` | src/DungeonPlayerState.cpp:167-277 | two casts of one skill are at least max(c, s+a+r) ticks apart, any two at least the first one's length |
| `PlayerState.CastAgain` | src/DungeonPlayerState.cpp:167-277 | who casts nothing else can cast the same skill again iff alive, both clocks run down, and the mana suffices to the last point |
| `PlayerState.ManaIsConserved` | src/DungeonPlayerState.cpp:167-225 | mana left plus mana spent on successful casts is constant over every run |
| `PlayerState.SnapshotsAreAccepted` | client/scripts/Protocol/DungeonProtocolCodec.cs:197-239 | every snapshot of every reachable character passes the client's test |
| `PlayerState.TryDecodePlayer` | client/scripts/Protocol/DungeonProtocolCodec.cs:197-239 | the client's loop accepts exactly the described snapshots |
| `PlayerState.DungeonPlayerState.RebindSession` | src/DungeonPlayerState.cpp:53-63 | only the label changes, and not to zero |
| `PlayerState.DungeonPlayerState.Snapshot` | src/DungeonPlayerState.cpp:77-106 | depicts the character; cooldowns sorted by skill, each once |
| `PlayerState.DungeonPlayerState.ApplyDamage` | src/DungeonPlayerState.cpp:120-140 | death ends the action; the dead take no damage |
| `PlayerState.DungeonPlayerState.BeginSkill` | src/DungeonPlayerState.cpp:167-225 | success iff alive, valid skill, off cooldown, idle and mana >= cost, each refusal for its own reason; then mana, cooldown and the first phase, otherwise nothing changes |
| `PlayerState.DungeonPlayerState.AdvanceCombatTick` | src/DungeonPlayerState.cpp:227-277 | every cooldown and the phase machine move by one tick |
| `PlayerState.DungeonPlayerState.MoveTo` | src/DungeonPlayerState.cpp:279-303 | moves exactly when alive, in that room and the position is free; where it stands then is within the room's width and depth |
| `PlayerState.DungeonPlayerState.EnterRoom` | src/DungeonPlayerState.cpp:305-325 | enters exactly when alive and the position is free, and then stands within the room's width and depth |
| `RoomStates.EntityIdsAreDistinct` | src/RoomState.cpp:11-14 | room and spawn can be read back from an entity id |
| `RoomStates.StartKeepsRoll` | src/RoomState.cpp:49-99 | a new wave keeps the enemies exactly the spawns so far, moves no hit points, and starts iff nobody lives and the room is not clear |
| `RoomStates.StartedTwice` | src/RoomState.cpp:49-99 | offering a room its next wave twice is offering it once |
| `RoomStates.StartingClearsNothing` | src/RoomState.cpp:49-99 | a new wave neither clears a room nor makes a clear one unclear |
| `RoomStates.HitKeepsRoll` | src/RoomState.cpp:101-131 | a hit takes min(damage, hp) from the total and disturbs nothing else |
| `RoomStates.ClearedMeansAllKilled` | src/RoomState.cpp:168-172 | a room is clear iff every spawn has come and died iff no hit points are left to take |
| `RoomStates.HitPointsAreConserved` | src/RoomState.cpp:49-131 | over every run damage dealt plus living plus unspawned hit points is what the template held |
| `RoomStates.ClearedForGood` | src/RoomState.cpp:49-172 | once clear, a room stays clear |
| `RoomStates.RoomState.constructor` | src/RoomState.cpp:17-36 | no enemies, and the template's obstacles in order and intact |
| `RoomStates.RoomState.StartNextWave` | src/RoomState.cpp:49-99 | the two loops spawn exactly the smallest wave not started |
| `RoomStates.RoomState.UniqueEntityIds` | src/RoomState.cpp:11-14 | no two enemies of a room share an entity id |
| `RoomStates.RoomState.ApplyEnemyDamage` | src/RoomState.cpp:101-131 | hits iff a living enemy has that id, and wounds that one |
| `RoomStates.RoomState.ApplyObstacleDamage` | src/RoomState.cpp:133-166 | hits iff the first obstacle of that id stands and can break, and only it; a valid position stays valid |
| `RoomStates.RoomState.IsCleared` | src/RoomState.cpp:168-172 | true iff every spawn of the template has been spawned and killed |
| `RoomStates.RoomState.CheckPosition` | src/RoomState.cpp:174-197 | outside iff below the floor or beyond width or depth; valid iff inside and out of the box of every obstacle that stands, on some axis |
| `ReceiveBuffers.FramingIsIndependentOfChunking` | src/ReceiveBuffer.cpp:13-56 | cut a sender's stream anywhere and interleave pops anyhow: no error, always a prefix of the packets sent, and all of them in order once everything has come and is drained |
| `ReceiveBuffers.ChunkingInvariant` | src/ReceiveBuffer.cpp:13-56 | for any bytes, delivered plus still buffered packets are those of the stream read in one piece |
| `ReceiveBuffers.SameBytesSamePackets` | src/ReceiveBuffer.cpp:13-56 | two drained readers of the same bytes agree, however they were cut |
| `ReceiveBuffers.ParseAppend` | src/ReceiveBuffer.cpp:19-56 | reading commutes with later arrivals |
| `ReceiveBuffers.ParsePrefix` | src/ReceiveBuffer.cpp:19-56 | a prefix of a sender's stream yields a prefix of the packets and keeps exactly the unread part |
| `ReceiveBuffers.PoppedIffFramed` | src/ReceiveBuffer.cpp:19-56 | a packet is popped exactly when the queue starts with its frame |
| `ReceiveBuffers.TcpReceiveBuffer.Append` | client/scripts/Protocol/TcpReceiveBuffer.cs:11-14 | the client's buffer is the byte queue |
| `ReceiveBuffers.TcpReceiveBuffer.TryPop` | client/scripts/Protocol/TcpReceiveBuffer.cs:21-48 | the client pops the front of the byte queue |
| `ReceiveBuffers.ReceiveBuffer.Append` | src/ReceiveBuffer.cpp:13-17 | the offset buffer refines the byte queue; the dead prefix stays shorter than 4096 or than the content; the bytes moved are counted exactly and never exceed the bytes popped |
| `ReceiveBuffers.ReceiveBuffer.TryPop` | src/ReceiveBuffer.cpp:19-56 | the offset buffer pops what the byte queue pops |
| `ReceiveBuffers.ReceiveBuffer.CompactIfNeeded` | src/ReceiveBuffer.cpp:63-75 | compaction changes no content, moves exactly the content when it is due and nothing otherwise, and is paid for by the bytes popped since the last one |
| `Packet.HeaderIsBigEndian` | src/Packet.cpp:80-102 | a header is accepted iff its size is 8 to 16384 and its type one of the protocol's; then its fields are the big-endian values of bytes 0-1, 2-3 and 4-7 |
| `Packet.EncodeHeader` | src/Packet.cpp:55-78 | succeeds exactly on valid headers, and decodes back |
| `Packet.EncodePacket` | src/Packet.cpp:104-125 | succeeds exactly on a valid type and size, and frames the packet |
| `Packet.EncodingIsUnique` | src/Packet.cpp:55-102 | a header has one wire form |
| `TickClock.NoDrift` | src/DungeonTickService.cpp:124-149 | within one start nextTick = start + interval * (1 + processed + missed), however late the ticks run |
| `TickClock.AtMostTwoToCatchUp` | src/DungeonTickService.cpp:124-149 | after every tick at most two deadlines are due, and missed counts exactly the dropped ones |
| `TickClock.OverdueCounts` | src/DungeonTickService.cpp:134-135 | the division counts exactly the deadlines at or before now |
| `DungeonTickServices.DungeonTickService.Start` | src/DungeonTickService.cpp:54-74 | the first deadline is one interval after the start; a second start changes nothing |
| `DungeonTickServices.DungeonTickService.Stop` | src/DungeonTickService.cpp:76-91 | the times of all dungeons are forgotten, once |
| `DungeonTickServices.DungeonTickService.AdvanceDeadline` | src/DungeonTickService.cpp:124-149 | the next deadline and the missed count |
| `DungeonTickServices.DungeonTickService.CountTick` | src/DungeonTickService.cpp:172-179 | a tick is counted once and its deadline moves on |
| `StartGate.StartedExactlyWhenComplete` | src/DungeonTickService.cpp:197-224 | a tick starts a waiting dungeon iff it has participants, none is gone, and each has its authenticated endpoint |
| `StartGate.CancelledExactlyWhenLate` | src/DungeonTickService.cpp:226-234 | a tick cancels a waiting dungeon iff nobody is gone, an endpoint is missing, and it was seen incomplete at least the timeout ago |
| `StartGate.ReadyTimeoutRuns` | src/DungeonTickService.cpp:197-235 | over many ticks, whatever happens in between: a waiting dungeon is cancelled at a pass iff an unbroken row of passes up to it has found nobody gone and an endpoint missing, and the first of them lies at least the timeout back; a pass with somebody gone starts the time afresh |
| `StartGate.PassNotes` | src/DungeonTickService.cpp:197-235 | every pass notes and judges a dungeon by its own history of passes alone |
| `StartGate.PassAt` | src/DungeonTickService.cpp:203-235 | considering one dungeon of the pass never changes the verdict on another |
| `DungeonTickServices.DungeonTickService.Consider` | src/DungeonTickService.cpp:203-235 | one waiting dungeon is paused, started, cancelled, noted or left, by the checks in their order |
| `DungeonTickServices.DungeonTickService.HandleWaiting` | src/DungeonTickService.cpp:197-248 | the pass considers each waiting dungeon once and forgets the times of all others |
| `TickBooks.FadingAt` | src/DungeonTickService.cpp:279-303 | in the pass over the finished dungeons each is noted at now if new, kept, or released exactly when shown for a second, and the others are left alone |
| `TickBooks.TickLeavesNothingOverdue` | src/DungeonTickService.cpp:181-303 | after the sweep and the three passes no dungeon is too old or empty, no seat overdue, no complete or timed-out dungeon waits, no running one has an idle endpoint or an input left, no finished one has been shown long enough, and the service's tables mention nothing else |
| `TickBooks.OthersKeepBooks` | src/DungeonTickService.cpp:184-303 | no step of another call spoils what the passes rest on; only a request that gives up can make an entry stale, that of its own dungeon |
| `DungeonTickServices.DungeonTickService.SweepAway` | src/DungeonTickService.cpp:184-195 | the sweep's lifecycle run, with the times of the released dungeons forgotten |
| `DungeonTickServices.DungeonTickService.HandleFinished` | src/DungeonTickService.cpp:279-303 | each finished dungeon is shown for a second, then finished in both managers |
| `RunningPass.RunningAt` | src/DungeonTickService.cpp:250-277 | a turn of a running dungeon touches no other dungeon, on either side; of its own it changes the state only if cleared, and notes the time of that once |
| `RunningPass.TurnSilencesTheIdle` | src/DungeonTickService.cpp:250-277 | a turn silences exactly the sessions idle for the timeout, leaves all tokens and the endpoints, times and sequences of the others alone, and takes every input |
| `RunningPass.TurnRun` | src/DungeonTickService.cpp:250-277 | in the eyes of the two managers a turn is a run of locked sections, prune, pops and perhaps the finish, and keeps the invariant |
| `DungeonTurns.TakeTurn` | src/DungeonTickService.cpp:250-277 | a running dungeon's turn on live objects: idle endpoints go, both queues are emptied, each session's newest movement is carried out, the combat tick works on what that left, every occupied room is offered a wave, and the dungeon finishes iff it is cleared; all dungeons, rooms and characters stay in order |
| `DungeonTickServices.DungeonTickService.RunDungeon` | src/DungeonTickService.cpp:250-277 | the turn in the service: exactly its run on the two managers; inside the dungeon the movement tick, the combat tick on what that left, the next waves, and cleared or not; no other dungeon changes inside; the time of a newly finished dungeon noted, once |
| `DungeonTickServices.DungeonTickService.HandleRunning` | src/DungeonTickService.cpp:250-277 | every running dungeon has its turn once, on the managers and inside, with what had come for it before the pass; the insides of all others are as before |
| `DungeonTickServices.DungeonTickService.HandleDungeons` | src/DungeonTickService.cpp:181-303 | sweep, waiting, running and finished pass in this order, each on what the one before has left, leave nothing overdue; every running dungeon has had its turn inside, and nothing has changed inside since |
| `DungeonTickServices.DungeonTickService.HandleTick` | src/DungeonTickService.cpp:151-317 | a stopped service or an aborted timer does nothing, a failed timer stops the service, and otherwise the tick is counted, its deadline moves on, every running dungeon has had its turn, inside too, and nothing is left overdue |
| `LoginAttemptLimiters.NoWindowOverflows` | src/LoginAttemptLimiter.cpp:135-220 | if no clock reading is more than d behind an earlier one, every window of the configured length less d holds at most the allowed accepted attempts per address and per case-folded account; tables stay within their caps; accepted = released + running, and running never too many |
| `LoginAttemptLimiters.EveryRunFits` | src/LoginAttemptLimiter.cpp:135-220 | each history is the recent end of its log and what it forgot is out of the window, over every run |
| `LoginAttemptLimiters.SpacedMeansBounded` | src/LoginAttemptLimiter.cpp:31-80 | spacing of the log bounds every window, wherever it starts |
| `LoginAttemptLimiters.VerdictByRecentAttempts` | src/LoginAttemptLimiter.cpp:135-220 | an attempt is refused exactly for as many attempts after the cutoff from its address, or for its account, as allowed, for a table full of others with an attempt after the cutoff, or for too many jobs, in this order; an accepted one is added to what counts and to nothing else |
| `LoginAttemptLimiters.ClockOrderMatters` | src/LoginAttemptLimiter.cpp:139-154 | the bound is tight: for every skew d up to the window there is a run with it in which a window longer by one holds one attempt too many |
| `LoginAttemptLimiters.FoldingMerges` | src/LoginAttemptLimiter.cpp:18-29 | spellings share a budget iff they are equally long and differ at most in the case of ASCII letters; the key is such a spelling without upper-case letters |
| `LoginAttemptLimiters.LoginAttemptLimiter.TryAcquire` | src/LoginAttemptLimiter.cpp:135-220 | the checks in order, the state after each, and the counters |
| `LoginAttemptLimiters.LoginAttemptLimiter.FindAndPrune` | src/LoginAttemptLimiter.cpp:55-80 | one key's expired attempts go, an empty history with them |
| `LoginAttemptLimiters.LoginAttemptLimiter.PruneExpired` | src/LoginAttemptLimiter.cpp:31-53 | everybody's expired attempts go |
| `LoginAttemptLimiters.LoginAttemptLimiter.ReleasePermit` | src/LoginAttemptLimiter.cpp:208-217 | a permit gives back one running job |

## Left out

- Boost.Asio sockets, timers, strands, TLS, signal handling and thread pools: I/O plumbing; only the step order they imply is kept.
- PacketDispatchers.PacketDispatcher.HandleEnterDungeonRequest: decoding the request and encoding the response are left out, and the clock's reading at creation is a parameter.
- TickBooks.TickLeavesNothingOverdue: is about passes between which no other thread gets in; TickBooks.OthersKeepBooks says what the calls of others leave of what the passes rest on.
- DungeonTickServices.DungeonTickService.HandleDungeons: likewise, pass after pass.
- DungeonTickServices.DungeonTickService.HandleTick: runs without the calls of other threads in between; its lifecycle parts are interleaved in LifecycleRuns. Every pass works with one reading of the clock. Snapshot encoding and broadcast, lateness and processing-time statistics and the server tick number are not part of this model.
- StartGate.StartedExactlyWhenComplete: is about a pass that no other thread enters; LifecycleGaps.StartedThroughTheGate says what is left of it when one does.
- StartGate.CancelledExactlyWhenLate: likewise for a pass of its own; Cancel itself is interleaved in LifecycleRuns.
- Server shutdown: the Stop methods are modelled, but shutdown is not a step of LifecycleRuns.
- DungeonMovementProcessors.DungeonMovementProcessor.Process: how far a movement leads (float speed, normalisation, delta time) is a parameter, and the dungeon is handed in already looked up.
- DungeonCombatProcessors.DungeonCombatProcessor.Process: the hit box test (float geometry) is a parameter, a skill carries the damage it does, and the dungeon is handed in already looked up.
- Floats are reals: rounding, NaN and infinity are not modelled, nor are the checks for them.
- Widths: session, player, party, dungeon ids, tokens, counters and times are unbounded; the 16-bit and 32-bit fields of packets, sequences, ticks, hit points, mana and waves have their width.
- DungeonUdpManagers.DungeonUdpManager.DrawTokens: random tokens are a nondeterministic choice; that the loop of draws ends is not a statement about the random generator.
- DungeonManagers.DungeonManager.StartDungeon: that the rooms and characters of all dungeons are in order is no part of the manager's Valid; `Equipped` and `Staffed` say it, creation establishes it, and every call that touches them keeps it.
- LoginAttemptLimiters.LoginAttemptLimiter.FindAndPrune: takes and returns the table as a value; the reference into the map that the original hands out is not modelled.
- PlayerState.TryDecodePlayer: only the per-player test of the client's snapshot decoder; enemies, obstacles and FlatBuffers access are left out.
- FlatBuffers encoding and verification, generated code, and the thin per-message codecs.
- OpenSSL scrypt, random generation and cleansing; SQLite and MySQL repositories, connection pools and schema migrations.
- ChannelManager, the catalogs as containers, PlayerSkillBook, session authentication flags and the request validators: they would add one-step facts only.
- The remaining getters of DungeonManager and DungeonInstance (templates, FindDungeonByParticipant, enemy snapshots): plain lookups.
- Godot user interface, demo and load-test clients, metrics, admin tools and JSON data loading.
