/** The lifecycle calls of src/DungeonLifecycleService.cpp: each one updates the dungeon manager
    first and the UDP manager after it, and is proved to be a run of the steps of LifecycleRuns
    that leaves nothing half done. */
module DungeonLifecycleServices {
  import opened Common
  import opened SeatTable
  import opened DungeonInstances
  import opened DungeonRegistry
  import opened DungeonManagers
  import opened UdpSession
  import opened DungeonUdpManagers
  import opened LifecycleRuns

  /** Nothing half done. */
  ghost function AtRest(m: Registry, udp: map<DungeonId, Udp>, registered: set<SessionId>, absent: set<SessionId>): World {
    World(m, udp, map[], map[], map[], map[], {}, {}, {}, {}, registered, absent)
  }

  /** The run behind a registration. */
  ghost function RegisterSteps(e: Event, token: Option<Token>): seq<Event>
    requires e.Register?
  {
    if !e.r.Reconnected? then [e]
    else if token.Some? then [e, ReplaceUdp(e.s, token)]
    else [e, ReplaceUdp(e.s, None), ReturnSeat(e.s)]
  }

  /** Before the session registers it sits nowhere as reported gone. */
  lemma MayRegister(w: World, s: SessionId)
    requires Invariant(w) && s !in w.registered && s !in w.absent
    ensures Present(w.registry, s)
  {
    NewcomerIsPresent(w, s);
  }

  lemma PlainRun(w: World, e: Event)
    requires Invariant(w) && e.Register? && Enabled(w, e) && !e.r.Reconnected?
    ensures
      var w' := w.(registry := Answered(w.registry, e.s, e.player, e.grace, e.r), registered := w.registered + {e.s});
      Invariant(w') && After(w, RegisterSteps(e, None)) == Some(w')
  {
    hide Invariant, CanAnswer, Answered, After;
    StepKeeps(w, e);
    AfterOne(w, e);
  }

  lemma RegistrationIsEnabled(w: World, e: Event)
    requires e.Register? && e.s !in w.registered && e.s !in w.absent
    requires CanAnswer(w.registry, e.s, e.player, e.now, e.grace, e.r)
    ensures Enabled(w, e)
  {
    hide CanAnswer;
  }

  /** After the manager's step a rollback can be asked for. */
  lemma TakenIsReturnable(w: World, e: Event)
    requires Invariant(w) && e.Register? && Enabled(w, e) && e.r.Reconnected?
    ensures Seated(w.registry, e.r.dungeonId, e.r.old_)
    ensures Returnable(Answered(w.registry, e.s, e.player, e.grace, e.r), e.r.dungeonId, e.player, e.s, e.r.old_)
  {
    hide Invariant, CanAnswer, Answered, Returnable;
    ReclaimedIsSeated(w, e);
    StepKeeps(w, e);
    ReturnableNow(Next(w, e), e.s);
  }

  lemma ReturnableNow(w: World, s: SessionId)
    requires Invariant(w) && s in w.reconnects
    ensures Returnable(w.registry, w.reconnects[s].id, w.reconnects[s].player, s, w.reconnects[s].old_)
  {
    IsReturnable(w, s);
  }

  lemma ReconnectedRun(w: World, e: Event, token: Token)
    requires Invariant(w) && e.Register? && Enabled(w, e) && e.r.Reconnected? && w.reconnects == map[]
    requires ReplacementAccepted(w.udp, e.r.dungeonId, e.r.old_, e.s, token)
    ensures Seated(w.registry, e.r.dungeonId, e.r.old_)
    ensures
      var id, old_ := e.r.dungeonId, e.r.old_;
      var w' := w.(registry := Answered(w.registry, e.s, e.player, e.grace, e.r), registered := w.registered + {e.s},
                   udp := w.udp[id := Replaced(w.udp[id], old_, e.s, token)]);
      Invariant(w') && After(w, RegisterSteps(e, Some(token))) == Some(w')
  {
    hide Invariant, CanAnswer, Answered, After, CanReplace, Replaced;
    TakenIsReturnable(w, e);
    var second := ReplaceUdp(e.s, Some(token));
    StepKeeps(w, e);
    StepKeeps(Next(w, e), second);
    AfterTwo(w, e, second);
    assert Next(w, e).reconnects - {e.s} == map[];
  }

  lemma RolledBackRun(w: World, e: Event)
    requires Invariant(w) && e.Register? && Enabled(w, e) && e.r.Reconnected?
    ensures
      var id, old_ := e.r.dungeonId, e.r.old_;
      var w' := w.(registered := w.registered + {e.s});
      && Seated(w.registry, id, old_)
      && var taken := Answered(w.registry, e.s, e.player, e.grace, e.r);
      && CanReturn(taken, id, e.player, e.s, old_)
      && Returned(taken, id, e.player, e.s, old_, e.r.at) == w.registry
      && Invariant(w') && After(w, RegisterSteps(e, None)) == Some(w')
  {
    hide Invariant, RegistryFits, LeadersFit, UdpFits, CanAnswer, Answered, CanReturn, Returned, Enabled, Next, After;
    InvariantParts(w);
    TakenIsReturnable(w, e);
    LoggedOutBefore(w, e);
    ReconnectIsAllOrNothing(w, e, 0);
    RestoredRegistry(w, e);
    StepsKeep(w, [e, ReplaceUdp(e.s, None), ReturnSeat(e.s)]);
  }

  /** A run without allocations. */
  lemma {:induction false} StepsKeep(w: World, events: seq<Event>)
    requires Invariant(w) && After(w, events).Some?
    requires forall k :: 0 <= k < |events| ==> !events[k].Allocate?
    ensures Invariant(After(w, events).value)
  {
    hide Invariant, Enabled, Next;
    if events != [] {
      StepsKeep(w, events[..|events| - 1]);
      StepKeeps(After(w, events[..|events| - 1]).value, events[|events| - 1]);
    }
  }

  lemma LoggedOutBefore(w: World, e: Event)
    requires Invariant(w) && e.Register? && Enabled(w, e)
    ensures Sound(w.registry) && e.s !in w.registry.authenticated
  {
    hide Invariant, RegistryFits, LeadersFit, UdpFits, CanAnswer;
    InvariantParts(w);
    NewcomerIsOut(w, e.s);
  }

  lemma RestoredRegistry(w: World, e: Event)
    requires Sound(w.registry) && e.Register? && Enabled(w, e) && e.r.Reconnected? && e.s !in w.registry.authenticated
    requires Seated(w.registry, e.r.dungeonId, e.r.old_)
    ensures
      var taken := Answered(w.registry, e.s, e.player, e.grace, e.r);
      && CanReturn(taken, e.r.dungeonId, e.player, e.s, e.r.old_)
      && Returned(taken, e.r.dungeonId, e.player, e.s, e.r.old_, e.r.at) == w.registry
  {
    hide Sound, CanAnswer, Answered, CanReturn, Returned;
    RollbackRestores(w.registry, e.s, e.player, e.now, e.grace, e.r.dungeonId, e.r.old_, e.r.at);
  }

  /** The session is silent in that dungeon's UDP session and keeps its token; everybody else's
      state there, and every other dungeon's session, is as before. */
  ghost predicate QuietAt(udp: map<DungeonId, Udp>, udp': map<DungeonId, Udp>, id: DungeonId, s: SessionId) {
    && OnlyTouches(udp, udp', id)
    && (id in udp ==> udp'[id].tokens == udp[id].tokens && RuntimeStateGone(udp[id], udp'[id], {s}))
  }

  /** A registration in both managers, field by field: without a reconnect the UDP side is not touched;
      a reconnect moves the seat, and with it the place in the dungeon's UDP session, to the new
      session, under a new token and with nothing of the old runtime state, or does neither. */
  ghost predicate RegisteredInBoth(w: World, w': World, e: Event, token: Option<Token>)
    requires e.Register?
  {
    if e.r.Reconnected? && token.None? then w'.registry == w.registry && w'.udp == w.udp
    else
      && RegisteredExactly(w.registry, w'.registry, e.s, e.player, e.now, e.grace, e.r)
      && (if e.r.Reconnected? then TokenMoved(w.udp, w'.udp, e.r.dungeonId, e.r.old_, e.s, token.value)
          else w'.udp == w.udp)
  }

  ghost predicate TokenMoved(
    udp: map<DungeonId, Udp>, udp': map<DungeonId, Udp>, id: DungeonId, old_: SessionId, new_: SessionId, token: Token)
  {
    && OnlyTouches(udp, udp', id) && id in udp
    && old_ in udp[id].tokens && new_ !in udp[id].tokens && token != 0 && token !in udp[id].tokens.Values
    && udp'[id].tokens == (udp[id].tokens - {old_})[new_ := token]
    && RuntimeStateGone(udp[id], udp'[id], {old_})
  }

  lemma RegistrationInBoth(w: World, e: Event, token: Option<Token>, w': World)
    requires Invariant(w) && e.Register? && Enabled(w, e) && After(w, RegisterSteps(e, token)) == Some(w')
    requires e.r.Reconnected? && token.None? ==> w'.registry == w.registry && w'.udp == w.udp
    ensures RegisteredInBoth(w, w', e, token)
  {
    hide Invariant, RegisteredExactly, Enabled, Next, After, TokenMoved;
    if e.r.Reconnected? && token.Some? {
      AfterTwo(w, e, ReplaceUdp(e.s, token));
      RegisterIs(w, e);
      TokenMoves(w, e, token.value);
    } else if !e.r.Reconnected? {
      AfterOne(w, e);
      RegisterIs(w, e);
    }
  }

  lemma RegisterIs(w: World, e: Event)
    requires Invariant(w) && e.Register? && Enabled(w, e)
    ensures RegisteredExactly(w.registry, Next(w, e).registry, e.s, e.player, e.now, e.grace, e.r) && Next(w, e).udp == w.udp
    ensures e.r.Reconnected? ==>
      e.s in Next(w, e).reconnects && Next(w, e).reconnects[e.s] == Reconnecting(e.r.dungeonId, e.player, e.r.old_, e.r.at, false)
  {
    hide Sound, CanAnswer, Answered, RegisteredExactly;
    InvariantParts(w);
    RegistrationMeans(w.registry, e.s, e.player, e.now, e.grace, e.r);
  }

  lemma TokenMoves(w: World, e: Event, token: Token)
    requires Invariant(w) && e.Register? && Enabled(w, e) && e.r.Reconnected?
    requires Enabled(Next(w, e), ReplaceUdp(e.s, Some(token)))
    ensures
      var after := Next(Next(w, e), ReplaceUdp(e.s, Some(token)));
      && after.registry == Next(w, e).registry
      && TokenMoved(w.udp, after.udp, e.r.dungeonId, e.r.old_, e.s, token)
  {
    hide Invariant, RegisteredExactly, Answered, CanAnswer, RuntimeStateGone, Replaced;
    RegisterIs(w, e);
    ReplacementMovesTokens(w.udp[e.r.dungeonId], e.r.old_, e.s, token);
  }

  /** The run behind a disconnect. */
  ghost function DisconnectSteps(s: SessionId, at: Time, found: Option<DungeonId>): seq<Event> {
    if found.None? then [Disconnect(s, at, found)] else [Disconnect(s, at, found), QuietUdp(found.value, s)]
  }

  lemma DisconnectRun(w: World, s: SessionId, at: Time, found: Option<DungeonId>)
    requires Invariant(w) && w.reconnects == map[] && w.abandoned == {} && w.quiets == {}
    requires w.entering == map[] && w.finding == map[]
    requires CanReport(w.registry, s, found)
    ensures
      var w' := w.(registry := Departed(w.registry, s, at, found), absent := w.absent + {s},
                   udp := if found.None? then w.udp else Quieted(w.udp, found.value, s));
      Invariant(w') && After(w, DisconnectSteps(s, at, found)) == Some(w')
  {
    hide Invariant, CanReport, Departed, After, Quieted;
    var e := Disconnect(s, at, found);
    StepKeeps(w, e);
    if found.None? {
      AfterOne(w, e);
    } else {
      StepKeeps(Next(w, e), QuietUdp(found.value, s));
      AfterTwo(w, e, QuietUdp(found.value, s));
    }
  }

  /** The run behind the end of a dungeon. */
  lemma CloseRun(w: World, e: Event, id: DungeonId)
    requires Invariant(w) && (e == Cancel(id) || e == Finish(id)) && Enabled(w, e) && w.releases == {} && w.entering == map[]
    ensures
      var w' := w.(registry := Closed(w.registry, id), udp := w.udp - {id});
      Invariant(w') && After(w, [e, ReleaseUdp(id)]) == Some(w')
  {
    hide Invariant, Closed, After;
    StepKeeps(w, e);
    StepKeeps(Next(w, e), ReleaseUdp(id));
    AfterTwo(w, e, ReleaseUdp(id));
  }

  // ---------------------------------------------------------------- the run behind a sweep

  ghost function DropSteps(removed: seq<(DungeonId, SessionId)>): seq<Event> {
    seq(|removed|, i requires 0 <= i < |removed| => DropUdp(removed[i].0, removed[i].1))
  }

  ghost function ReleaseSteps(released: seq<DungeonId>): seq<Event> {
    seq(|released|, i requires 0 <= i < |released| => ReleaseUdp(released[i]))
  }

  ghost function Elements<T>(list: seq<T>): set<T> {
    set x | x in list
  }

  lemma ListedElements<T>(list: seq<T>, members: set<T>)
    requires ListsOnce(list, members)
    ensures members == Elements(list) && Distinct(list)
  {
  }

  lemma NextElement<T>(list: seq<T>, i: nat)
    requires Distinct(list) && i < |list|
    ensures list[i] in Elements(list[i..]) && Elements(list[i..]) - {list[i]} == Elements(list[i + 1..])
  {
    assert list[i..] == [list[i]] + list[i + 1..];
  }

  lemma NextDropStep(removed: seq<(DungeonId, SessionId)>, i: nat)
    requires i < |removed|
    ensures DropSteps(removed[..i + 1]) == DropSteps(removed[..i]) + [DropUdp(removed[i].0, removed[i].1)]
  {
  }

  lemma NextReleaseStep(released: seq<DungeonId>, i: nat)
    requires i < |released|
    ensures ReleaseSteps(released[..i + 1]) == ReleaseSteps(released[..i]) + [ReleaseUdp(released[i])]
  {
  }

  ghost function SweepSteps(now: Time, grace: Time, lifetime: Time, sweep: AbandonmentSweep): seq<Event> {
    [Sweep(now, grace, lifetime)] + DropSteps(sweep.removedParticipants) + ReleaseSteps(sweep.releasedDungeons)
  }

  /** A sweep's report names every dropped seat and every released dungeon once, and nothing else. */
  ghost predicate Reports(m: Registry, now: Time, grace: Time, lifetime: Time, sweep: AbandonmentSweep) {
    && ListsOnce(sweep.releasedDungeons, ReleasedIds(m, m.dungeons.Keys, now, grace, lifetime))
    && ListsOnce(sweep.removedParticipants, RemovedSeats(m, m.dungeons.Keys, now, grace, lifetime))
  }

  /** The manager's part of a sweep leaves exactly the reported seats and dungeons to the UDP side. */
  lemma SweepBegins(w: World, now: Time, grace: Time, lifetime: Time, sweep: AbandonmentSweep)
    requires Invariant(w) && grace > 0 && lifetime > 0 && w.drops == {} && w.releases == {}
    requires Reports(w.registry, now, grace, lifetime, sweep)
    ensures
      var w' := w.(registry := Swept(w.registry, w.registry.dungeons.Keys, now, grace, lifetime),
                   drops := Elements(sweep.removedParticipants), releases := Elements(sweep.releasedDungeons));
      After(w, [Sweep(now, grace, lifetime)]) == Some(w') && Invariant(w')
    ensures Distinct(sweep.removedParticipants) && Distinct(sweep.releasedDungeons)
  {
    hide Invariant, Swept, RemovedSeats, ReleasedIds, After, ListsOnce, Elements;
    var e := Sweep(now, grace, lifetime);
    StepKeeps(w, e);
    AfterOne(w, e);
    assert Next(w, e).drops == RemovedSeats(w.registry, w.registry.dungeons.Keys, now, grace, lifetime);
    assert Next(w, e).releases == ReleasedIds(w.registry, w.registry.dungeons.Keys, now, grace, lifetime);
    ListedElements(sweep.removedParticipants, RemovedSeats(w.registry, w.registry.dungeons.Keys, now, grace, lifetime));
    ListedElements(sweep.releasedDungeons, ReleasedIds(w.registry, w.registry.dungeons.Keys, now, grace, lifetime));
  }

  lemma ExactSweep(w: World, now: Time, grace: Time, lifetime: Time)
    requires Invariant(w) && grace > 0 && lifetime > 0
    ensures SweptExactly(w.registry, Swept(w.registry, w.registry.dungeons.Keys, now, grace, lifetime), now, grace, lifetime)
  {
    hide Sound, Swept, SweptExactly;
    InvariantParts(w);
    SweepLeavesNothingOverdue(w.registry, now, grace, lifetime);
  }

  lemma ExactReports(w: World, now: Time, grace: Time, lifetime: Time, sweep: AbandonmentSweep)
    requires Invariant(w) && grace > 0 && lifetime > 0 && Reports(w.registry, now, grace, lifetime, sweep)
    ensures ReportsExactly(w.registry, Swept(w.registry, w.registry.dungeons.Keys, now, grace, lifetime),
      sweep.releasedDungeons, sweep.removedParticipants, now, grace, lifetime)
  {
    hide Sound, Swept, ReportsExactly, ListsOnce, ReleasedIds, RemovedSeats;
    InvariantParts(w);
    SweepReportsExactly(w.registry, sweep.releasedDungeons, sweep.removedParticipants, now, grace, lifetime);
  }

  class DungeonLifecycleService {
    const dungeonManager: DungeonManager
    const udpManager: DungeonUdpManager
    const reconnectGrace: Time
    ghost var registered: set<SessionId>
    ghost var absent: set<SessionId>

    /** Between calls nothing is half done. */
    ghost function View(): World
      reads this, dungeonManager, dungeonManager.dungeons.Values, udpManager, udpManager.sessions.Values
    {
      AtRest(dungeonManager.View(), udpManager.View(), registered, absent)
    }

    ghost predicate Valid()
      reads this, dungeonManager, dungeonManager.dungeons.Values, udpManager, udpManager.sessions.Values
    {
      dungeonManager.Valid() && udpManager.Valid() && reconnectGrace > 0 && Invariant(View())
    }

    constructor (dungeonManager: DungeonManager, udpManager: DungeonUdpManager, reconnectGrace: Time)
      requires dungeonManager.Valid() && dungeonManager.View() == NEW_REGISTRY
      requires udpManager.Valid() && udpManager.View() == map[] && reconnectGrace > 0
      ensures Valid() && View() == START
      ensures this.dungeonManager == dungeonManager && this.udpManager == udpManager
    {
      StartFits();
      this.dungeonManager, this.udpManager, this.reconnectGrace := dungeonManager, udpManager, reconnectGrace;
      registered, absent := {}, {};
    }

    /** Seats and tokens belong to the same sessions whenever no call is under way. */
    lemma IsCoupled()
      requires Valid()
      ensures Coupled(dungeonManager.View().dungeons, udpManager.View())
    {
      FitsAndSettled(View());
    }

    /** A registration either moves the player's seat in both managers, with a fresh token, or
        leaves both exactly as they were. */
    method RegisterPlayerSession(sessionId: SessionId, playerId: PlayerId, now: Time, draws: seq<Token>)
      returns (registration: Registration, freshUdpToken: Option<Token>)
      requires Valid() && |draws| == MAX_TOKEN_ATTEMPTS
      requires sessionId !in registered && sessionId !in absent
      modifies this`registered, dungeonManager`authenticatedPlayers, dungeonManager`activePlayerSessions
      modifies dungeonManager.Characters()`sessionId
      modifies dungeonManager.dungeons.Values`participants, dungeonManager.dungeons.Values`players
      modifies dungeonManager.dungeons.Values`participantPlayerIds, dungeonManager.dungeons.Values`playerSessions
      modifies dungeonManager.dungeons.Values`disconnectedSince, udpManager.sessions.Values
      ensures Valid()
      ensures After(old(View()), RegisterSteps(
        Register(sessionId, playerId, now, reconnectGrace, registration), freshUdpToken)) == Some(View())
      ensures registration.Reconnected? && freshUdpToken.None? ==>
        View() == old(View()).(registered := old(registered) + {sessionId})
      ensures RegisteredInBoth(old(View()), View(),
        Register(sessionId, playerId, now, reconnectGrace, registration), freshUdpToken)
      ensures old(dungeonManager.Staffed()) ==> dungeonManager.Staffed()
    {
      hide Invariant, DungeonManager.Valid, DungeonManager.View, DungeonUdpManager.Valid, DungeonUdpManager.View;
      hide CanAnswer, Answered, After, CanReturn, Returned, Returnable, Present, CanReplace, Replaced;
      hide DungeonManager.Characters;
      hide RegisterSteps, Enabled, DungeonManager.Staffed, RegisteredInBoth;
      ghost var w := View();
      freshUdpToken := None;
      MayRegister(w, sessionId);
      registration := RegisterInManager(sessionId, playerId, now);
      ghost var e := Register(sessionId, playerId, now, reconnectGrace, registration);
      RegistrationIsEnabled(w, e);
      if registration.Reconnected? {
        ReclaimedIsSeated(w, e);
      }
      if !registration.Reconnected? {
        PlainRun(w, e);
      } else {
        freshUdpToken := MoveToken(w, e, registration, sessionId, playerId, draws);
      }
      RegistrationInBoth(w, e, freshUdpToken, View());
    }

    /** The manager's part. */
    method RegisterInManager(sessionId: SessionId, playerId: PlayerId, now: Time) returns (registration: Registration)
      requires dungeonManager.Valid() && udpManager.Valid() && Present(dungeonManager.View(), sessionId)
      modifies this`registered, dungeonManager`authenticatedPlayers, dungeonManager`activePlayerSessions
      modifies dungeonManager.Characters()`sessionId
      modifies dungeonManager.dungeons.Values`participants, dungeonManager.dungeons.Values`players
      modifies dungeonManager.dungeons.Values`participantPlayerIds, dungeonManager.dungeons.Values`playerSessions
      modifies dungeonManager.dungeons.Values`disconnectedSince
      ensures dungeonManager.Valid() && dungeonManager.Characters() <= old(dungeonManager.Characters())
      ensures udpManager.Valid() && udpManager.View() == old(udpManager.View())
      ensures registered == old(registered) + {sessionId}
      ensures CanAnswer(old(dungeonManager.View()), sessionId, playerId, now, reconnectGrace, registration)
      ensures dungeonManager.View() ==
        Answered(old(dungeonManager.View()), sessionId, playerId, reconnectGrace, registration)
      ensures old(dungeonManager.Staffed()) ==> dungeonManager.Staffed()
    {
      hide DungeonManager.Valid, DungeonManager.View, DungeonUdpManager.Valid, DungeonUdpManager.View, Present;
      hide CanAnswer, Answered, DungeonManager.Characters, DungeonManager.Staffed;
      registration := dungeonManager.RegisterPlayerSession(sessionId, playerId, now, reconnectGrace);
      label managed:
      registered := registered + {sessionId};
      dungeonManager.LeftStaffed@managed();
    }

    /** The second half of a reconnect: the UDP token follows the seat, or the seat goes back. */
    method MoveToken(
      ghost w: World, ghost e: Event, registration: Registration, sessionId: SessionId, playerId: PlayerId,
      draws: seq<Token>)
      returns (freshUdpToken: Option<Token>)
      requires Invariant(w) && e.Register? && Enabled(w, e) && e.r.Reconnected? && w.reconnects == map[]
      requires registration == e.r && sessionId == e.s && playerId == e.player && |draws| == MAX_TOKEN_ATTEMPTS
      requires dungeonManager.Valid() && udpManager.Valid() && udpManager.View() == w.udp
      requires Seated(w.registry, e.r.dungeonId, e.r.old_)
      requires dungeonManager.View() == Answered(w.registry, e.s, e.player, e.grace, e.r)
      modifies dungeonManager`authenticatedPlayers, dungeonManager`activePlayerSessions
      modifies dungeonManager.Characters()`sessionId
      modifies dungeonManager.dungeons.Values`participants, dungeonManager.dungeons.Values`players
      modifies dungeonManager.dungeons.Values`participantPlayerIds, dungeonManager.dungeons.Values`playerSessions
      modifies dungeonManager.dungeons.Values`disconnectedSince, udpManager.sessions.Values
      ensures dungeonManager.Valid() && udpManager.Valid()
      ensures
        var w' := w.(registry := dungeonManager.View(), udp := udpManager.View(), registered := w.registered + {e.s});
        && Invariant(w') && After(w, RegisterSteps(e, freshUdpToken)) == Some(w')
        && (freshUdpToken.None? ==> w' == w.(registered := w.registered + {e.s}))
      ensures old(dungeonManager.Staffed()) ==> dungeonManager.Staffed()
    {
      hide Invariant, DungeonManager.Valid, DungeonManager.View, DungeonUdpManager.Valid, DungeonUdpManager.View;
      hide CanAnswer, Answered, After, CanReturn, Returned, Returnable, CanReplace, Replaced;
      hide DungeonManager.Characters;
      hide RegisterSteps, Enabled, DungeonManager.Staffed;
      TakenIsReturnable(w, e);
      freshUdpToken := udpManager.ReplaceParticipant(registration.dungeonId, registration.old_, sessionId, draws);
      dungeonManager.LeftStaffed();
      if freshUdpToken.Some? {
        ReconnectedRun(w, e, freshUdpToken.value);
      } else {
        RolledBackRun(w, e);
        TakeBack(registration, sessionId, playerId);
      }
    }

    /** The compensating action. It follows its reconnect directly, so it is never refused. */
    method TakeBack(registration: Registration, sessionId: SessionId, playerId: PlayerId)
      requires dungeonManager.Valid() && udpManager.Valid() && registration.Reconnected?
      requires CanReturn(dungeonManager.View(), registration.dungeonId, playerId, sessionId, registration.old_)
      requires Returnable(dungeonManager.View(), registration.dungeonId, playerId, sessionId, registration.old_)
      modifies dungeonManager`authenticatedPlayers, dungeonManager`activePlayerSessions
      modifies dungeonManager.Characters()`sessionId
      modifies dungeonManager.dungeons.Values`participants, dungeonManager.dungeons.Values`players
      modifies dungeonManager.dungeons.Values`participantPlayerIds, dungeonManager.dungeons.Values`playerSessions
      modifies dungeonManager.dungeons.Values`disconnectedSince
      ensures dungeonManager.Valid() && udpManager.Valid() && udpManager.View() == old(udpManager.View())
      ensures dungeonManager.View() == Returned(
        old(dungeonManager.View()), registration.dungeonId, playerId, sessionId, registration.old_, registration.at)
      ensures old(dungeonManager.Staffed()) ==> dungeonManager.Staffed()
    {
      hide DungeonManager.Valid, DungeonManager.View, DungeonUdpManager.Valid, DungeonUdpManager.View;
      hide DungeonManager.Staffed, CanReturn, Returned, Returnable, DungeonManager.Characters;
      var rolledBack := dungeonManager.RollbackPlayerReconnect(
        registration.dungeonId, playerId, sessionId, registration.old_, registration.at);
    }

    /** The session is out in the manager and silent on the UDP side. */
    method DisconnectPlayerSession(sessionId: SessionId, at: Time) returns (known: bool, ghost found: Option<DungeonId>)
      requires Valid()
      modifies this`absent, dungeonManager`authenticatedPlayers, dungeonManager`activePlayerSessions
      modifies dungeonManager.dungeons.Values`disconnectedSince, udpManager.sessions.Values
      ensures Valid() && (known <==> found.Some?)
      ensures After(old(View()), DisconnectSteps(sessionId, at, found)) == Some(View())
      ensures sessionId != 0 ==> DepartedExactly(old(View()).registry, View().registry, sessionId, at, found)
      ensures found.Some? ==> QuietAt(old(View()).udp, View().udp, found.value, sessionId)
      ensures found.None? ==> View().udp == old(View()).udp
      ensures old(dungeonManager.Staffed()) ==> dungeonManager.Staffed()
    {
      hide Invariant, DungeonManager.Valid, DungeonManager.View, DungeonUdpManager.Valid, DungeonUdpManager.View;
      hide DungeonManager.Staffed, CanReport, Departed, After, Quieted, DisconnectSteps, DepartedExactly, QuietAt;
      ghost var w := View();
      var dungeonId := DisconnectInBoth(sessionId, at);
      found, known := dungeonId, dungeonId.Some?;
      label both:
      absent := absent + {sessionId};
      dungeonManager.LeftStaffed@both();
      DisconnectRun(w, sessionId, at, found);
    }

    /** The two locked sections of a disconnect. */
    method DisconnectInBoth(sessionId: SessionId, at: Time) returns (found: Option<DungeonId>)
      requires dungeonManager.Valid() && udpManager.Valid()
      modifies dungeonManager`authenticatedPlayers, dungeonManager`activePlayerSessions
      modifies dungeonManager.dungeons.Values`disconnectedSince, udpManager.sessions.Values
      ensures dungeonManager.Valid() && udpManager.Valid() && CanReport(old(dungeonManager.View()), sessionId, found)
      ensures dungeonManager.View() == Departed(old(dungeonManager.View()), sessionId, at, found)
      ensures udpManager.View() ==
        if found.None? then old(udpManager.View()) else Quieted(old(udpManager.View()), found.value, sessionId)
      ensures sessionId != 0 ==>
        DepartedExactly(old(dungeonManager.View()), dungeonManager.View(), sessionId, at, found)
      ensures found.Some? ==> QuietAt(old(udpManager.View()), udpManager.View(), found.value, sessionId)
      ensures old(dungeonManager.Staffed()) ==> dungeonManager.Staffed()
    {
      hide DungeonManager.Valid, DungeonManager.View, DungeonUdpManager.Valid, DungeonUdpManager.View;
      hide DungeonManager.Staffed, CanReport, Departed, Quieted, DepartedExactly, RuntimeStateGone;
      found := dungeonManager.DisconnectPlayerSession(sessionId, at);
      if found.Some? {
        label managed:
        var quieted := udpManager.DisconnectParticipant(found.value, sessionId);
        dungeonManager.LeftStaffed@managed();
      }
    }

    method CancelWaitingDungeon(dungeonId: DungeonId) returns (cancelled: bool)
      requires Valid()
      modifies dungeonManager`dungeons, dungeonManager`partyDungeons, udpManager`sessions
      ensures Valid()
      ensures old(dungeonManager.Equipped()) ==> dungeonManager.Equipped()
      ensures cancelled <==> Enabled(old(View()), Cancel(dungeonId))
      ensures cancelled <==>
        dungeonId in old(dungeonManager.dungeons) && old(dungeonManager.dungeons[dungeonId].state).Waiting?
      ensures dungeonManager.dungeons ==
        if cancelled then old(dungeonManager.dungeons) - {dungeonId} else old(dungeonManager.dungeons)
      ensures udpManager.sessions ==
        if cancelled then old(udpManager.sessions) - {dungeonId} else old(udpManager.sessions)
      ensures After(old(View()), if cancelled then [Cancel(dungeonId), ReleaseUdp(dungeonId)] else []) == Some(View())
      ensures old(dungeonManager.Staffed()) ==> dungeonManager.Staffed()
    {
      hide Invariant, DungeonManager.Valid, DungeonManager.View, DungeonUdpManager.Valid, DungeonUdpManager.View;
      hide Closed, DungeonManager.Equipped, DungeonManager.Staffed;
      ghost var w := View();
      cancelled := CancelInBoth(dungeonId);
      if cancelled {
        CloseRun(w, Cancel(dungeonId), dungeonId);
      }
    }

    /** The two locked sections of a cancellation, whatever the two sides agree on. */
    method CancelInBoth(dungeonId: DungeonId) returns (cancelled: bool)
      requires dungeonManager.Valid() && udpManager.Valid()
      modifies dungeonManager`dungeons, dungeonManager`partyDungeons, udpManager`sessions
      ensures dungeonManager.Valid() && udpManager.Valid()
      ensures old(dungeonManager.Equipped()) ==> dungeonManager.Equipped()
      ensures cancelled <==> Cancellable(old(dungeonManager.View()), dungeonId)
      ensures cancelled <==>
        dungeonId in old(dungeonManager.dungeons) && old(dungeonManager.dungeons[dungeonId].state).Waiting?
      ensures dungeonManager.dungeons ==
        if cancelled then old(dungeonManager.dungeons) - {dungeonId} else old(dungeonManager.dungeons)
      ensures udpManager.sessions ==
        if cancelled then old(udpManager.sessions) - {dungeonId} else old(udpManager.sessions)
      ensures dungeonManager.View() ==
        if cancelled then Closed(old(dungeonManager.View()), dungeonId) else old(dungeonManager.View())
      ensures udpManager.View() == if cancelled then old(udpManager.View()) - {dungeonId} else old(udpManager.View())
      ensures old(dungeonManager.Staffed()) ==> dungeonManager.Staffed()
    {
      hide DungeonManager.Valid, DungeonManager.View, DungeonUdpManager.Valid, DungeonUdpManager.View, Closed;
      hide DungeonManager.Equipped, DungeonManager.Staffed;
      cancelled := dungeonManager.CancelDungeon(dungeonId);
      if cancelled {
        label cancelledOnly:
        var released := udpManager.Release(dungeonId);
        dungeonManager.LeftStaffed@cancelledOnly();
        if old@cancelledOnly(dungeonManager.Equipped()) {
          dungeonManager.RoomsUntouched@cancelledOnly();
        }
      }
    }

    method FinishDungeon(dungeonId: DungeonId) returns (finished: bool)
      requires Valid()
      modifies dungeonManager`dungeons, dungeonManager`partyDungeons, dungeonManager.dungeons.Values`state
      modifies udpManager`sessions
      ensures Valid()
      ensures old(dungeonManager.Equipped()) ==> dungeonManager.Equipped()
      ensures finished <==> Enabled(old(View()), Finish(dungeonId))
      ensures finished <==>
        dungeonId in old(dungeonManager.dungeons) && !old(dungeonManager.dungeons[dungeonId].state).Waiting?
      ensures dungeonManager.dungeons ==
        if finished then old(dungeonManager.dungeons) - {dungeonId} else old(dungeonManager.dungeons)
      ensures udpManager.sessions ==
        if finished then old(udpManager.sessions) - {dungeonId} else old(udpManager.sessions)
      ensures After(old(View()), if finished then [Finish(dungeonId), ReleaseUdp(dungeonId)] else []) == Some(View())
      ensures old(dungeonManager.Staffed()) ==> dungeonManager.Staffed()
    {
      hide Invariant, DungeonManager.Valid, DungeonManager.View, DungeonUdpManager.Valid, DungeonUdpManager.View;
      hide Closed, DungeonManager.Equipped, DungeonManager.Staffed;
      ghost var w := View();
      finished := FinishInBoth(dungeonId);
      if finished {
        CloseRun(w, Finish(dungeonId), dungeonId);
      }
    }

    /** The two locked sections of a finish. */
    method FinishInBoth(dungeonId: DungeonId) returns (finished: bool)
      requires dungeonManager.Valid() && udpManager.Valid()
      modifies dungeonManager`dungeons, dungeonManager`partyDungeons, dungeonManager.dungeons.Values`state
      modifies udpManager`sessions
      ensures dungeonManager.Valid() && udpManager.Valid()
      ensures old(dungeonManager.Equipped()) ==> dungeonManager.Equipped()
      ensures finished <==> Finishable(old(dungeonManager.View()), dungeonId)
      ensures finished <==>
        dungeonId in old(dungeonManager.dungeons) && !old(dungeonManager.dungeons[dungeonId].state).Waiting?
      ensures dungeonManager.dungeons ==
        if finished then old(dungeonManager.dungeons) - {dungeonId} else old(dungeonManager.dungeons)
      ensures udpManager.sessions ==
        if finished then old(udpManager.sessions) - {dungeonId} else old(udpManager.sessions)
      ensures dungeonManager.View() ==
        if finished then Closed(old(dungeonManager.View()), dungeonId) else old(dungeonManager.View())
      ensures udpManager.View() == if finished then old(udpManager.View()) - {dungeonId} else old(udpManager.View())
      ensures old(dungeonManager.Staffed()) ==> dungeonManager.Staffed()
    {
      hide DungeonManager.Valid, DungeonManager.View, DungeonUdpManager.Valid, DungeonUdpManager.View, Closed;
      hide DungeonManager.Equipped, DungeonManager.Staffed;
      finished := dungeonManager.FinishDungeon(dungeonId);
      if finished {
        label finishedOnly:
        var released := udpManager.Release(dungeonId);
        dungeonManager.LeftStaffed@finishedOnly();
        if old@finishedOnly(dungeonManager.Equipped()) {
          dungeonManager.RoomsUntouched@finishedOnly();
        }
      }
    }

    /** Every dropped seat loses its token and every released dungeon its UDP session. */
    method SweepAbandonedParticipants(now: Time, grace: Time, maxDungeonLifetime: Time) returns (sweep: AbandonmentSweep)
      requires Valid() && grace > 0 && maxDungeonLifetime > 0
      modifies dungeonManager`dungeons, dungeonManager`partyDungeons
      modifies dungeonManager.dungeons.Values`participants, dungeonManager.dungeons.Values`players
      modifies dungeonManager.dungeons.Values`participantPlayerIds, dungeonManager.dungeons.Values`playerSessions
      modifies dungeonManager.dungeons.Values`disconnectedSince
      modifies udpManager`sessions, udpManager.sessions.Values
      ensures Valid() && dungeonManager.NothingNew() && udpManager.NothingNew()
      ensures dungeonManager.Characters() <= old(dungeonManager.Characters())
      ensures After(old(View()), SweepSteps(now, grace, maxDungeonLifetime, sweep)) == Some(View())
      ensures View().registry == Swept(old(View()).registry, old(View()).registry.dungeons.Keys, now, grace, maxDungeonLifetime)
      ensures Reports(old(View()).registry, now, grace, maxDungeonLifetime, sweep)
      ensures SweptExactly(old(View()).registry, View().registry, now, grace, maxDungeonLifetime)
      ensures ReportsExactly(old(View()).registry, View().registry, sweep.releasedDungeons, sweep.removedParticipants,
        now, grace, maxDungeonLifetime)
      ensures old(dungeonManager.Staffed()) ==> dungeonManager.Staffed()
    {
      hide Invariant, DungeonManager.Valid, DungeonManager.View, DungeonUdpManager.Valid, DungeonUdpManager.View;
      hide Swept, Reports, After, SweepSteps, DungeonManager.Equipped, DungeonManager.Staffed;
      hide DungeonManager.Characters, DungeonManager.NothingNew, DungeonUdpManager.NothingNew;
      hide SweptExactly, ReportsExactly;
      ExactSweep(View(), now, grace, maxDungeonLifetime);
      sweep := SweepBoth(View(), now, grace, maxDungeonLifetime);
      ExactReports(old(View()), now, grace, maxDungeonLifetime, sweep);
    }

    /** The manager first, the UDP side after it. */
    method SweepBoth(ghost w: World, now: Time, grace: Time, lifetime: Time) returns (sweep: AbandonmentSweep)
      requires Invariant(w) && grace > 0 && lifetime > 0 && w.drops == {} && w.releases == {}
      requires dungeonManager.Valid() && udpManager.Valid()
      requires dungeonManager.View() == w.registry && udpManager.View() == w.udp
      modifies dungeonManager`dungeons, dungeonManager`partyDungeons
      modifies dungeonManager.dungeons.Values`participants, dungeonManager.dungeons.Values`players
      modifies dungeonManager.dungeons.Values`participantPlayerIds, dungeonManager.dungeons.Values`playerSessions
      modifies dungeonManager.dungeons.Values`disconnectedSince
      modifies udpManager`sessions, udpManager.sessions.Values
      ensures dungeonManager.Valid() && udpManager.Valid() && dungeonManager.NothingNew() && udpManager.NothingNew()
      ensures dungeonManager.Characters() <= old(dungeonManager.Characters())
      ensures dungeonManager.View() == Swept(w.registry, w.registry.dungeons.Keys, now, grace, lifetime)
      ensures Reports(w.registry, now, grace, lifetime, sweep)
      ensures
        var w' := w.(registry := dungeonManager.View(), udp := udpManager.View());
        After(w, SweepSteps(now, grace, lifetime, sweep)) == Some(w') && Invariant(w')
      ensures old(dungeonManager.Staffed()) ==> dungeonManager.Staffed()
    {
      hide Invariant, DungeonManager.Valid, DungeonManager.View, DungeonUdpManager.Valid, DungeonUdpManager.View;
      hide Swept, Reports, After, SweepSteps, DungeonManager.Equipped, DungeonManager.Staffed;
      hide DungeonManager.Characters;
      sweep := SweepManager(now, grace, lifetime);
      SweepSessions(w, now, grace, lifetime, sweep);
    }

    /** The UDP side's part. */
    method SweepSessions(ghost w: World, ghost now: Time, ghost grace: Time, ghost lifetime: Time, sweep: AbandonmentSweep)
      requires Invariant(w) && grace > 0 && lifetime > 0 && w.drops == {} && w.releases == {}
      requires Reports(w.registry, now, grace, lifetime, sweep) && udpManager.Valid() && udpManager.View() == w.udp
      requires dungeonManager.Valid()
      modifies udpManager`sessions, udpManager.sessions.Values
      ensures udpManager.Valid() && udpManager.NothingNew()
      ensures dungeonManager.Valid() && dungeonManager.View() == old(dungeonManager.View())
      ensures dungeonManager.Characters() == old(dungeonManager.Characters())
      ensures old(dungeonManager.Staffed()) ==> dungeonManager.Staffed()
      ensures
        var w' := w.(registry := Swept(w.registry, w.registry.dungeons.Keys, now, grace, lifetime), udp := udpManager.View());
        After(w, SweepSteps(now, grace, lifetime, sweep)) == Some(w') && Invariant(w')
    {
      hide Invariant, DungeonUdpManager.Valid, DungeonUdpManager.View, Swept, Reports, After, Elements, DropSteps;
      hide ReleaseSteps, DungeonManager.Staffed, DungeonManager.Valid, DungeonManager.View;
      ghost var e := Sweep(now, grace, lifetime);
      SweepBegins(w, now, grace, lifetime, sweep);
      DropTokens(w, [e], sweep.removedParticipants);
      ReleaseSessions(w, [e] + DropSteps(sweep.removedParticipants), sweep.releasedDungeons);
    }

    /** The manager's part. */
    method SweepManager(now: Time, grace: Time, lifetime: Time) returns (sweep: AbandonmentSweep)
      requires dungeonManager.Valid() && udpManager.Valid() && grace > 0 && lifetime > 0
      modifies dungeonManager`dungeons, dungeonManager`partyDungeons
      modifies dungeonManager.dungeons.Values`participants, dungeonManager.dungeons.Values`players
      modifies dungeonManager.dungeons.Values`participantPlayerIds, dungeonManager.dungeons.Values`playerSessions
      modifies dungeonManager.dungeons.Values`disconnectedSince
      ensures dungeonManager.Valid() && udpManager.Valid() && udpManager.View() == old(udpManager.View())
      ensures dungeonManager.NothingNew() && udpManager.NothingNew()
      ensures dungeonManager.Characters() <= old(dungeonManager.Characters())
      ensures
        var m := old(dungeonManager.View());
        && dungeonManager.View() == Swept(m, m.dungeons.Keys, now, grace, lifetime)
        && Reports(m, now, grace, lifetime, sweep)
      ensures old(dungeonManager.Staffed()) ==> dungeonManager.Staffed()
    {
      hide DungeonManager.Valid, DungeonManager.View, DungeonUdpManager.Valid, DungeonUdpManager.View;
      hide DungeonManager.Equipped, DungeonManager.Staffed;
      hide Swept, RemovedSeats, ReleasedIds, ListsOnce;
      sweep := dungeonManager.SweepAbandonedParticipants(now, grace, lifetime);
    }

    method DropTokens(ghost w: World, ghost before: seq<Event>, removed: seq<(DungeonId, SessionId)>)
      requires udpManager.Valid() && After(w, before).Some? && Invariant(After(w, before).value)
      requires After(w, before).value.udp == udpManager.View()
      requires After(w, before).value.drops == Elements(removed) && Distinct(removed)
      modifies udpManager.sessions.Values
      ensures udpManager.Valid() && (old(dungeonManager.Staffed()) ==> dungeonManager.Staffed())
      ensures
        var end := After(w, before).value.(udp := udpManager.View(), drops := {});
        After(w, before + DropSteps(removed)) == Some(end) && Invariant(end)
    {
      hide DungeonManager.Staffed, Invariant, DungeonUdpManager.Valid, DungeonUdpManager.View, After, Elements;
      hide DropSteps, Untokened;
      NoSteps(before);
      NoElements(removed);
      ghost var start := After(w, before).value;
      var i := 0;
      while i < |removed|
        invariant 0 <= i <= |removed| && udpManager.Valid()
        invariant After(w, before + DropSteps(removed[..i])) ==
          Some(start.(udp := udpManager.View(), drops := Elements(removed[i..])))
        invariant Invariant(start.(udp := udpManager.View(), drops := Elements(removed[i..])))
      {
        ghost var now := start.(udp := udpManager.View(), drops := Elements(removed[i..]));
        ghost var e := DropUdp(removed[i].0, removed[i].1);
        NextElement(removed, i);
        NextDropStep(removed, i);
        StepKeeps(now, e);
        AfterOneMore(w, before + DropSteps(removed[..i]), e);
        assert before + DropSteps(removed[..i]) + [e] == before + DropSteps(removed[..i + 1]);
        var known := udpManager.RemoveParticipant(removed[i].0, removed[i].1);
        i := i + 1;
      }
      assert removed[..i] == removed;
      dungeonManager.LeftStaffed();
    }

    static lemma NoSteps(before: seq<Event>)
      ensures before + DropSteps([]) == before && before + ReleaseSteps([]) == before
    {
    }

    static lemma NoElements<T>(list: seq<T>)
      ensures list[..0] == [] && list[0..] == list && list[|list|..] == [] && Elements<T>([]) == {}
    {
    }

    method ReleaseSessions(ghost w: World, ghost before: seq<Event>, released: seq<DungeonId>)
      requires udpManager.Valid() && After(w, before).Some? && Invariant(After(w, before).value)
      requires After(w, before).value.udp == udpManager.View()
      requires After(w, before).value.releases == Elements(released) && Distinct(released)
      modifies udpManager`sessions
      ensures udpManager.Valid() && udpManager.NothingNew()
      ensures old(dungeonManager.Staffed()) ==> dungeonManager.Staffed()
      ensures
        var end := After(w, before).value.(udp := udpManager.View(), releases := {});
        After(w, before + ReleaseSteps(released)) == Some(end) && Invariant(end)
    {
      hide DungeonManager.Staffed, Invariant, DungeonUdpManager.Valid, DungeonUdpManager.View, After, Elements;
      hide ReleaseSteps;
      NoSteps(before);
      NoElements(released);
      ghost var start := After(w, before).value;
      var i := 0;
      while i < |released|
        invariant 0 <= i <= |released| && udpManager.Valid() && udpManager.NothingNew()
        invariant After(w, before + ReleaseSteps(released[..i])) ==
          Some(start.(udp := udpManager.View(), releases := Elements(released[i..])))
        invariant Invariant(start.(udp := udpManager.View(), releases := Elements(released[i..])))
      {
        ghost var now := start.(udp := udpManager.View(), releases := Elements(released[i..]));
        ghost var e := ReleaseUdp(released[i]);
        NextElement(released, i);
        NextReleaseStep(released, i);
        StepKeeps(now, e);
        AfterOneMore(w, before + ReleaseSteps(released[..i]), e);
        assert before + ReleaseSteps(released[..i]) + [e] == before + ReleaseSteps(released[..i + 1]);
        var known := udpManager.Release(released[i]);
        i := i + 1;
      }
      assert released[..i] == released;
      dungeonManager.LeftStaffed();
    }
  }
}
