/** HandleEnterDungeonRequest of src/PacketDispatcher.cpp: a party leader's request to enter a
    dungeon creates it, allocates its UDP session, looks up the leader's token, and takes the dungeon
    back when that fails. Between any two of its locked sections other threads' calls may get in. */
module PacketDispatchers {
  import opened Common
  import opened PartyManagers
  import opened SeatTable
  import opened DungeonInstances
  import opened DungeonRegistry
  import opened DungeonManagers
  import opened UdpSession
  import opened DungeonUdpManagers
  import opened LifecycleRuns
  import opened EnterRequests

  /** `RequestFailed` stands for the exception, after which the session is closed. */
  datatype EnterDungeonResult =
    | Entered
    | NotInParty
    | NotPartyLeader
    | TemplateNotFound
    | AlreadyInDungeon
    | UdpAllocationFailed
    | RequestFailed

  /** The answer to a request that nobody disturbs, from what the managers hold before it. */
  ghost function EnterResult(
    parties: Parties, s: SessionId, m: Registry, knownTemplate: bool, udpStopping: bool, socketReady: bool)
    : EnterDungeonResult
  {
    if Leadership(parties, s) != Entered then Leadership(parties, s)
    else CreationResult(m, parties.joined[s], knownTemplate, udpStopping, socketReady)
  }

  ghost function CreationResult(
    m: Registry, party: PartyId, knownTemplate: bool, udpStopping: bool, socketReady: bool): EnterDungeonResult
  {
    if Refusal(m, party, knownTemplate).Some? then Refusal(m, party, knownTemplate).value
    else if udpStopping || !socketReady then UdpAllocationFailed
    else Entered
  }

  ghost function Leadership(parties: Parties, s: SessionId): EnterDungeonResult {
    if s !in parties.joined || parties.joined[s] !in parties.parties then NotInParty
    else if parties.parties[parties.joined[s]].leader != s then NotPartyLeader
    else Entered
  }

  /** Why no dungeon is created, if none is. */
  ghost function Refusal(m: Registry, party: PartyId, knownTemplate: bool): Option<EnterDungeonResult> {
    if m.stopping then Some(UdpAllocationFailed)
    else if !knownTemplate then Some(TemplateNotFound)
    else if party in m.partyDungeons then Some(AlreadyInDungeon)
    else None
  }

  function Answer(creation: CreateDungeonResult): Option<EnterDungeonResult> {
    match creation
    case NoSuchParty => Some(NotInParty)
    case NoSuchTemplate => Some(TemplateNotFound)
    case PartyAlreadyInDungeon => Some(AlreadyInDungeon)
    case ServerStopping => Some(UdpAllocationFailed)
    case Created(_) => None
  }

  /** A session leads the party that it has joined. */
  ghost predicate LeadsParty(v: Parties, s: SessionId) {
    s in v.joined && v.joined[s] in v.parties && v.parties[v.joined[s]].leader == s
  }

  /** The party side's verdict by its two tables. */
  lemma LeadershipMeans(v: Parties, s: SessionId)
    requires PartiesFit(v)
    ensures Leadership(v, s).NotInParty? <==> s !in v.joined
    ensures Leadership(v, s).NotPartyLeader? <==> s in v.joined && v.parties[v.joined[s]].leader != s
    ensures Leadership(v, s).Entered? <==> LeadsParty(v, s)
    ensures LeadsParty(v, s) <==> s in v.joined && v.parties[v.joined[s]].leader == s
  {
  }

  /** The dungeon manager's verdict by its tables, in the order of the checks. */
  lemma RefusalMeans(m: Registry, party: PartyId, knownTemplate: bool)
    ensures Refusal(m, party, knownTemplate).None? <==> !m.stopping && knownTemplate && party !in m.partyDungeons
    ensures Refusal(m, party, knownTemplate) == Some(UdpAllocationFailed) <==> m.stopping
    ensures Refusal(m, party, knownTemplate) == Some(TemplateNotFound) <==> !m.stopping && !knownTemplate
    ensures Refusal(m, party, knownTemplate) == Some(AlreadyInDungeon) <==>
      !m.stopping && knownTemplate && party in m.partyDungeons
  {
  }

  /** Who leads a party goes on leading it. */
  ghost predicate SameLead(v: Parties, v': Parties, s: SessionId) {
    Leadership(v, s).Entered? ==> Leadership(v', s).Entered? && v'.joined[s] == v.joined[s]
  }

  ghost function Actor(op: PartyOp): SessionId {
    match op
    case Create(leader) => leader
    case Join(_, s) => s
    case Leave(s) => s
  }

  /** Only a session itself leaves its party; nothing that others do ends its lead. */
  lemma OthersKeepLead(v: Parties, op: PartyOp, s: SessionId)
    requires PartiesFit(v) && s != Actor(op)
    ensures SameLead(v, Step(v, op), s)
  {
    hide GoodParty;
    if op.Leave? && op.s in v.joined && Leadership(v, s).Entered? && v.joined[op.s] == v.joined[s] {
      LeaderRemains(v, op.s, s);
    }
  }

  lemma LeaderRemains(v: Parties, gone: SessionId, s: SessionId)
    requires PartiesFit(v) && gone != s && gone in v.joined && s in v.joined && v.joined[gone] == v.joined[s]
    ensures s in Excluding(v.parties[v.joined[s]].members, {gone})
  {
    var id := v.joined[s];
    assert gone in v.parties[id].members && s in v.parties[id].members;
    RestOfParty(v.parties[id], gone);
  }

  /** Created, refused a UDP session, and cancelled, with nobody in between: only the id is used up. */
  lemma TakenBackRun(w: World, e: Event)
    requires Invariant(w) && e.Open? && Enabled(w, e)
    ensures
      var m := Closed(Opened(w.registry, e.party, e.now, e.roster), w.registry.next);
      && m.dungeons == w.registry.dungeons && m.partyDungeons == w.registry.partyDungeons
      && After(w, RefusedSteps(w.registry.next, e)) == Some(w.(registry := m)) && Invariant(w.(registry := m))
  {
    hide Invariant, After, Enabled;
    FreeNumber(w);
    OpenIs(w, e);
    RefusedRun(w, e);
    RefusedRunKeeps(w, e);
    ClosedAgain(w.registry, e);
  }

  lemma ClosedAgain(m: Registry, e: Event)
    requires m.next !in m.dungeons && e.Open? && Creatable(m, e.party)
    ensures
      var m' := Closed(Opened(m, e.party, e.now, e.roster), m.next);
      m'.dungeons == m.dungeons && m'.partyDungeons == m.partyDungeons
  {
  }

  class PacketDispatcher {
    const sessionId: SessionId
    const partyManager: PartyManager
    const dungeonManager: DungeonManager
    const udpManager: DungeonUdpManager

    /** Where all calls together stood when the request began and stand now, which of the sections since
        are the request's own, and which runs of others came before, between and after those. */
    ghost var start: World
    ghost var world: World
    ghost var own: seq<Event>
    ghost var others: seq<seq<Event>>

    constructor (
      sessionId: SessionId, partyManager: PartyManager, dungeonManager: DungeonManager, udpManager: DungeonUdpManager)
      ensures this.sessionId == sessionId && this.partyManager == partyManager
      ensures this.dungeonManager == dungeonManager && this.udpManager == udpManager
    {
      this.sessionId, this.partyManager := sessionId, partyManager;
      this.dungeonManager, this.udpManager := dungeonManager, udpManager;
      start, world, own, others := START, START, [], [[]];
    }

    /** The two managers hold what the world says. */
    ghost predicate Stands()
      reads this`world, dungeonManager, dungeonManager.dungeons.Values, udpManager, udpManager.sessions.Values
    {
      && dungeonManager.Valid() && udpManager.Valid() && Orderly(world)
      && dungeonManager.View() == world.registry && udpManager.View() == world.udp
    }

    lemma Parts()
      requires Stands()
      ensures dungeonManager.Valid() && udpManager.Valid() && Orderly(world)
      ensures dungeonManager.View() == world.registry && udpManager.View() == world.udp
    {
      hide DungeonManager.Valid, DungeonManager.View, DungeonUdpManager.Valid, DungeonUdpManager.View, Orderly;
    }

    ghost predicate Traced()
      reads this
    {
      |others| == |own| + 1 && After(start, Weave(own, others)) == Some(world)
    }

    /** A section of the request has been done in the managers. */
    ghost method Act(e: Event)
      requires Traced() && Orderly(world) && Enabled(world, e) && dungeonManager.Valid() && udpManager.Valid()
      requires dungeonManager.View() == Next(world, e).registry && udpManager.View() == Next(world, e).udp
      modifies this`world, this`own, this`others
      ensures Stands() && Traced() && world == Next(old(world), e) && own == old(own) + [e]
      ensures others == old(others) + [[]] && (Undisturbed(others) <==> Undisturbed(old(others)))
      ensures others[0] == old(others)[0]
    {
      hide Enabled, Next, After, Weave, Orderly, Undisturbed;
      hide DungeonManager.Valid, DungeonManager.View, DungeonUdpManager.Valid, DungeonUdpManager.View;
      OrderlyKeeps(world, e);
      UndisturbedMore(others);
      WeaveSection(own, others, e);
      AfterOneMore(start, Weave(own, others), e);
      world, own, others := Next(world, e), own + [e], others + [[]];
    }

    /** Here the request holds no lock. Its callers know nothing of what happens meanwhile but this
        contract, which every run of other calls meets: they keep both managers in order, leave the
        request's own steps to it, and leave the session in its party, where it leads. Whoever holds
        a dungeon still sees who is in it. If `alone`, nothing happens. */
    method OtherCalls(ghost alone: bool, ghost mine: Option<DungeonId>, ghost releasing: bool)
      returns (ghost events: seq<Event>)
      requires Stands() && Traced() && partyManager.Valid()
      modifies this`world, this`others, partyManager, dungeonManager, dungeonManager.dungeons.Values
      modifies udpManager, udpManager.sessions.Values
      ensures Stands() && Traced() && partyManager.Valid()
      ensures After(old(world), events) == Some(world) && EveryForeign(events, sessionId, mine, releasing)
      ensures others == old(others)[|own| := old(others)[|own|] + events]
      ensures SameLead(old(partyManager.View()), partyManager.View(), sessionId)
      ensures fresh(dungeonManager.dungeons.Values - old(dungeonManager.dungeons).Values)
      ensures fresh(udpManager.sessions.Values - old(udpManager.sessions).Values)
      ensures forall id | id in old(dungeonManager.dungeons) && id in world.entering ::
        old(dungeonManager.dungeons)[id].participants == ParticipantsNow(world, id)
      ensures alone ==> events == [] && unchanged(partyManager) && udpManager.stopping == old(udpManager.stopping)
    {
      hide DungeonManager.Valid, DungeonUdpManager.Valid, DungeonUdpManager.View, Orderly, PartiesFit, Weave;
      events := [];
      assert others[|own|] + events == others[|own|];
    }

    /** What the request itself can rely on while others are at work. */
    method LetOthersIn(ghost alone: bool, ghost mine: Option<DungeonId>, ghost releasing: bool)
      requires Stands() && Traced() && partyManager.Valid()
      requires mine.Some? ==> mine.value < world.registry.next
      modifies this`world, this`others, partyManager, dungeonManager, dungeonManager.dungeons.Values
      modifies udpManager, udpManager.sessions.Values
      ensures Stands() && Traced() && partyManager.Valid()
      ensures fresh(dungeonManager.dungeons.Values - old(dungeonManager.dungeons).Values)
      ensures fresh(udpManager.sessions.Values - old(udpManager.sessions).Values)
      ensures SameLead(old(partyManager.View()), partyManager.View(), sessionId)
      ensures mine.None? && !releasing && MayAsk(old(world), sessionId) ==> MayAsk(world, sessionId)
      ensures mine.Some? ==> SameRequest(old(world), world, mine.value, releasing) && mine.value < world.registry.next
      ensures mine.Some? && mine.value !in old(world).registry.dungeons ==> mine.value !in world.registry.dungeons
      ensures forall id | id in old(dungeonManager.dungeons) && id in world.entering ::
        old(dungeonManager.dungeons)[id].participants == ParticipantsNow(world, id)
      ensures own != [] ==> others[0] == old(others)[0]
      ensures alone ==>
        && world == old(world) && others == old(others) && unchanged(partyManager)
        && udpManager.stopping == old(udpManager.stopping)
    {
      hide DungeonManager.Valid, DungeonManager.View, DungeonUdpManager.Valid, DungeonUdpManager.View, Orderly;
      hide PartiesFit, Weave, MayAsk, SameRequest, EveryForeign, SameLead, After;
      ghost var before := world;
      ghost var events := OtherCalls(alone, mine, releasing);
      if mine.Some? {
        RequestStaysOver(before, events, sessionId, mine.value, releasing);
        if mine.value !in before.registry.dungeons {
          IdsAreNeverReused(before, events, mine.value);
        }
      } else if !releasing && MayAsk(before, sessionId) {
        AskerStaysOver(before, events, sessionId);
      }
      if alone {
        NothingHappens(before);
        assert old(others)[|own|] + [] == old(others)[|own|];
      }
    }

    static lemma NothingHappens(w: World)
      ensures After(w, []) == Some(w)
    {
    }

    /** The first section: the dungeon is created, with the members the party has by now. */
    method Create(partyId: PartyId, templateId: DungeonTemplateId, now: Time) returns (creation: CreateDungeonResult)
      requires Stands() && Traced() && partyManager.Valid() && dungeonManager.partyManager == partyManager
      requires MayAsk(world, sessionId) && own == []
      requires partyId in partyManager.parties && sessionId in partyManager.parties[partyId].members
      modifies this`world, this`own, this`others
      modifies dungeonManager`nextDungeonId, dungeonManager`dungeons, dungeonManager`partyDungeons
      ensures Stands() && Traced()
      ensures others != [] && others[0] == old(others)[0] && (Undisturbed(others) <==> Undisturbed(old(others)))
      ensures fresh(dungeonManager.dungeons.Values - old(dungeonManager.dungeons).Values)
      ensures Answer(creation) == Refusal(old(world).registry, partyId, templateId in dungeonManager.dungeonCatalog)
      ensures !creation.Created? ==> world == old(world) && own == [] && others == old(others)
      ensures creation.Created? ==>
        && creation.dungeonId == old(world).registry.next && creation.dungeonId in dungeonManager.dungeons
        && |own| == 1 && Asks(own[0], partyId, now)
        && Enabled(old(world), own[0]) && world == Next(old(world), own[0])
        && creation.dungeonId in world.registry.dungeons && creation.dungeonId < world.registry.next
        && creation.dungeonId in world.entering
        && world.entering[creation.dungeonId] == Entering(sessionId, None, false, [])
    {
      hide DungeonManager.Valid, DungeonManager.View, DungeonUdpManager.Valid, DungeonUdpManager.View, Orderly, Opened;
      hide PartiesFit, Weave, MayAsk, FreshRoster, After, Enabled, Next, DungeonManager.Equipped;
      hide DungeonManager.Staffed;
      ViewFields();
      creation := dungeonManager.CreateDungeon(partyId, templateId, now);
      if creation.Created? {
        ghost var e := Open(
          sessionId, partyId, partyManager.parties[partyId].members, now,
          dungeonManager.dungeons[creation.dungeonId].Seats());
        MayOpen(world, e);
        OpenIs(world, e);
        OpenedNow(world.registry, e);
        Act(e);
      }
    }

    lemma ViewFields()
      requires Stands()
      ensures world.registry.partyDungeons == dungeonManager.partyDungeons
      ensures world.registry.stopping == dungeonManager.stopping && world.registry.next == dungeonManager.nextDungeonId
    {
    }

    ghost predicate Asks(e: Event, party: PartyId, now: Time) {
      e.Open? && e.leader == sessionId && e.party == party && e.now == now
    }

    static lemma OpenedNow(m: Registry, e: Event)
      requires e.Open?
      ensures
        var m' := Opened(m, e.party, e.now, e.roster);
        m.next in m'.dungeons && m.next < m'.next
    {
    }

    static lemma MayOpen(w: World, e: Event)
      requires e.Open? && MayAsk(w, e.leader) && e.leader in e.members
      requires Creatable(w.registry, e.party) && FreshRoster(w.registry, e.members, e.roster)
      ensures Enabled(w, e)
    {
    }

    /** Participants(), on the object that the request holds. */
    method List(dungeon: DungeonInstance, id: DungeonId) returns (participants: seq<SessionId>)
      requires Stands() && Traced() && id in world.entering && world.entering[id].leader == sessionId
      requires world.entering[id].listed.None? && !world.entering[id].refused
      requires dungeon.participants == ParticipantsNow(world, id)
      modifies this`world, this`own, this`others
      ensures Stands() && Traced() && own == old(own) + [ListParticipants(id)]
      ensures others != [] && others[0] == old(others)[0] && (Undisturbed(others) <==> Undisturbed(old(others)))
      ensures world == old(world).(entering := world.entering) && id in world.entering
      ensures world.entering[id].leader == sessionId && world.entering[id].listed == Some(participants)
      ensures !world.entering[id].refused && participants == ParticipantsNow(old(world), id)
    {
      hide DungeonManager.Valid, DungeonManager.View, DungeonUdpManager.Valid, DungeonUdpManager.View, Orderly;
      hide Weave, After, Traced;
      participants := dungeon.participants;
      Act(ListParticipants(id));
    }

    /** The UDP manager's section; who is refused goes on to give up. */
    method Allocate(id: DungeonId, participants: seq<SessionId>, socket: Option<UInt16>)
      returns (port: Option<UInt16>, ghost e: Event)
      requires Stands() && Traced() && id in world.entering && world.entering[id].leader == sessionId
      requires world.entering[id].listed == Some(participants) && !world.entering[id].refused
      modifies this`world, this`own, this`others, udpManager`sessions
      ensures Stands() && Traced()
      ensures others != [] && others[0] == old(others)[0] && (Undisturbed(others) <==> Undisturbed(old(others)))
      ensures fresh(udpManager.sessions.Values - old(udpManager.sessions).Values)
      ensures world.registry == old(world).registry
      ensures port.Some? <==> AllocationAccepted(old(world).udp, udpManager.stopping, id, participants, socket.Some?)
      ensures port.Some? ==> port == socket && !udpManager.stopping
      ensures e.Allocate? && e.id == id && own == old(own) + [e]
      ensures e.ready == (!udpManager.stopping && socket.Some?) && (port.None? ==> e.tokens == map[])
      ensures port.Some? ==> id in world.finding && world.finding[id] == Finding(sessionId, false)
      ensures port.None? ==> Enabled(world, GiveUp(id))
    {
      hide *;
      Parts();
      ReadyIfAccepted(world.udp, udpManager.stopping, id, participants, socket.Some?);
      port := udpManager.Allocate(id, participants, socket);
      ghost var tokens := if port.Some? then udpManager.View()[id].tokens else map[];
      e := Event.Allocate(id, tokens, !udpManager.stopping && socket.Some?);
      AllocationIs(world, e, sessionId, participants, udpManager.stopping, socket.Some?);
      Act(e);
    }

    static lemma ReadyIfAccepted(
      udp: map<DungeonId, Udp>, stopping: bool, id: DungeonId, participants: seq<SessionId>, ready: bool)
      ensures AllocationAccepted(udp, stopping, id, participants, ready) ==> ready && !stopping
    {
    }

    static lemma AllocationIs(
      w: World, e: Event, s: SessionId, participants: seq<SessionId>, stopping: bool, socketReady: bool)
      requires e.Allocate? && e.id in w.entering && w.entering[e.id].leader == s
      requires e.ready == (!stopping && socketReady)
      requires w.entering[e.id].listed == Some(participants) && !w.entering[e.id].refused
      requires AllocationAccepted(w.udp, stopping, e.id, participants, socketReady) ==>
        FreshTokens(e.tokens, participants)
      ensures Enabled(w, e)
      ensures
        var granted := AllocationAccepted(w.udp, stopping, e.id, participants, socketReady);
        && Next(w, e).registry == w.registry
        && Next(w, e).udp == (if granted then w.udp[e.id := NewUdp(e.tokens)] else w.udp)
        && (granted ==> e.id in Next(w, e).finding && Next(w, e).finding[e.id] == Finding(s, false))
        && (!granted ==> Enabled(Next(w, e), GiveUp(e.id)))
    {
      hide FreshTokens, NewUdp;
    }

    /** The leader's token is there unless the dungeon has been released. */
    method FindToken(id: DungeonId) returns (token: Option<Token>)
      requires Stands() && Traced() && id in world.finding && world.finding[id] == Finding(sessionId, false)
      modifies this`world, this`own, this`others
      ensures Stands() && Traced() && own == old(own) + [Event.FindToken(id)]
      ensures others != [] && others[0] == old(others)[0] && (Undisturbed(others) <==> Undisturbed(old(others)))
      ensures world.registry == old(world).registry && world.udp == old(world).udp
      ensures token == if id in world.udp then Lookup(world.udp[id].tokens, sessionId) else None
      ensures token.None? ==> id !in world.registry.dungeons && Enabled(world, GiveUp(id))
    {
      hide *;
      Parts();
      token := udpManager.FindToken(id, sessionId);
      LookupStep(world, id, sessionId);
      Act(Event.FindToken(id));
    }

    static lemma LookupStep(w: World, id: DungeonId, s: SessionId)
      requires Orderly(w) && id in w.finding && w.finding[id] == Finding(s, false)
      ensures Enabled(w, Event.FindToken(id))
      ensures
        var w' := Next(w, Event.FindToken(id));
        && w'.registry == w.registry && w'.udp == w.udp
        && (!(id in w.udp && Lookup(w.udp[id].tokens, s).Some?) ==>
              id !in w.registry.dungeons && Enabled(w', GiveUp(id)))
    {
      hide RegistryFits, LeadersFit, WaitsFit;
      LeaderOf(w, id);
    }

    /** CancelWaitingDungeon: two sections again, unless somebody else has released the dungeon. */
    method TakeBack(ghost alone: bool, id: DungeonId) returns (cancelled: bool)
      requires Stands() && Traced() && partyManager.Valid() && Enabled(world, GiveUp(id)) && own != []
      modifies this`world, this`own, this`others, partyManager, dungeonManager, dungeonManager.dungeons.Values
      modifies udpManager, udpManager.sessions.Values
      ensures Stands() && Traced() && partyManager.Valid()
      ensures cancelled <==> id in old(world).registry.dungeons
      ensures own == old(own) + if cancelled then [GiveUp(id), ReleaseUdp(id)] else [GiveUp(id)]
      ensures id !in world.registry.dungeons && (cancelled ==> id !in world.udp)
      ensures |others| > 0 && others[0] == old(others)[0]
      ensures alone && Undisturbed(old(others)) ==> Undisturbed(others)
    {
      hide *;
      Parts();
      cancelled := dungeonManager.CancelDungeon(id);
      GivingUpIs(world, id);
      Act(GiveUp(id));
      if cancelled {
        ReleaseTaken(alone, id);
      }
    }

    method ReleaseTaken(ghost alone: bool, id: DungeonId)
      requires Stands() && Traced() && partyManager.Valid() && own != []
      requires id in world.releases && id < world.registry.next && id !in world.registry.dungeons
      modifies this`world, this`own, this`others, partyManager, dungeonManager, dungeonManager.dungeons.Values
      modifies udpManager, udpManager.sessions.Values
      ensures Stands() && Traced() && partyManager.Valid() && own == old(own) + [ReleaseUdp(id)]
      ensures id !in world.registry.dungeons && id !in world.udp
      ensures |others| > 0 && others[0] == old(others)[0]
      ensures alone && Undisturbed(old(others)) ==> Undisturbed(others)
    {
      hide *;
      Parts();
      ghost var gone := world;
      LetOthersIn(alone, Some(id), true);
      StillReleased(gone, world, id);
      Parts();
      var released := udpManager.Release(id);
      Act(ReleaseUdp(id));
    }

    static lemma GivingUpIs(w: World, id: DungeonId)
      requires Orderly(w) && Enabled(w, GiveUp(id))
      ensures Cancellable(w.registry, id) <==> id in w.registry.dungeons
      ensures
        var w' := Next(w, GiveUp(id));
        && w'.registry == (if id in w.registry.dungeons then Closed(w.registry, id) else w.registry) && w'.udp == w.udp
        && id !in w'.registry.dungeons && id < w'.registry.next && (id in w.registry.dungeons ==> id in w'.releases)
    {
      hide Sound, ReconnectsFit, DropsFit, SessionsFit, LeadersFit, WaitsFit;
      GaveUpOn(w, GiveUp(id));
    }

    static lemma StillReleased(w: World, w': World, id: DungeonId)
      requires id in w.releases && SameRequest(w, w', id, true)
      ensures Enabled(w', ReleaseUdp(id))
      ensures Next(w', ReleaseUdp(id)).registry == w'.registry && Next(w', ReleaseUdp(id)).udp == w'.udp - {id}
    {
    }

    /** What a request has done about dungeon `id`, and how it has left the world, by its answer. */
    static ghost predicate Ran(result: EnterDungeonResult, id: DungeonId, own: seq<Event>, w: World) {
      && |own| >= 4 && own[1] == ListParticipants(id) && own[2].Allocate? && own[2].id == id
      && match result
         case Entered => own[2].ready && own[3..] == [Event.FindToken(id)]
         case UdpAllocationFailed =>
           && own[2].tokens == map[] && own[3..] == [GiveUp(id), ReleaseUdp(id)]
           && id !in w.registry.dungeons && id !in w.udp
         case RequestFailed =>
           && (own[3..] == [GiveUp(id)] || own[3..] == [Event.FindToken(id), GiveUp(id)])
           && id !in w.registry.dungeons
         case _ => false
    }

    /** The second section, some time after the first. */
    method ListLater(ghost alone: bool, id: DungeonId) returns (participants: seq<SessionId>)
      requires Stands() && Traced() && partyManager.Valid() && own != []
      requires id in dungeonManager.dungeons && id < world.registry.next
      requires id in world.entering && world.entering[id] == Entering(sessionId, None, false, [])
      modifies this`world, this`own, this`others, partyManager, dungeonManager, dungeonManager.dungeons.Values
      modifies udpManager, udpManager.sessions.Values
      ensures Stands() && Traced() && partyManager.Valid()
      ensures fresh(dungeonManager.dungeons.Values - old(dungeonManager.dungeons).Values)
      ensures fresh(udpManager.sessions.Values - old(udpManager.sessions).Values)
      ensures Waits(id, participants) && own == old(own) + [ListParticipants(id)] && others[0] == old(others)[0]
      ensures alone && Undisturbed(old(others)) ==> Undisturbed(others)
      ensures alone ==>
        && world.registry == old(world).registry && world.udp == old(world).udp
        && udpManager.stopping == old(udpManager.stopping)
        && (id in world.registry.dungeons ==> participants == world.registry.dungeons[id].roster.order)
    {
      hide DungeonManager.Valid, DungeonManager.View, DungeonUdpManager.Valid, DungeonUdpManager.View, Orderly;
      hide Weave, After, PartiesFit, Undisturbed, SameLead, MayAsk;
      hide DungeonManager.Equipped, DungeonManager.Staffed;
      var dungeon := dungeonManager.dungeons[id];
      LetOthersIn(alone, Some(id), false);
      participants := List(dungeon, id);
    }

    /** The request has read its participants and not been refused. */
    ghost predicate Waits(id: DungeonId, participants: seq<SessionId>)
      reads this`world
    {
      && id < world.registry.next && id in world.entering && world.entering[id].leader == sessionId
      && world.entering[id].listed == Some(participants) && !world.entering[id].refused
    }

    /** The third. */
    method AllocateLater(ghost alone: bool, id: DungeonId, participants: seq<SessionId>, socket: Option<UInt16>)
      returns (port: Option<UInt16>, ghost e: Event)
      requires Stands() && Traced() && partyManager.Valid() && own != [] && Waits(id, participants)
      modifies this`world, this`own, this`others, partyManager, dungeonManager, dungeonManager.dungeons.Values
      modifies udpManager, udpManager.sessions.Values
      ensures Stands() && Traced() && partyManager.Valid() && id < world.registry.next
      ensures fresh(dungeonManager.dungeons.Values - old(dungeonManager.dungeons).Values)
      ensures fresh(udpManager.sessions.Values - old(udpManager.sessions).Values)
      ensures e.Allocate? && e.id == id && own == old(own) + [e] && others[0] == old(others)[0]
      ensures port.Some? ==>
        port == socket && e.ready && id in world.finding && world.finding[id] == Finding(sessionId, false)
      ensures port.None? ==> e.tokens == map[] && Enabled(world, GiveUp(id))
      ensures alone && Undisturbed(old(others)) ==> Undisturbed(others)
      ensures alone ==>
        && world.registry == old(world).registry
        && e.ready == (!old(udpManager.stopping) && socket.Some?)
        && (port.Some? <==>
              AllocationAccepted(old(world).udp, old(udpManager.stopping), id, participants, socket.Some?))
    {
      hide DungeonManager.Valid, DungeonManager.View, DungeonUdpManager.Valid, DungeonUdpManager.View, Orderly;
      hide Weave, After, Enabled, PartiesFit, Undisturbed, AllocationAccepted, SameLead, MayAsk;
      LetOthersIn(alone, Some(id), false);
      port, e := Allocate(id, participants, socket);
    }

    /** The fourth, after an allocation that was granted. */
    method FindLater(ghost alone: bool, id: DungeonId) returns (token: Option<Token>)
      requires Stands() && Traced() && partyManager.Valid() && own != [] && id < world.registry.next
      requires id in world.finding && world.finding[id] == Finding(sessionId, false)
      modifies this`world, this`own, this`others, partyManager, dungeonManager, dungeonManager.dungeons.Values
      modifies udpManager, udpManager.sessions.Values
      ensures Stands() && Traced() && partyManager.Valid() && id < world.registry.next
      ensures fresh(dungeonManager.dungeons.Values - old(dungeonManager.dungeons).Values)
      ensures fresh(udpManager.sessions.Values - old(udpManager.sessions).Values)
      ensures own == old(own) + [Event.FindToken(id)] && others[0] == old(others)[0]
      ensures token == if id in world.udp then Lookup(world.udp[id].tokens, sessionId) else None
      ensures token.None? ==> id !in world.registry.dungeons && Enabled(world, GiveUp(id))
      ensures alone && Undisturbed(old(others)) ==> Undisturbed(others)
      ensures alone ==> world.registry == old(world).registry
    {
      hide DungeonManager.Valid, DungeonManager.View, DungeonUdpManager.Valid, DungeonUdpManager.View, Orderly;
      hide Weave, After, Enabled, PartiesFit, Undisturbed, SameLead, MayAsk;
      LetOthersIn(alone, Some(id), false);
      token := FindToken(id);
    }

    /** The last: what is left to do for a request that gives up. It fails if somebody else has
        released its dungeon in the meantime. */
    method TakeBackLater(ghost alone: bool, id: DungeonId) returns (cancelled: bool)
      requires Stands() && Traced() && partyManager.Valid() && own != [] && id < world.registry.next
      requires Enabled(world, GiveUp(id))
      modifies this`world, this`own, this`others, partyManager, dungeonManager, dungeonManager.dungeons.Values
      modifies udpManager, udpManager.sessions.Values
      ensures Stands() && Traced() && partyManager.Valid()
      ensures own == old(own) + if cancelled then [GiveUp(id), ReleaseUdp(id)] else [GiveUp(id)]
      ensures others != [] && others[0] == old(others)[0]
      ensures id !in world.registry.dungeons && (cancelled ==> id !in world.udp)
      ensures id !in old(world).registry.dungeons ==> !cancelled
      ensures alone && Undisturbed(old(others)) ==> Undisturbed(others)
      ensures alone ==> (cancelled <==> id in old(world).registry.dungeons)
    {
      hide *;
      ghost var before := world;
      LetOthersIn(alone, Some(id), false);
      StillGivesUp(before, world, id);
      cancelled := TakeBack(alone, id);
    }

    static lemma StillGivesUp(w: World, w': World, id: DungeonId)
      requires Enabled(w, GiveUp(id)) && SameRequest(w, w', id, false)
      ensures Enabled(w', GiveUp(id))
    {
    }

    /** The lookup of the token, if the allocation was granted, and the way back. */
    method Conclude(ghost alone: bool, id: DungeonId, port: Option<UInt16>)
      returns (token: Option<Token>, cancelled: bool)
      requires Stands() && Traced() && partyManager.Valid() && own != [] && id < world.registry.next
      requires port.Some? ==> id in world.finding && world.finding[id] == Finding(sessionId, false)
      requires port.None? ==> Enabled(world, GiveUp(id))
      modifies this`world, this`own, this`others, partyManager, dungeonManager, dungeonManager.dungeons.Values
      modifies udpManager, udpManager.sessions.Values
      ensures Stands() && Traced() && partyManager.Valid() && others != [] && others[0] == old(others)[0]
      ensures own == old(own) + ConcludingSteps(id, port.Some?, token.Some?, cancelled)
      ensures token.Some? ==> port.Some? && id in world.udp && Lookup(world.udp[id].tokens, sessionId) == token
      ensures cancelled ==> port.None? && id !in world.registry.dungeons && id !in world.udp
      ensures token.None? && !cancelled ==> id !in world.registry.dungeons
      ensures alone && Undisturbed(old(others)) ==> Undisturbed(others)
      ensures alone && id in old(world).registry.dungeons ==> token.Some? == port.Some? && cancelled == port.None?
    {
      hide DungeonManager.Valid, DungeonManager.View, DungeonUdpManager.Valid, DungeonUdpManager.View, Orderly, Stands;
      hide Weave, After, Enabled, Next, PartiesFit, Undisturbed, SameLead, MayAsk;
      token, cancelled := None, false;
      if port.Some? {
        token := FindLater(alone, id);
      }
      if token.None? {
        cancelled := TakeBackLater(alone, id);
      }
    }

    static ghost function ConcludingSteps(id: DungeonId, granted: bool, found: bool, cancelled: bool): seq<Event> {
      (if granted then [Event.FindToken(id)] else [])
      + if found then [] else if cancelled then [GiveUp(id), ReleaseUdp(id)] else [GiveUp(id)]
    }

    /** The second section and the third. */
    method Reserve(ghost alone: bool, id: DungeonId, socket: Option<UInt16>)
      returns (port: Option<UInt16>, ghost e: Event)
      requires Stands() && Traced() && partyManager.Valid() && |own| == 1 && id in dungeonManager.dungeons
      requires id in world.entering && world.entering[id] == Entering(sessionId, None, false, [])
      requires id < world.registry.next
      modifies this`world, this`own, this`others, partyManager, dungeonManager, dungeonManager.dungeons.Values
      modifies udpManager, udpManager.sessions.Values
      ensures Stands() && Traced() && partyManager.Valid() && id < world.registry.next
      ensures fresh(dungeonManager.dungeons.Values - old(dungeonManager.dungeons).Values)
      ensures fresh(udpManager.sessions.Values - old(udpManager.sessions).Values)
      ensures e.Allocate? && e.id == id && own == [old(own)[0], ListParticipants(id), e]
      ensures port.Some? ==>
        port == socket && e.ready && id in world.finding && world.finding[id] == Finding(sessionId, false)
      ensures port.None? ==> e.tokens == map[] && Enabled(world, GiveUp(id))
      ensures others[0] == old(others)[0] && (alone && Undisturbed(old(others)) ==> Undisturbed(others))
      ensures alone && id in old(world).registry.dungeons ==>
        && world.registry == old(world).registry && e.ready == (!old(udpManager.stopping) && socket.Some?)
        && (port.Some? <==> AllocationAccepted(old(world).udp, old(udpManager.stopping), id,
              old(world).registry.dungeons[id].roster.order, socket.Some?))
    {
      hide *;
      var participants := ListLater(alone, id);
      port, e := AllocateLater(alone, id, participants, socket);
    }

    static lemma Concluded(
      before: seq<Event>, w: World, id: DungeonId, granted: bool, found: bool, cancelled: bool)
      requires |before| == 3 && before[1] == ListParticipants(id) && before[2].Allocate? && before[2].id == id
      requires if granted then before[2].ready && !cancelled else before[2].tokens == map[] && !found
      requires cancelled ==> id !in w.udp
      requires !found ==> id !in w.registry.dungeons
      ensures
        var own := before + ConcludingSteps(id, granted, found, cancelled);
        && own[0] == before[0] && own[2] == before[2]
        && Ran(if found then Entered else if cancelled then UdpAllocationFailed else RequestFailed, id, own, w)
    {
      var own := before + ConcludingSteps(id, granted, found, cancelled);
      assert own[3..] == ConcludingSteps(id, granted, found, cancelled);
    }

    /** What a leader's request does once its dungeon has been created. */
    method Proceed(ghost alone: bool, ghost w: World, id: DungeonId, socket: Option<UInt16>)
      returns (result: EnterDungeonResult, udpPort: UInt16, udpToken: Token)
      requires Stands() && Traced() && partyManager.Valid() && |own| == 1 && id in dungeonManager.dungeons
      requires id in world.entering && world.entering[id] == Entering(sessionId, None, false, [])
      requires id < world.registry.next
      requires alone ==>
        && Orderly(w) && own[0].Open? && Enabled(w, own[0]) && world == Next(w, own[0]) && id == w.registry.next
      modifies this`world, this`own, this`others, partyManager, dungeonManager, dungeonManager.dungeons.Values
      modifies udpManager, udpManager.sessions.Values
      ensures Stands() && Traced() && partyManager.Valid() && own != [] && Ran(result, id, own, world)
      ensures own[0] == old(own)[0] && others != [] && others[0] == old(others)[0]
      ensures result.Entered? ==>
        socket == Some(udpPort) && id in world.udp && Lookup(world.udp[id].tokens, sessionId) == Some(udpToken)
      ensures !result.Entered? ==> udpPort == 0 && udpToken == 0
      ensures alone && Undisturbed(old(others)) ==> Undisturbed(others)
      ensures alone ==>
        && result == (if old(udpManager.stopping) || socket.None? then UdpAllocationFailed else Entered)
        && (!result.Entered? ==> !own[2].ready)
    {
      hide *;
      if alone {
        NewDungeonIsAccepted(w, own[0], udpManager.stopping, socket.Some?);
      }
      var port, allocation := Reserve(alone, id, socket);
      ghost var soFar := own;
      var token, cancelled := Conclude(alone, id, port);
      Concluded(soFar, world, id, port.Some?, token.Some?, cancelled);
      if token.Some? {
        result, udpPort, udpToken := Entered, port.value, token.value;
      } else {
        result, udpPort, udpToken := if cancelled then UdpAllocationFailed else RequestFailed, 0, 0;
      }
    }

    /** The party the session leads, unless the answer is known already. */
    method LedParty() returns (result: EnterDungeonResult, partyId: PartyId)
      requires partyManager.Valid()
      ensures result == Leadership(partyManager.View(), sessionId)
      ensures result.Entered? ==> partyId == partyManager.joinedParties[sessionId]
      ensures result.NotInParty? <==> sessionId !in partyManager.joinedParties
      ensures result.NotPartyLeader? <==> sessionId in partyManager.joinedParties && !LeadsParty(partyManager.View(), sessionId)
      ensures result.Entered? <==> LeadsParty(partyManager.View(), sessionId)
    {
      LeadershipMeans(partyManager.View(), sessionId);
      hide PartiesFit;
      result, partyId := NotInParty, 0;
      var joined := partyManager.GetJoinedParty(sessionId);
      if joined.None? {
        return;
      }
      var party := partyManager.GetParty(joined.value);
      if party.None? {
        return;
      }
      result := if party.value.leader != sessionId then NotPartyLeader else Entered;
      partyId := joined.value;
    }

    lemma LeaderIsMember()
      requires partyManager.Valid() && Leadership(partyManager.View(), sessionId).Entered?
      ensures
        var party := partyManager.joinedParties[sessionId];
        party in partyManager.parties && sessionId in partyManager.parties[party].members
    {
    }

    /** CreateDungeon, some time after the party was looked up. */
    method CreateLater(ghost alone: bool, partyId: PartyId, templateId: DungeonTemplateId, now: Time)
      returns (creation: CreateDungeonResult)
      requires Stands() && Traced() && partyManager.Valid() && dungeonManager.partyManager == partyManager
      requires MayAsk(world, sessionId) && own == []
      requires Leadership(partyManager.View(), sessionId).Entered? && partyId == partyManager.joinedParties[sessionId]
      modifies this`world, this`own, this`others, partyManager, dungeonManager, dungeonManager.dungeons.Values
      modifies udpManager, udpManager.sessions.Values
      ensures Stands() && Traced() && partyManager.Valid()
      ensures fresh(dungeonManager.dungeons.Values - old(dungeonManager.dungeons).Values)
      ensures fresh(udpManager.sessions.Values - old(udpManager.sessions).Values)
      ensures alone && Undisturbed(old(others)) ==> Undisturbed(others)
      ensures !creation.Created? ==>
        && own == [] && (alone ==> world == old(world))
        && Answer(creation) == Refusal(world.registry, partyId, templateId in dungeonManager.dungeonCatalog)
      ensures creation.Created? ==>
        && |own| == 1 && own[0].Open? && Asks(own[0], partyId, now)
        && others != [] && NumberAfter(start, others[0], creation.dungeonId)
        && creation.dungeonId in dungeonManager.dungeons && creation.dungeonId in world.registry.dungeons
        && creation.dungeonId < world.registry.next && creation.dungeonId in world.entering
        && world.entering[creation.dungeonId] == Entering(sessionId, None, false, [])
        && (alone ==>
              && creation.dungeonId == old(world).registry.next
              && Enabled(old(world), own[0]) && world == Next(old(world), own[0])
              && Refusal(old(world).registry, partyId, templateId in dungeonManager.dungeonCatalog).None?)
      ensures alone ==> udpManager.stopping == old(udpManager.stopping)
    {
      hide DungeonManager.Valid, DungeonManager.View, DungeonUdpManager.Valid, DungeonUdpManager.View, Orderly;
      hide Weave, After, Enabled, PartiesFit, Undisturbed, MayAsk, Next, FreshRoster, Opened;
      LetOthersIn(alone, None, false);
      LeaderIsMember();
      FirstOthers();
      creation := Create(partyId, templateId, now);
    }

    lemma FirstOthers()
      requires Traced() && own == []
      ensures |others| == 1 && After(start, others[0]) == Some(world)
    {
      hide After;
    }

    /** The number that came next when the request got its turn. */
    static ghost predicate NumberAfter(w: World, before: seq<Event>, id: DungeonId) {
      After(w, before).Some? && After(w, before).value.registry.next == id
    }

    /** The request of a leader. */
    method EnterWith(
      ghost alone: bool, partyId: PartyId, templateId: DungeonTemplateId, now: Time, socket: Option<UInt16>)
      returns (result: EnterDungeonResult, dungeonId: DungeonId, udpPort: UInt16, udpToken: Token, ghost id: DungeonId)
      requires Stands() && Traced() && partyManager.Valid() && dungeonManager.partyManager == partyManager
      requires MayAsk(world, sessionId) && start == world && own == [] && Undisturbed(others)
      requires Leadership(partyManager.View(), sessionId).Entered? && partyId == partyManager.joinedParties[sessionId]
      modifies this`world, this`own, this`others, partyManager, dungeonManager, dungeonManager.dungeons.Values
      modifies udpManager, udpManager.sessions.Values
      ensures Stands() && Traced() && partyManager.Valid() && (alone ==> Undisturbed(others))
      ensures own == [] ==>
        Refusal(world.registry, partyId, templateId in dungeonManager.dungeonCatalog) == Some(result)
      ensures own != [] ==>
        && own[0].Open? && Asks(own[0], partyId, now) && others != [] && NumberAfter(start, others[0], id)
        && Ran(result, id, own, world)
      ensures result.Entered? ==>
        && own != [] && dungeonId == id && socket == Some(udpPort)
        && id in world.udp && Lookup(world.udp[id].tokens, sessionId) == Some(udpToken)
      ensures !result.Entered? ==> dungeonId == 0 && udpPort == 0 && udpToken == 0
      ensures alone && own == [] ==> world == start && !result.Entered?
      ensures alone && own != [] ==>
        && Refusal(start.registry, partyId, templateId in dungeonManager.dungeonCatalog).None?
        && result == (if old(udpManager.stopping) || socket.None? then UdpAllocationFailed else Entered)
        && (!result.Entered? ==> !own[2].ready)
    {
      hide *;
      result, dungeonId, udpPort, udpToken, id := UdpAllocationFailed, 0, 0, 0, 0;
      ghost var w := world;
      Parts();
      var creation := CreateLater(alone, partyId, templateId, now);
      if !creation.Created? {
        NotEntered(creation);
        result := Answer(creation).value;
      } else {
        id := creation.dungeonId;
        result, udpPort, udpToken := Proceed(alone, w, creation.dungeonId, socket);
        if result.Entered? {
          dungeonId := creation.dungeonId;
        }
      }
    }

    static lemma RanFurther(result: EnterDungeonResult, id: DungeonId, own: seq<Event>, w: World)
      ensures Ran(result, id, own, w) ==> result.Entered? || result.UdpAllocationFailed? || result.RequestFailed?
    {
    }

    static lemma NotEntered(creation: CreateDungeonResult)
      requires !creation.Created?
      ensures Answer(creation).Some? && !Answer(creation).value.Entered?
    {
    }

    static lemma NewDungeonIsAccepted(w: World, e: Event, stopping: bool, ready: bool)
      requires Orderly(w) && e.Open? && Enabled(w, e)
      ensures
        var w', id := Next(w, e), w.registry.next;
        && id in w'.registry.dungeons
        && (AllocationAccepted(w'.udp, stopping, id, w'.registry.dungeons[id].roster.order, ready) <==>
              !stopping && ready)
    {
      hide Orderly, Enabled, Next;
      NextNumberIsFree(w);
      OpenIs(w, e);
      ListedSeatings(w.registry, e.members, e.roster);
    }

    /** Nobody in between, and no success: nothing is left of the request but a number that is used up. */
    static lemma NothingLeft(
      w: World, w': World, own: seq<Event>, others: seq<seq<Event>>, id: DungeonId, result: EnterDungeonResult)
      requires |others| == |own| + 1 && Undisturbed(others) && After(w, Weave(own, others)) == Some(w') && Orderly(w)
      requires own != [] ==>
        && result.UdpAllocationFailed? && Ran(result, id, own, w') && own[0].Open? && !own[2].ready
        && NumberAfter(w, others[0], id)
      ensures w'.registry.dungeons == w.registry.dungeons && w'.udp == w.udp
    {
      hide After, Weave, Orderly, Enabled, Next, Opened, Closed;
      WeaveUndisturbed(own, others);
      NothingHappens(w);
      if own != [] {
        AfterStep(w, own, 0);
        assert own[..0] == [];
        assert own == RefusedSteps(id, own[0]);
        NextNumberIsFree(w);
        RefusedRun(w, own[0]);
        OpenIs(w, own[0]);
        ClosedAgain(w.registry, own[0]);
      }
    }

    /** The request, whatever other calls do before, between and after its sections; and what it answers
        and leaves when they keep out. A success hands out the port and the token that the leader has
        in the dungeon's UDP session now; a failure leaves no dungeon behind; and the exception is
        thrown only if somebody else has released the dungeon. */
    method HandleEnterDungeonRequest(
      ghost alone: bool, templateId: DungeonTemplateId, now: Time, socket: Option<UInt16>)
      returns (result: EnterDungeonResult, dungeonId: DungeonId, udpPort: UInt16, udpToken: Token, ghost id: DungeonId)
      requires Stands() && partyManager.Valid() && dungeonManager.partyManager == partyManager
      requires MayAsk(world, sessionId)
      modifies this`start, this`world, this`own, this`others, partyManager, dungeonManager
      modifies dungeonManager.dungeons.Values, udpManager, udpManager.sessions.Values
      ensures Stands() && Traced() && partyManager.Valid() && start == old(world) && (alone ==> Undisturbed(others))
      ensures own == [] ==>
        if !Leadership(old(partyManager.View()), sessionId).Entered?
        then result == Leadership(old(partyManager.View()), sessionId)
        else Refusal(world.registry, old(partyManager.joinedParties)[sessionId],
               templateId in dungeonManager.dungeonCatalog) == Some(result)
      ensures result.NotInParty? <==> sessionId !in old(partyManager.joinedParties)
      ensures result.NotPartyLeader? <==>
        sessionId in old(partyManager.joinedParties) && !LeadsParty(old(partyManager.View()), sessionId)
      ensures own != [] ==> LeadsParty(old(partyManager.View()), sessionId)
      ensures own == [] && LeadsParty(old(partyManager.View()), sessionId) ==>
        if world.registry.stopping then result == UdpAllocationFailed
        else if templateId !in dungeonManager.dungeonCatalog then result == TemplateNotFound
        else result == AlreadyInDungeon && old(partyManager.joinedParties)[sessionId] in world.registry.partyDungeons
      ensures alone ==> (result.Entered? <==>
        && LeadsParty(old(partyManager.View()), sessionId) && !start.registry.stopping
        && templateId in dungeonManager.dungeonCatalog
        && old(partyManager.joinedParties)[sessionId] !in start.registry.partyDungeons
        && !old(udpManager.stopping) && socket.Some?)
      ensures own != [] ==>
        && Leadership(old(partyManager.View()), sessionId).Entered?
        && Asks(own[0], old(partyManager.joinedParties)[sessionId], now)
        && others != [] && NumberAfter(start, others[0], id) && Ran(result, id, own, world)
      ensures result.Entered? ==>
        && own != [] && dungeonId == id && socket == Some(udpPort)
        && id in world.udp && Lookup(world.udp[id].tokens, sessionId) == Some(udpToken)
      ensures !result.Entered? ==> dungeonId == 0 && udpPort == 0 && udpToken == 0
      ensures alone ==> result == EnterResult(
        old(partyManager.View()), sessionId, start.registry, templateId in dungeonManager.dungeonCatalog,
        old(udpManager.stopping), socket.Some?)
      ensures alone && !result.Entered? ==>
        world.registry.dungeons == start.registry.dungeons && world.udp == start.udp
    {
      hide DungeonManager.Valid, DungeonManager.View, DungeonUdpManager.Valid, DungeonUdpManager.View, Orderly;
      hide Weave, After, Enabled, PartiesFit, MayAsk, Next, Ran, AllocationAccepted, Stands, Refusal, Undisturbed;
      hide Traced, NumberAfter, Asks;
      dungeonId, udpPort, udpToken, id := 0, 0, 0, 0;
      Parts();
      start, own, others := world, [], [[]];
      Begins();
      var party;
      result, party := LedParty();
      if result.Entered? {
        result, dungeonId, udpPort, udpToken, id := EnterWith(alone, party, templateId, now, socket);
        RefusalMeans(start.registry, party, templateId in dungeonManager.dungeonCatalog);
        RefusalMeans(world.registry, party, templateId in dungeonManager.dungeonCatalog);
        RanFurther(result, id, own, world);
      }
      if alone && !result.Entered? {
        OneMoreThanOwn();
        NothingLeft(start, world, own, others, id, result);
      }
    }

    lemma OneMoreThanOwn()
      requires Traced()
      ensures |others| == |own| + 1 && After(start, Weave(own, others)) == Some(world)
    {
    }

    lemma Begins()
      requires start == world && own == [] && others == [[]]
      ensures Traced() && Undisturbed(others)
    {
    }
  }
}
