/** The state of src/DungeonManager.cpp as a plain value, and what its steps do to it: the live
    dungeons, who leads a dungeon through which party, and who is logged in as whom. */
module DungeonRegistry {
  import opened Common
  import opened SeatTable
  import opened DungeonInstances

  /** What the manager sees of a dungeon. */
  datatype Dungeon = Dungeon(party: PartyId, createdAt: Time, state: DungeonState, roster: Roster)

  datatype Registry = Registry(
    next: DungeonId,
    dungeons: map<DungeonId, Dungeon>,
    partyDungeons: map<PartyId, DungeonId>,
    authenticated: map<SessionId, PlayerId>,
    active: map<PlayerId, SessionId>,
    stopping: bool)

  const NEW_REGISTRY := Registry(1, map[], map[], map[], map[], false)

  // ---------------------------------------------------------------- what every run keeps

  ghost predicate LoginsInverse(authenticated: map<SessionId, PlayerId>, active: map<PlayerId, SessionId>) {
    && 0 !in authenticated && 0 !in active
    && (forall s :: s in authenticated ==> authenticated[s] in active && active[authenticated[s]] == s)
    && (forall p :: p in active ==> active[p] in authenticated && authenticated[active[p]] == p)
  }

  ghost predicate PartiesInverse(dungeons: map<DungeonId, Dungeon>, partyDungeons: map<PartyId, DungeonId>) {
    && (forall id :: id in dungeons ==>
          dungeons[id].party in partyDungeons && partyDungeons[dungeons[id].party] == id)
    && (forall p :: p in partyDungeons ==>
          partyDungeons[p] in dungeons && dungeons[partyDungeons[p]].party == p)
  }

  ghost predicate DungeonsSound(dungeons: map<DungeonId, Dungeon>, next: DungeonId) {
    forall id :: id in dungeons ==>
      0 < id < next && WellSeated(dungeons[id].roster) && dungeons[id].roster.seats != map[]
  }

  /** Nobody whose seat waits for a reconnect is still logged in under that session. */
  ghost predicate AbsentLoggedOut(dungeons: map<DungeonId, Dungeon>, authenticated: map<SessionId, PlayerId>) {
    forall id, s :: id in dungeons && s in dungeons[id].roster.seats && dungeons[id].roster.seats[s].since.Some? ==>
      s !in authenticated
  }

  ghost predicate Sound(m: Registry) {
    && m.next > 0
    && LoginsInverse(m.authenticated, m.active)
    && PartiesInverse(m.dungeons, m.partyDungeons)
    && DungeonsSound(m.dungeons, m.next)
    && AbsentLoggedOut(m.dungeons, m.authenticated)
    && (m.stopping ==> m.dungeons == map[] && m.authenticated == map[])
  }

  lemma SoundLogins(m: Registry)
    requires Sound(m)
    ensures LoginsInverse(m.authenticated, m.active)
  {
  }

  ghost predicate Seated(m: Registry, id: DungeonId, s: SessionId) {
    id in m.dungeons && s in m.dungeons[id].roster.seats
  }

  ghost predicate SeatedNowhere(m: Registry, s: SessionId) {
    forall id :: id in m.dungeons ==> s !in m.dungeons[id].roster.seats
  }

  /** A session registers before it is reported gone, never after. */
  ghost predicate Present(m: Registry, s: SessionId) {
    forall id :: Seated(m, id, s) ==> m.dungeons[id].roster.seats[s].since.None?
  }

  ghost function Updated(m: Registry, id: DungeonId, roster: Roster): Registry
    requires id in m.dungeons
  {
    m.(dungeons := m.dungeons[id := m.dungeons[id].(roster := roster)])
  }

  // ---------------------------------------------------------------- creation

  ghost predicate Creatable(m: Registry, party: PartyId) {
    !m.stopping && party !in m.partyDungeons
  }

  /** A new dungeon's seats: its members in order, each bound to whoever is logged in there. */
  ghost predicate FreshRoster(m: Registry, members: seq<SessionId>, roster: Roster) {
    && roster.order == members
    && WellSeated(roster)
    && forall s :: s in roster.seats ==>
         roster.seats[s].player == Lookup(m.authenticated, s) && roster.seats[s].since.None?
  }

  ghost function Opened(m: Registry, party: PartyId, now: Time, roster: Roster): Registry {
    m.(next := m.next + 1,
       dungeons := m.dungeons[m.next := Dungeon(party, now, Waiting, roster)],
       partyDungeons := m.partyDungeons[party := m.next])
  }

  /** What a creation leaves, field by field. */
  ghost predicate OpenedExactly(m: Registry, m': Registry, party: PartyId, now: Time, members: seq<SessionId>) {
    && m'.next == m.next + 1 && m'.stopping == m.stopping
    && m'.authenticated == m.authenticated && m'.active == m.active
    && m'.partyDungeons == m.partyDungeons[party := m.next]
    && m'.dungeons.Keys == m.dungeons.Keys + {m.next}
    && (forall id :: id in m.dungeons && id != m.next ==> m'.dungeons[id] == m.dungeons[id])
    && var d := m'.dungeons[m.next];
       && d.party == party && d.createdAt == now && d.state == Waiting
       && d.roster.order == members && (forall s :: s in d.roster.seats <==> s in members)
       && (forall s :: s in d.roster.seats ==>
             && d.roster.seats[s].since == None
             && (s in m.authenticated ==> d.roster.seats[s].player == Some(m.authenticated[s]))
             && (s !in m.authenticated ==> d.roster.seats[s].player == None))
  }

  lemma CreationMeans(m: Registry, party: PartyId, now: Time, members: seq<SessionId>, roster: Roster)
    requires FreshRoster(m, members, roster)
    ensures OpenedExactly(m, Opened(m, party, now, roster), party, now, members)
  {
  }

  lemma NextIsNew(m: Registry)
    requires Sound(m)
    ensures m.next !in m.dungeons && m.next != 0 && LoginsInverse(m.authenticated, m.active)
  {
  }

  lemma OpenedIsSound(m: Registry, party: PartyId, now: Time, members: seq<SessionId>, roster: Roster)
    requires Sound(m) && Creatable(m, party) && FreshRoster(m, members, roster) && members != []
    ensures Sound(Opened(m, party, now, roster))
  {
    hide WellSeated, LoginsInverse;
    FirstMemberSeated(members, roster);
  }

  lemma FirstMemberSeated(members: seq<SessionId>, roster: Roster)
    requires WellSeated(roster) && roster.order == members && members != []
    ensures roster.seats != map[]
  {
    assert members[0] in roster.seats;
  }

  // ---------------------------------------------------------------- registration

  datatype Registration =
    | InvalidIdentity
    | Registered(id: Option<DungeonId>)
    | Reconnected(dungeonId: DungeonId, old_: SessionId, at: Time)

  /** The identity checks at the head of RegisterPlayerSession. */
  ghost predicate Identified(m: Registry, s: SessionId, p: PlayerId, grace: Time) {
    && s != 0 && p != 0 && grace > 0 && !m.stopping
    && (s in m.authenticated ==> m.authenticated[s] == p)
    && (p in m.active ==> m.active[p] == s)
  }

  ghost predicate Reclaimable(
    m: Registry, id: DungeonId, p: PlayerId, old_: SessionId, s: SessionId, now: Time, grace: Time)
  {
    && id in m.dungeons && !m.dungeons[id].state.Finished?
    && CanReclaim(m.dungeons[id].roster, p, old_, s, now, grace)
  }

  lemma ReclaimableIsSeated(
    m: Registry, id: DungeonId, p: PlayerId, old_: SessionId, s: SessionId, now: Time, grace: Time)
    requires Reclaimable(m, id, p, old_, s, now, grace)
    ensures Seated(m, id, old_)
  {
  }

  ghost predicate NothingToReclaim(m: Registry, id: DungeonId, p: PlayerId, s: SessionId, now: Time, grace: Time) {
    forall old_ :: !Reclaimable(m, id, p, old_, s, now, grace)
  }

  /** What the search for a seat can come to, once the session is logged in. Dungeons are tried
      in no particular order. */
  ghost predicate Outcome(m: Registry, s: SessionId, p: PlayerId, now: Time, grace: Time, r: Registration) {
    match r
    case InvalidIdentity => exists id :: Seated(m, id, s) && !CanBind(m.dungeons[id].roster, s, p)
    case Registered(Some(id)) => Seated(m, id, s) && CanBind(m.dungeons[id].roster, s, p)
    case Registered(None) =>
      SeatedNowhere(m, s) && forall id :: id in m.dungeons ==> NothingToReclaim(m, id, p, s, now, grace)
    case Reconnected(id, old_, at) =>
      && SeatedNowhere(m, s)
      && Reclaimable(m, id, p, old_, s, now, grace) && m.dungeons[id].roster.seats[old_].since == Some(at)
  }

  /** Which results a registration can have. */
  ghost predicate CanAnswer(m: Registry, s: SessionId, p: PlayerId, now: Time, grace: Time, r: Registration) {
    if Identified(m, s, p, grace) then Outcome(m, s, p, now, grace, r) else r.InvalidIdentity?
  }

  ghost function LoggedIn(m: Registry, s: SessionId, p: PlayerId): Registry {
    m.(authenticated := m.authenticated[s := p], active := m.active[p := s])
  }

  /** The session's login is gone, and the player's if this session held it. */
  ghost function LoggedOut(m: Registry, s: SessionId): Registry {
    if s !in m.authenticated then m
    else
      var p := m.authenticated[s];
      m.(authenticated := m.authenticated - {s},
         active := if p in m.active && m.active[p] == s then m.active - {p} else m.active)
  }

  /** A logged-in session after its search for a seat. */
  ghost function Placed(m: Registry, s: SessionId, p: PlayerId, r: Registration): Registry {
    match r
    case InvalidIdentity => m.(authenticated := m.authenticated - {s}, active := m.active - {p})
    case Registered(None) => m
    case Registered(Some(id)) => if id !in m.dungeons then m else Updated(m, id, Bound(m.dungeons[id].roster, s, p))
    case Reconnected(id, old_, _) =>
      if !Seated(m, id, old_) then m
      else
        Updated(m, id, Relabelled(m.dungeons[id].roster, old_, s, None)).(authenticated := m.authenticated - {old_})
  }

  ghost function Answered(m: Registry, s: SessionId, p: PlayerId, grace: Time, r: Registration): Registry {
    if Identified(m, s, p, grace) then Placed(LoggedIn(m, s, p), s, p, r) else m
  }

  lemma OutcomeIgnoresLogins(m: Registry, s: SessionId, p: PlayerId, now: Time, grace: Time, r: Registration)
    ensures Outcome(LoggedIn(m, s, p), s, p, now, grace, r) <==> Outcome(m, s, p, now, grace, r)
  {
    hide CanBind, CanReclaim;
    var in_ := LoggedIn(m, s, p);
    assert forall id :: Seated(in_, id, s) <==> Seated(m, id, s);
    assert forall id, old_ :: Reclaimable(in_, id, p, old_, s, now, grace) <==> Reclaimable(m, id, p, old_, s, now, grace);
    assert forall id :: NothingToReclaim(in_, id, p, s, now, grace) <==> NothingToReclaim(m, id, p, s, now, grace);
  }

  /** Rosters may change as long as they stay well seated and nobody logged in becomes absent. */
  lemma UpdatedIsSound(m: Registry, id: DungeonId, roster: Roster)
    requires Sound(m) && id in m.dungeons && WellSeated(roster) && roster.seats != map[]
    requires forall s :: s in roster.seats && roster.seats[s].since.Some? ==> s !in m.authenticated
    ensures Sound(Updated(m, id, roster))
  {
    hide WellSeated, LoginsInverse;
  }

  lemma LoggedInIsSound(m: Registry, s: SessionId, p: PlayerId, grace: Time)
    requires Sound(m) && Identified(m, s, p, grace) && Present(m, s)
    ensures Sound(LoggedIn(m, s, p))
  {
    hide PartiesInverse, DungeonsSound, WellSeated;
    assert forall id :: id in m.dungeons && s in m.dungeons[id].roster.seats ==> Seated(m, id, s);
  }

  lemma LoggedOutIsSound(m: Registry, s: SessionId)
    requires Sound(m)
    ensures Sound(LoggedOut(m, s)) && s !in LoggedOut(m, s).authenticated && LoggedOut(m, s).dungeons == m.dungeons
  {
  }

  lemma AnsweredIsSound(m: Registry, s: SessionId, p: PlayerId, now: Time, grace: Time, r: Registration)
    requires Sound(m) && CanAnswer(m, s, p, now, grace, r) && Present(m, s)
    ensures Sound(Answered(m, s, p, grace, r))
  {
    hide Sound, WellSeated;
    if Identified(m, s, p, grace) {
      LoggedInIsSound(m, s, p, grace);
      var in_ := LoggedIn(m, s, p);
      match r
      case InvalidIdentity => LoggedOutIsSound(in_, s);
      case Registered(None) =>
      case Registered(Some(id)) => BoundInRegistry(in_, id, s, p);
      case Reconnected(id, old_, _) => ReclaimedInRegistry(in_, id, p, old_, s, now, grace);
    }
  }

  lemma BoundInRegistry(m: Registry, id: DungeonId, s: SessionId, p: PlayerId)
    requires Sound(m) && Seated(m, id, s)
    ensures Sound(Updated(m, id, Bound(m.dungeons[id].roster, s, p)))
  {
    BoundIsWellSeated(m.dungeons[id].roster, s, p);
    UpdatedIsSound(m, id, Bound(m.dungeons[id].roster, s, p));
  }

  lemma ReclaimedInRegistry(
    m: Registry, id: DungeonId, p: PlayerId, old_: SessionId, s: SessionId, now: Time, grace: Time)
    requires Sound(m) && id in m.dungeons && CanReclaim(m.dungeons[id].roster, p, old_, s, now, grace)
    ensures old_ !in m.authenticated && m.authenticated - {old_} == m.authenticated
    ensures Sound(Updated(m, id, Relabelled(m.dungeons[id].roster, old_, s, None)))
  {
    hide Sound, WellSeated, CanReclaim, Relabelled;
    SoundParts(m, id);
    ReclaimedAbsent(m, id, p, old_, s, now, grace);
    ReclaimedRoster(m.dungeons[id].roster, p, old_, s, now, grace);
    UpdatedIsSound(m, id, Relabelled(m.dungeons[id].roster, old_, s, None));
  }

  lemma ReclaimedRoster(r: Roster, p: PlayerId, old_: SessionId, s: SessionId, now: Time, grace: Time)
    requires WellSeated(r) && CanReclaim(r, p, old_, s, now, grace)
    ensures WellSeated(Relabelled(r, old_, s, None)) && Relabelled(r, old_, s, None).seats != map[]
    ensures forall t :: t in Relabelled(r, old_, s, None).seats && Relabelled(r, old_, s, None).seats[t].since.Some? ==>
      t in r.seats && r.seats[t].since.Some?
  {
    RelabelledIsWellSeated(r, old_, s, None);
    assert s in Relabelled(r, old_, s, None).seats;
  }

  /** A dungeon in which one seat has been bound to a player. */
  ghost predicate SeatBound(d: Dungeon, d': Dungeon, s: SessionId, p: PlayerId) {
    && s in d.roster.seats && d.roster.seats[s].player in {None, Some(p)}
    && (forall t :: t in d.roster.seats && t != s ==> d.roster.seats[t].player != Some(p))
    && d' == d.(roster := d.roster.(seats := d.roster.seats[s := d.roster.seats[s].(player := Some(p))]))
  }

  /** A dungeon in which one seat has been taken over, in its place, by another session. */
  ghost predicate SeatMoved(d: Dungeon, d': Dungeon, from: SessionId, to: SessionId) {
    && d'.party == d.party && d'.createdAt == d.createdAt && d'.state == d.state
    && |d'.roster.order| == |d.roster.order|
    && (forall i :: 0 <= i < |d.roster.order| ==>
          d'.roster.order[i] == if d.roster.order[i] == from then to else d.roster.order[i])
    && from in d.roster.seats && to !in d.roster.seats
    && d'.roster.seats.Keys == d.roster.seats.Keys - {from} + {to}
    && d'.roster.seats[to] == d.roster.seats[from].(since := None)
    && (forall t :: t in d.roster.seats && t != from ==> d'.roster.seats[t] == d.roster.seats[t])
  }

  /** A seat its player can take over: bound to it, and gone for less than the grace period. */
  ghost predicate AwaitsPlayer(seat: Seat, p: PlayerId, now: Time, grace: Time) {
    seat.player == Some(p) && seat.since.Some? && seat.since.value <= now < seat.since.value + grace
  }

  /** The session may speak for the player: nothing of it contradicts who is logged in. */
  ghost predicate MaySpeakFor(m: Registry, s: SessionId, p: PlayerId) {
    && s != 0 && p != 0 && !m.stopping
    && Lookup(m.authenticated, s) in {None, Some(p)} && Lookup(m.active, p) in {None, Some(s)}
  }

  /** What a registration answers and leaves, field by field. */
  ghost predicate RegisteredExactly(
    m: Registry, m': Registry, s: SessionId, p: PlayerId, now: Time, grace: Time, r: Registration)
  {
    && m'.next == m.next && m'.stopping == m.stopping && m'.partyDungeons == m.partyDungeons
    && m'.dungeons.Keys == m.dungeons.Keys
    && if !MaySpeakFor(m, s, p) || grace <= 0 then r.InvalidIdentity? && m' == m
       else
         && m'.active == (if r.InvalidIdentity? then m.active - {p} else m.active[p := s])
         && match r
            case InvalidIdentity =>
              && m'.dungeons == m.dungeons && m'.authenticated == m.authenticated - {s}
              && exists id :: id in m.dungeons && s in m.dungeons[id].roster.seats && SeatTaken(m.dungeons[id].roster, s, p)
            case Registered(None) =>
              && m'.dungeons == m.dungeons && m'.authenticated == m.authenticated[s := p]
              && (forall id :: id in m.dungeons ==> s !in m.dungeons[id].roster.seats)
              && (forall id, t :: id in m.dungeons && t in m.dungeons[id].roster.seats && !m.dungeons[id].state.Finished? ==>
                    !AwaitsPlayer(m.dungeons[id].roster.seats[t], p, now, grace))
            case Registered(Some(id)) =>
              && id in m.dungeons && m'.authenticated == m.authenticated[s := p]
              && SeatBound(m.dungeons[id], m'.dungeons[id], s, p)
              && (forall other :: other in m.dungeons && other != id ==> m'.dungeons[other] == m.dungeons[other])
            case Reconnected(id, old_, at) =>
              && id in m.dungeons && !m.dungeons[id].state.Finished?
              && m'.authenticated == m.authenticated[s := p] - {old_}
              && (forall other :: other in m.dungeons ==> s !in m.dungeons[other].roster.seats)
              && old_ in m.dungeons[id].roster.seats
              && AwaitsPlayer(m.dungeons[id].roster.seats[old_], p, now, grace)
              && m.dungeons[id].roster.seats[old_].since == Some(at)
              && SeatMoved(m.dungeons[id], m'.dungeons[id], old_, s)
              && (forall other :: other in m.dungeons && other != id ==> m'.dungeons[other] == m.dungeons[other])
  }

  /** The session's seat belongs to another player, or the player sits somewhere else. */
  ghost predicate SeatTaken(roster: Roster, s: SessionId, p: PlayerId)
    requires s in roster.seats
  {
    if roster.seats[s].player.Some? then roster.seats[s].player != Some(p)
    else exists t :: t in roster.seats && roster.seats[t].player == Some(p)
  }

  /** A registration is refused exactly to a session that may not speak for its player, or whose seat
      says otherwise; it binds the session's own seat, or takes over a seat of its player that is
      waiting, or else there is none, and in no case does it touch anything else. */
  lemma RegistrationMeans(m: Registry, s: SessionId, p: PlayerId, now: Time, grace: Time, r: Registration)
    requires Sound(m) && CanAnswer(m, s, p, now, grace, r)
    ensures RegisteredExactly(m, Answered(m, s, p, grace, r), s, p, now, grace, r)
  {
    hide RegisteredExactly, Outcome, Answered, Sound;
    if Identified(m, s, p, grace) {
      match r
      case InvalidIdentity => RefusalRegistered(m, s, p, now, grace);
      case Registered(None) => LoginRegistered(m, s, p, now, grace);
      case Registered(Some(id)) => BindRegistered(m, s, p, now, grace, id);
      case Reconnected(id, old_, at) => ReclaimRegistered(m, s, p, now, grace, id, old_, at);
    } else {
      StrangerRefused(m, s, p, now, grace);
    }
  }

  lemma StrangerRefused(m: Registry, s: SessionId, p: PlayerId, now: Time, grace: Time)
    requires !Identified(m, s, p, grace)
    ensures RegisteredExactly(m, Answered(m, s, p, grace, InvalidIdentity), s, p, now, grace, InvalidIdentity)
  {
  }

  lemma RefusalRegistered(m: Registry, s: SessionId, p: PlayerId, now: Time, grace: Time)
    requires Identified(m, s, p, grace) && Outcome(m, s, p, now, grace, InvalidIdentity)
    ensures RegisteredExactly(m, Answered(m, s, p, grace, InvalidIdentity), s, p, now, grace, InvalidIdentity)
  {
    hide CanBind, SeatTaken;
    var id :| Seated(m, id, s) && !CanBind(m.dungeons[id].roster, s, p);
    RefusedSeat(m.dungeons[id].roster, s, p);
  }

  lemma LoginRegistered(m: Registry, s: SessionId, p: PlayerId, now: Time, grace: Time)
    requires Identified(m, s, p, grace) && Outcome(m, s, p, now, grace, Registered(None))
    ensures RegisteredExactly(m, Answered(m, s, p, grace, Registered(None)), s, p, now, grace, Registered(None))
  {
    hide AwaitsPlayer, NothingToReclaim;
    NobodyWaits(m, s, p, now, grace);
  }

  lemma BindRegistered(m: Registry, s: SessionId, p: PlayerId, now: Time, grace: Time, id: DungeonId)
    requires Sound(m) && Identified(m, s, p, grace) && Outcome(m, s, p, now, grace, Registered(Some(id)))
    ensures RegisteredExactly(m, Answered(m, s, p, grace, Registered(Some(id))), s, p, now, grace, Registered(Some(id)))
  {
    hide Sound, WellSeated, SeatBound, CanBind, Bound;
    SoundParts(m, id);
    BoundSeats(m.dungeons[id], s, p);
  }

  lemma ReclaimRegistered(
    m: Registry, s: SessionId, p: PlayerId, now: Time, grace: Time, id: DungeonId, old_: SessionId, at: Time)
    requires Sound(m) && Identified(m, s, p, grace) && Outcome(m, s, p, now, grace, Reconnected(id, old_, at))
    ensures RegisteredExactly(
      m, Answered(m, s, p, grace, Reconnected(id, old_, at)), s, p, now, grace, Reconnected(id, old_, at))
  {
    hide Sound, WellSeated, SeatMoved, CanReclaim, Relabelled, AwaitsPlayer;
    SoundParts(m, id);
    ReclaimedSeats(m.dungeons[id], p, old_, s, now, grace);
  }

  lemma RefusedSeat(roster: Roster, s: SessionId, p: PlayerId)
    requires s in roster.seats && s != 0 && p != 0 && !CanBind(roster, s, p)
    ensures SeatTaken(roster, s, p)
  {
  }

  lemma NobodyWaits(m: Registry, s: SessionId, p: PlayerId, now: Time, grace: Time)
    requires s != 0 && p != 0 && grace > 0 && SeatedNowhere(m, s)
    requires forall id :: id in m.dungeons ==> NothingToReclaim(m, id, p, s, now, grace)
    ensures forall id, t :: id in m.dungeons && t in m.dungeons[id].roster.seats && !m.dungeons[id].state.Finished? ==>
      !AwaitsPlayer(m.dungeons[id].roster.seats[t], p, now, grace)
  {
    forall id, t | id in m.dungeons && t in m.dungeons[id].roster.seats && !m.dungeons[id].state.Finished?
      ensures !AwaitsPlayer(m.dungeons[id].roster.seats[t], p, now, grace)
    {
      assert !Reclaimable(m, id, p, t, s, now, grace);
    }
  }

  lemma BoundSeats(d: Dungeon, s: SessionId, p: PlayerId)
    requires WellSeated(d.roster) && CanBind(d.roster, s, p)
    ensures SeatBound(d, d.(roster := Bound(d.roster, s, p)), s, p)
  {
  }

  lemma ReclaimedSeats(d: Dungeon, p: PlayerId, old_: SessionId, s: SessionId, now: Time, grace: Time)
    requires WellSeated(d.roster) && CanReclaim(d.roster, p, old_, s, now, grace)
    ensures old_ in d.roster.seats && AwaitsPlayer(d.roster.seats[old_], p, now, grace)
    ensures SeatMoved(d, d.(roster := Relabelled(d.roster, old_, s, None)), old_, s)
  {
    ReconnectKeepsTheSeat(d.roster, p, old_, s, now, grace);
  }

  // ---------------------------------------------------------------- rollback

  ghost predicate CanReturn(m: Registry, id: DungeonId, p: PlayerId, new_: SessionId, old_: SessionId) {
    id in m.dungeons && CanRollback(m.dungeons[id].roster, p, new_, old_)
  }

  ghost function Returned(m: Registry, id: DungeonId, p: PlayerId, new_: SessionId, old_: SessionId, at: Time): Registry
    requires CanReturn(m, id, p, new_, old_)
  {
    Updated(m, id, Relabelled(m.dungeons[id].roster, new_, old_, Some(at)))
      .(authenticated := m.authenticated - {new_},
        active := if p in m.active && m.active[p] == new_ then m.active - {p} else m.active)
  }

  /** A rollback straight after its reconnect is always accepted, and leaves no trace exactly
      when the new session was not logged in before it. */
  lemma RollbackRestores(
    m: Registry, s: SessionId, p: PlayerId, now: Time, grace: Time, id: DungeonId, old_: SessionId, at: Time)
    requires Sound(m) && CanAnswer(m, s, p, now, grace, Reconnected(id, old_, at))
    ensures
      var taken := Answered(m, s, p, grace, Reconnected(id, old_, at));
      && CanReturn(taken, id, p, s, old_)
      && (Returned(taken, id, p, s, old_, at) == m <==> s !in m.authenticated)
  {
    hide Sound, WellSeated, CanReclaim, CanRollback, Relabelled;
    SoundParts(m, id);
    RollbackUndoesReconnect(m.dungeons[id].roster, p, old_, s, now, grace);
    ReclaimedAbsent(m, id, p, old_, s, now, grace);
    LoginRoundTrip(m.authenticated, m.active, s, p, old_);
    var taken := Answered(m, s, p, grace, Reconnected(id, old_, at));
    assert Returned(taken, id, p, s, old_, at).dungeons == m.dungeons;
  }

  lemma SoundParts(m: Registry, id: DungeonId)
    requires Sound(m) && id in m.dungeons
    ensures WellSeated(m.dungeons[id].roster) && LoginsInverse(m.authenticated, m.active)
    ensures forall t :: t in m.dungeons[id].roster.seats && m.dungeons[id].roster.seats[t].since.Some? ==>
      t !in m.authenticated
  {
  }

  lemma ReclaimedAbsent(
    m: Registry, id: DungeonId, p: PlayerId, old_: SessionId, s: SessionId, now: Time, grace: Time)
    requires Sound(m) && id in m.dungeons && CanReclaim(m.dungeons[id].roster, p, old_, s, now, grace)
    ensures old_ !in m.authenticated && old_ in m.dungeons[id].roster.seats && old_ != s
    ensures m.dungeons[id].roster.seats[old_].since.Some?
  {
  }

  /** Logging in and out again is invisible exactly when the session was out before. */
  lemma LoginRoundTrip(
    authenticated: map<SessionId, PlayerId>, active: map<PlayerId, SessionId>, s: SessionId, p: PlayerId, old_: SessionId)
    requires LoginsInverse(authenticated, active) && old_ !in authenticated && old_ != s
    requires s in authenticated ==> authenticated[s] == p
    requires p in active ==> active[p] == s
    ensures authenticated[s := p] - {old_} - {s} == authenticated <==> s !in authenticated
    ensures s !in authenticated ==> active[p := s] - {p} == active
  {
    if s in authenticated {
      assert s !in authenticated[s := p] - {old_} - {s};
    }
  }

  /** The new session has not been reported gone, the old one not logged in again. */
  ghost predicate Returnable(m: Registry, id: DungeonId, p: PlayerId, new_: SessionId, old_: SessionId) {
    && (Seated(m, id, new_) ==> m.dungeons[id].roster.seats[new_].since.None?)
    && old_ !in m.authenticated
    && (new_ in m.authenticated ==> m.authenticated[new_] == p)
  }

  lemma ReturnedIsSound(m: Registry, id: DungeonId, p: PlayerId, new_: SessionId, old_: SessionId, at: Time)
    requires Sound(m) && CanReturn(m, id, p, new_, old_)
    requires Returnable(m, id, p, new_, old_)
    ensures Sound(Returned(m, id, p, new_, old_, at))
  {
    hide Sound, WellSeated, CanRollback, Relabelled, LoginsInverse;
    SoundParts(m, id);
    ReturnableSeat(m.dungeons[id].roster, p, new_, old_);
    ReturnedRoster(m.dungeons[id].roster, p, new_, old_, at);
    var back := Updated(m, id, Relabelled(m.dungeons[id].roster, new_, old_, Some(at)));
    UpdatedIsSound(m, id, Relabelled(m.dungeons[id].roster, new_, old_, Some(at)));
    LoginErased(back, new_, p);
  }

  lemma ReturnableSeat(r: Roster, p: PlayerId, new_: SessionId, old_: SessionId)
    requires CanRollback(r, p, new_, old_)
    ensures new_ in r.seats && old_ !in r.seats && old_ != new_
  {
  }

  lemma ReturnedRoster(r: Roster, p: PlayerId, new_: SessionId, old_: SessionId, at: Time)
    requires WellSeated(r) && CanRollback(r, p, new_, old_)
    ensures
      var back := Relabelled(r, new_, old_, Some(at));
      && WellSeated(back) && back.seats != map[]
      && forall t :: t in back.seats && back.seats[t].since.Some? ==>
           t == old_ || (t in r.seats && r.seats[t].since.Some?)
  {
    RelabelledIsWellSeated(r, new_, old_, Some(at));
    assert old_ in Relabelled(r, new_, old_, Some(at)).seats;
  }

  lemma LoginErased(m: Registry, s: SessionId, p: PlayerId)
    requires Sound(m) && (s in m.authenticated ==> m.authenticated[s] == p)
    ensures Sound(m.(authenticated := m.authenticated - {s},
                     active := if p in m.active && m.active[p] == s then m.active - {p} else m.active))
  {
    hide WellSeated;
  }

  // ---------------------------------------------------------------- disconnect

  /** The dungeon a disconnect reports: some dungeon with the session in it, if any. */
  ghost predicate CanReport(m: Registry, s: SessionId, found: Option<DungeonId>) {
    match found
    case Some(id) => s != 0 && Seated(m, id, s)
    case None => s == 0 || SeatedNowhere(m, s)
  }

  ghost function Departed(m: Registry, s: SessionId, at: Time, found: Option<DungeonId>): Registry
    requires found.Some? ==> found.value in m.dungeons
  {
    if s == 0 then m
    else
      var out := LoggedOut(m, s);
      if found.None? then out else Updated(out, found.value, Vacated(m.dungeons[found.value].roster, s, at))
  }

  lemma DepartedIsSound(m: Registry, s: SessionId, at: Time, found: Option<DungeonId>)
    requires Sound(m) && CanReport(m, s, found)
    ensures Sound(Departed(m, s, at, found))
  {
    hide Sound, LoggedOut, Updated, Vacated;
    if s != 0 {
      LoggedOutIsSound(m, s);
      if found.Some? {
        ReportedIsSound(LoggedOut(m, s), s, at, found.value);
      }
    }
  }

  lemma ReportedIsSound(m: Registry, s: SessionId, at: Time, id: DungeonId)
    requires Sound(m) && Seated(m, id, s) && s !in m.authenticated
    ensures Sound(Updated(m, id, Vacated(m.dungeons[id].roster, s, at)))
  {
    hide LoginsInverse, PartiesInverse, Updated;
    var roster := m.dungeons[id].roster;
    VacatedIsWellSeated(roster, s, at);
    assert s in Vacated(roster, s, at).seats;
    UpdatedIsSound(m, id, Vacated(roster, s, at));
  }

  /** What a disconnect leaves, field by field: the login is gone, the first report of it stays
      in the seat, and nothing else has changed. */
  ghost predicate DepartedExactly(m: Registry, m': Registry, s: SessionId, at: Time, found: Option<DungeonId>) {
    && m'.next == m.next && m'.stopping == m.stopping && m'.partyDungeons == m.partyDungeons
    && s !in m'.authenticated
    && (forall t :: t != s ==> Lookup(m'.authenticated, t) == Lookup(m.authenticated, t))
    && (forall p :: p in m'.active <==> p in m.active && m.active[p] != s)
    && (forall p :: p in m'.active ==> m'.active[p] == m.active[p])
    && m'.dungeons.Keys == m.dungeons.Keys
    && (forall id :: id in m.dungeons && found != Some(id) ==> m'.dungeons[id] == m.dungeons[id])
    && (found.None? ==> forall id :: id in m.dungeons ==> s !in m.dungeons[id].roster.seats)
    && (found.Some? ==>
          && found.value in m.dungeons && s in m.dungeons[found.value].roster.seats
          && NotedGone(m.dungeons[found.value], m'.dungeons[found.value], s, at))
  }

  /** One seat of a dungeon has a disconnect time: the one it had, or else the one reported. */
  ghost predicate NotedGone(d: Dungeon, d': Dungeon, s: SessionId, at: Time)
    requires s in d.roster.seats
  {
    && d'.party == d.party && d'.createdAt == d.createdAt && d'.state == d.state
    && d'.roster.order == d.roster.order && d'.roster.seats.Keys == d.roster.seats.Keys
    && (forall t :: t in d.roster.seats && t != s ==> d'.roster.seats[t] == d.roster.seats[t])
    && d'.roster.seats[s].player == d.roster.seats[s].player
    && d'.roster.seats[s].character == d.roster.seats[s].character
    && d'.roster.seats[s].since.Some?
    && (d.roster.seats[s].since.Some? ==> d'.roster.seats[s].since == d.roster.seats[s].since)
    && (d.roster.seats[s].since.None? ==> d'.roster.seats[s].since == Some(at))
  }

  /** A disconnect logs the session out and notes its time in a dungeon that knows it, if any does. */
  lemma DepartureMeans(m: Registry, s: SessionId, at: Time, found: Option<DungeonId>)
    requires Sound(m) && CanReport(m, s, found)
    ensures s != 0 ==> DepartedExactly(m, Departed(m, s, at, found), s, at, found)
    ensures s == 0 ==> Departed(m, s, at, found) == m && found.None?
  {
    hide NotedGone, Vacated, Sound;
    SoundLogins(m);
    if found.Some? {
      VacatedNotes(m.dungeons[found.value], s, at);
    }
  }

  lemma VacatedNotes(d: Dungeon, s: SessionId, at: Time)
    requires s in d.roster.seats
    ensures NotedGone(d, d.(roster := Vacated(d.roster, s, at)), s, at)
  {
  }

  // ---------------------------------------------------------------- sweep

  ghost predicate Aged(d: Dungeon, now: Time, lifetime: Time) {
    now >= d.createdAt && now - d.createdAt >= lifetime
  }

  ghost function Leaving(d: Dungeon, now: Time, grace: Time, lifetime: Time): set<SessionId> {
    if Aged(d, now, lifetime) then d.roster.seats.Keys else Expired(d.roster, now, grace)
  }

  ghost predicate ToRelease(d: Dungeon, now: Time, grace: Time, lifetime: Time) {
    Aged(d, now, lifetime) || d.roster.seats.Keys <= Expired(d.roster, now, grace)
  }

  ghost function SweptDungeon(d: Dungeon, now: Time, grace: Time): Dungeon {
    d.(roster := Dropped(d.roster, Expired(d.roster, now, grace)))
  }

  /** A sweep of some of the dungeons; a whole sweep takes them all. */
  ghost function Swept(m: Registry, ids: set<DungeonId>, now: Time, grace: Time, lifetime: Time): Registry {
    m.(dungeons := map id | id in m.dungeons && !(id in ids && ToRelease(m.dungeons[id], now, grace, lifetime)) ::
         if id in ids then SweptDungeon(m.dungeons[id], now, grace) else m.dungeons[id],
       partyDungeons := map p | p in m.partyDungeons && !(
         && m.partyDungeons[p] in ids && m.partyDungeons[p] in m.dungeons
         && ToRelease(m.dungeons[m.partyDungeons[p]], now, grace, lifetime)) :: m.partyDungeons[p])
  }

  ghost function ReleasedIds(m: Registry, ids: set<DungeonId>, now: Time, grace: Time, lifetime: Time): set<DungeonId> {
    set id | id in m.dungeons && id in ids && ToRelease(m.dungeons[id], now, grace, lifetime)
  }

  ghost function RemovedSeats(m: Registry, ids: set<DungeonId>, now: Time, grace: Time, lifetime: Time)
    : set<(DungeonId, SessionId)>
  {
    set id, s | id in m.dungeons && id in ids && s in Leaving(m.dungeons[id], now, grace, lifetime) :: (id, s)
  }

  lemma SweptDungeonIsSound(d: Dungeon, now: Time, grace: Time, lifetime: Time)
    requires WellSeated(d.roster)
    ensures WellSeated(SweptDungeon(d, now, grace).roster)
    ensures !ToRelease(d, now, grace, lifetime) ==> SweptDungeon(d, now, grace).roster.seats != map[]
    ensures forall s :: s in SweptDungeon(d, now, grace).roster.seats <==>
      s in d.roster.seats && s !in Expired(d.roster, now, grace)
    ensures forall s :: s in SweptDungeon(d, now, grace).roster.seats ==>
      SweptDungeon(d, now, grace).roster.seats[s] == d.roster.seats[s]
  {
    var gone := Expired(d.roster, now, grace);
    DroppedIsWellSeated(d.roster, gone);
    if !ToRelease(d, now, grace, lifetime) {
      var s :| s in d.roster.seats && s !in gone;
      assert s in Dropped(d.roster, gone).seats;
    }
  }

  lemma EmptiedMeansReleased(d: Dungeon, now: Time, grace: Time, lifetime: Time)
    requires WellSeated(d.roster) && !Aged(d, now, lifetime)
    ensures SweptDungeon(d, now, grace).roster.order == [] <==> ToRelease(d, now, grace, lifetime)
  {
    SweptDungeonIsSound(d, now, grace, lifetime);
    var swept := SweptDungeon(d, now, grace).roster;
    if swept.order == [] {
      assert forall s :: s in swept.seats ==> s in swept.order;
    } else {
      assert swept.order[0] in swept.seats;
    }
  }

  lemma AgedMeansReleased(d: Dungeon, now: Time, grace: Time, lifetime: Time)
    requires Aged(d, now, lifetime)
    ensures ToRelease(d, now, grace, lifetime) && Leaving(d, now, grace, lifetime) == d.roster.seats.Keys
  {
  }

  lemma SweptParties(m: Registry, ids: set<DungeonId>, now: Time, grace: Time, lifetime: Time)
    requires PartiesInverse(m.dungeons, m.partyDungeons)
    ensures PartiesInverse(Swept(m, ids, now, grace, lifetime).dungeons, Swept(m, ids, now, grace, lifetime).partyDungeons)
  {
    hide ToRelease, Dropped;
  }

  lemma SweptIsSound(m: Registry, ids: set<DungeonId>, now: Time, grace: Time, lifetime: Time)
    requires Sound(m)
    ensures Sound(Swept(m, ids, now, grace, lifetime))
  {
    hide WellSeated, LoginsInverse, ToRelease, SweptDungeon, PartiesInverse;
    SweptParties(m, ids, now, grace, lifetime);
    forall id | id in m.dungeons {
      SweptDungeonIsSound(m.dungeons[id], now, grace, lifetime);
    }
  }

  ghost function SeatsIn(id: DungeonId, sessions: set<SessionId>): set<(DungeonId, SessionId)> {
    set s | s in sessions :: (id, s)
  }

  lemma NothingSwept(m: Registry, now: Time, grace: Time, lifetime: Time)
    ensures Swept(m, {}, now, grace, lifetime) == m
    ensures ReleasedIds(m, {}, now, grace, lifetime) == {} && RemovedSeats(m, {}, now, grace, lifetime) == {}
  {
    assert Swept(m, {}, now, grace, lifetime).dungeons == m.dungeons;
    assert Swept(m, {}, now, grace, lifetime).partyDungeons == m.partyDungeons;
  }

  /** One step of the sweep's walk over the dungeons. */
  lemma SweptOneMore(m: Registry, ids: set<DungeonId>, id: DungeonId, now: Time, grace: Time, lifetime: Time)
    requires Sound(m) && id !in ids && id in m.dungeons
    ensures
      var d := m.dungeons[id];
      var before := Swept(m, ids, now, grace, lifetime);
      && Lookup(before.dungeons, id) == Some(d)
      && Swept(m, ids + {id}, now, grace, lifetime) ==
           if ToRelease(d, now, grace, lifetime) then Closed(before, id)
           else Updated(before, id, SweptDungeon(d, now, grace).roster)
  {
    if ToRelease(m.dungeons[id], now, grace, lifetime) {
      OneMoreReleased(m, ids, id, now, grace, lifetime);
    } else {
      OneMoreKept(m, ids, id, now, grace, lifetime);
    }
  }

  lemma OneMoreReleased(m: Registry, ids: set<DungeonId>, id: DungeonId, now: Time, grace: Time, lifetime: Time)
    requires Sound(m) && id !in ids && id in m.dungeons && ToRelease(m.dungeons[id], now, grace, lifetime)
    ensures
      var before := Swept(m, ids, now, grace, lifetime);
      && Lookup(before.dungeons, id) == Some(m.dungeons[id])
      && Swept(m, ids + {id}, now, grace, lifetime) == Closed(before, id)
  {
    hide DungeonsSound, AbsentLoggedOut, LoginsInverse, ToRelease, SweptDungeon;
    var before, after := Swept(m, ids, now, grace, lifetime), Swept(m, ids + {id}, now, grace, lifetime);
    assert after.dungeons == before.dungeons - {id};
    assert after.partyDungeons == before.partyDungeons - {m.dungeons[id].party};
  }

  lemma OneMoreKept(m: Registry, ids: set<DungeonId>, id: DungeonId, now: Time, grace: Time, lifetime: Time)
    requires Sound(m) && id !in ids && id in m.dungeons && !ToRelease(m.dungeons[id], now, grace, lifetime)
    ensures
      var before := Swept(m, ids, now, grace, lifetime);
      && Lookup(before.dungeons, id) == Some(m.dungeons[id])
      && Swept(m, ids + {id}, now, grace, lifetime) == Updated(before, id, SweptDungeon(m.dungeons[id], now, grace).roster)
  {
    hide DungeonsSound, AbsentLoggedOut, LoginsInverse, ToRelease, Expired, Dropped;
    var before, after := Swept(m, ids, now, grace, lifetime), Swept(m, ids + {id}, now, grace, lifetime);
    assert after.dungeons == before.dungeons[id := SweptDungeon(m.dungeons[id], now, grace)];
    assert after.partyDungeons == before.partyDungeons;
  }

  lemma ReportedOneMore(m: Registry, ids: set<DungeonId>, id: DungeonId, now: Time, grace: Time, lifetime: Time)
    requires id !in ids && id in m.dungeons
    ensures ReleasedIds(m, ids + {id}, now, grace, lifetime) ==
      ReleasedIds(m, ids, now, grace, lifetime) + if ToRelease(m.dungeons[id], now, grace, lifetime) then {id} else {}
    ensures id !in ReleasedIds(m, ids, now, grace, lifetime)
    ensures RemovedSeats(m, ids + {id}, now, grace, lifetime) ==
      RemovedSeats(m, ids, now, grace, lifetime) + SeatsIn(id, Leaving(m.dungeons[id], now, grace, lifetime))
    ensures SeatsIn(id, Leaving(m.dungeons[id], now, grace, lifetime)) !! RemovedSeats(m, ids, now, grace, lifetime)
  {
    hide ToRelease, Leaving;
  }

  /** A seat the sweep leaves alone: nobody is gone, or not for the whole grace period. */
  ghost predicate StillHeld(seat: Seat, now: Time, grace: Time) {
    seat.since.None? || now < seat.since.value + grace
  }

  ghost predicate SomebodyIn(d: Dungeon, now: Time, grace: Time) {
    exists s :: s in d.roster.seats && StillHeld(d.roster.seats[s], now, grace)
  }

  /** What a sweep leaves, field by field: which dungeons, which seats in them, and nothing else changed. */
  ghost predicate SweptExactly(m: Registry, m': Registry, now: Time, grace: Time, lifetime: Time) {
    && m'.next == m.next && m'.stopping == m.stopping
    && m'.authenticated == m.authenticated && m'.active == m.active
    && (forall id :: id in m'.dungeons <==>
          id in m.dungeons && now < m.dungeons[id].createdAt + lifetime && SomebodyIn(m.dungeons[id], now, grace))
    && (forall id :: id in m'.dungeons ==>
          && id in m.dungeons && m'.dungeons[id].party == m.dungeons[id].party
          && m'.dungeons[id].createdAt == m.dungeons[id].createdAt && m'.dungeons[id].state == m.dungeons[id].state
          && KeepsOrder(m.dungeons[id].roster.order, m'.dungeons[id].roster.order))
    && (forall id, s :: id in m'.dungeons ==> (s in m'.dungeons[id].roster.seats <==>
          s in m.dungeons[id].roster.seats && StillHeld(m.dungeons[id].roster.seats[s], now, grace)))
    && (forall id, s :: id in m'.dungeons && s in m'.dungeons[id].roster.seats ==>
          m'.dungeons[id].roster.seats[s] == m.dungeons[id].roster.seats[s])
    && (forall p :: p in m'.partyDungeons <==> p in m.partyDungeons && m.partyDungeons[p] in m'.dungeons)
    && (forall p :: p in m'.partyDungeons ==> m'.partyDungeons[p] == m.partyDungeons[p])
  }

  /** What a sweep reports, each once: the dungeons that are gone, and every seat that was
      overdue or in a dungeon too old. */
  ghost predicate ReportsExactly(
    m: Registry, m': Registry, released: seq<DungeonId>, removed: seq<(DungeonId, SessionId)>,
    now: Time, grace: Time, lifetime: Time)
  {
    && Distinct(released) && Distinct(removed)
    && (forall id :: id in released <==> id in m.dungeons && id !in m'.dungeons)
    && (forall id, s :: (id, s) in removed <==>
          && id in m.dungeons && s in m.dungeons[id].roster.seats
          && (m.dungeons[id].createdAt + lifetime <= now || !StillHeld(m.dungeons[id].roster.seats[s], now, grace)))
  }

  /** After a sweep a dungeon is there exactly if it was, is younger than the lifetime and has a
      seat whose session is not gone, or not for the whole grace period; exactly these seats are
      left in it, untouched and in their order. */
  lemma SweepLeavesNothingOverdue(m: Registry, now: Time, grace: Time, lifetime: Time)
    requires Sound(m) && grace > 0 && lifetime > 0
    ensures SweptExactly(m, Swept(m, m.dungeons.Keys, now, grace, lifetime), now, grace, lifetime)
  {
    hide Sound, WellSeated, SweptDungeon, ToRelease, KeepsOrder, StillHeld, SomebodyIn, PartiesInverse;
    SweptRosters(m, m.dungeons.Keys, now, grace, lifetime);
    SweptPartiesExactly(m, now, grace, lifetime);
    forall id | id in m.dungeons {
      ReleaseVerdict(m.dungeons[id], now, grace, lifetime);
    }
    forall id | id in m.dungeons {
      KeptBySweep(m.dungeons[id], now, grace);
    }
  }

  lemma SweptPartiesExactly(m: Registry, now: Time, grace: Time, lifetime: Time)
    requires Sound(m)
    ensures
      var m' := Swept(m, m.dungeons.Keys, now, grace, lifetime);
      && (forall p :: p in m'.partyDungeons <==> p in m.partyDungeons && m.partyDungeons[p] in m'.dungeons)
      && (forall p :: p in m'.partyDungeons ==> m'.partyDungeons[p] == m.partyDungeons[p])
  {
    hide Sound, ToRelease, SweptDungeon;
    PartiesOf(m);
  }

  lemma PartiesOf(m: Registry)
    requires Sound(m)
    ensures PartiesInverse(m.dungeons, m.partyDungeons)
  {
  }

  lemma ReleaseVerdict(d: Dungeon, now: Time, grace: Time, lifetime: Time)
    requires grace > 0 && lifetime > 0
    ensures ToRelease(d, now, grace, lifetime) <==>
      d.createdAt + lifetime <= now || !SomebodyIn(d, now, grace)
  {
    if !SomebodyIn(d, now, grace) {
      assert d.roster.seats.Keys <= Expired(d.roster, now, grace);
    }
  }

  lemma KeptBySweep(d: Dungeon, now: Time, grace: Time)
    requires grace > 0
    ensures
      var d' := SweptDungeon(d, now, grace);
      && d'.party == d.party && d'.createdAt == d.createdAt && d'.state == d.state
      && KeepsOrder(d.roster.order, d'.roster.order)
      && (forall s :: s in d'.roster.seats <==> s in d.roster.seats && StillHeld(d.roster.seats[s], now, grace))
      && (forall s :: s in d'.roster.seats ==> d'.roster.seats[s] == d.roster.seats[s])
  {
    hide KeepsOrder;
    ExcludingKeepsOrder(d.roster.order, Expired(d.roster, now, grace));
  }

  lemma SweepReportsExactly(
    m: Registry, released: seq<DungeonId>, removed: seq<(DungeonId, SessionId)>, now: Time, grace: Time, lifetime: Time)
    requires Sound(m) && grace > 0 && lifetime > 0
    requires ListsOnce(released, ReleasedIds(m, m.dungeons.Keys, now, grace, lifetime))
    requires ListsOnce(removed, RemovedSeats(m, m.dungeons.Keys, now, grace, lifetime))
    ensures ReportsExactly(
      m, Swept(m, m.dungeons.Keys, now, grace, lifetime), released, removed, now, grace, lifetime)
  {
    hide Sound, SweptDungeon, ToRelease, Leaving;
    SweptRosters(m, m.dungeons.Keys, now, grace, lifetime);
    forall id, s | id in m.dungeons && s in m.dungeons[id].roster.seats {
      LeavingVerdict(m.dungeons[id], s, now, grace, lifetime);
    }
    LeavingIsSeated(m, now, grace, lifetime);
    assert forall id, s :: (id, s) in removed <==> (id, s) in RemovedSeats(m, m.dungeons.Keys, now, grace, lifetime);
  }

  lemma LeavingVerdict(d: Dungeon, s: SessionId, now: Time, grace: Time, lifetime: Time)
    requires grace > 0 && lifetime > 0 && s in d.roster.seats
    ensures s in Leaving(d, now, grace, lifetime) <==>
      d.createdAt + lifetime <= now || !StillHeld(d.roster.seats[s], now, grace)
  {
  }

  lemma LeavingIsSeated(m: Registry, now: Time, grace: Time, lifetime: Time)
    ensures forall id, s :: id in m.dungeons && s in Leaving(m.dungeons[id], now, grace, lifetime) ==>
      s in m.dungeons[id].roster.seats
  {
  }

  lemma SweptRosters(m: Registry, ids: set<DungeonId>, now: Time, grace: Time, lifetime: Time)
    ensures
      var m' := Swept(m, ids, now, grace, lifetime);
      && m'.authenticated == m.authenticated && m'.active == m.active
      && (forall id :: id in m'.dungeons <==> id in m.dungeons && id !in ReleasedIds(m, ids, now, grace, lifetime))
      && forall id :: id in m'.dungeons ==>
           m'.dungeons[id] == if id in ids then SweptDungeon(m.dungeons[id], now, grace) else m.dungeons[id]
  {
    hide ToRelease, SweptDungeon;
  }

  // ---------------------------------------------------------------- the other steps

  ghost predicate Cancellable(m: Registry, id: DungeonId) {
    id in m.dungeons && m.dungeons[id].state.Waiting?
  }

  ghost predicate Finishable(m: Registry, id: DungeonId) {
    id in m.dungeons && !m.dungeons[id].state.Waiting?
  }

  ghost function Closed(m: Registry, id: DungeonId): Registry
    requires id in m.dungeons
  {
    m.(dungeons := m.dungeons - {id}, partyDungeons := m.partyDungeons - {m.dungeons[id].party})
  }

  lemma ClosedForgets(m: Registry, id: DungeonId, roster: Roster)
    requires id in m.dungeons
    ensures Closed(Updated(m, id, roster), id) == Closed(m, id)
  {
    assert Updated(m, id, roster).dungeons - {id} == m.dungeons - {id};
  }

  ghost function WithState(m: Registry, id: DungeonId, state: DungeonState): Registry
    requires id in m.dungeons
  {
    m.(dungeons := m.dungeons[id := m.dungeons[id].(state := state)])
  }

  ghost function Stopped(m: Registry): Registry {
    if m.stopping then m else Registry(m.next, map[], map[], map[], map[], true)
  }

  lemma ClosedIsSound(m: Registry, id: DungeonId)
    requires Sound(m) && id in m.dungeons
    ensures Sound(Closed(m, id))
  {
    hide WellSeated, LoginsInverse;
  }

  lemma WithStateIsSound(m: Registry, id: DungeonId, state: DungeonState)
    requires Sound(m) && id in m.dungeons
    ensures Sound(WithState(m, id, state))
  {
    hide WellSeated, LoginsInverse;
  }

  lemma StoppedIsSound(m: Registry)
    requires Sound(m)
    ensures Sound(Stopped(m))
  {
    hide WellSeated;
  }

  lemma ClosedForgetsState(m: Registry, id: DungeonId, state: DungeonState)
    requires id in m.dungeons
    ensures Closed(WithState(m, id, state), id) == Closed(m, id)
  {
    assert WithState(m, id, state).dungeons - {id} == m.dungeons - {id};
  }
}
