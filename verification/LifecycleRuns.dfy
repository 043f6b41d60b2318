/** Whole runs of the dungeon lifecycle (src/DungeonLifecycleService.cpp) and of the enter request
    (src/PacketDispatcher.cpp). The dungeon manager and the UDP manager have a lock each, a
    dungeon has one for its participants; a call takes one after the other, and other calls may
    get in between. Here every locked section is a step of its own, and what a call still has to
    do is part of the state. */
module LifecycleRuns {
  import opened Common
  import opened SeatTable
  import opened PlayerState
  import opened DungeonInstances
  import opened DungeonRegistry
  import opened UdpSession
  import opened DungeonUdpManagers

  /** A reconnect between its first and its last locked section: seat `old_` of dungeon `id` has
      become the new session's, the UDP token has not. `failed` once the UDP side refused. */
  datatype Reconnecting = Reconnecting(id: DungeonId, player: PlayerId, old_: SessionId, at: Time, failed: bool)

  /** An enter request between the creation of its dungeon and the end of its allocation: the session
      that asks, the participants it has read, whether the UDP side has refused them, and who was
      left in the dungeon when it was taken out of the manager, if it was: the request still holds
      the object. */
  datatype Entering =
    Entering(leader: SessionId, listed: Option<seq<SessionId>>, refused: bool, last: seq<SessionId>)

  /** An enter request after its allocation: it still has to look for the leader's token. `failed` once
      it has found none. */
  datatype Finding = Finding(leader: SessionId, failed: bool)

  /** How far a tick has come with a waiting dungeon: it has seen nobody gone, and after that, when
      `ready`, every endpoint there. */
  datatype Judging = Judging(ready: bool)

  datatype World = World(
    registry: Registry,
    udp: map<DungeonId, Udp>,
    entering: map<DungeonId, Entering>,
    finding: map<DungeonId, Finding>,
    judging: map<DungeonId, Judging>,
    reconnects: map<SessionId, Reconnecting>,
    abandoned: set<SessionId>,
    quiets: set<(DungeonId, SessionId)>,
    drops: set<(DungeonId, SessionId)>,
    releases: set<DungeonId>,
    registered: set<SessionId>,
    absent: set<SessionId>)

  const START := World(NEW_REGISTRY, map[], map[], map[], map[], map[], {}, {}, {}, {}, {}, {})

  datatype Event =
    | Open(leader: SessionId, party: PartyId, members: seq<SessionId>, now: Time, roster: Roster)
    | ListParticipants(id: DungeonId)
    | Allocate(id: DungeonId, tokens: map<SessionId, Token>, ready: bool)
    | FindToken(id: DungeonId)
    | GiveUp(id: DungeonId)
    | Register(s: SessionId, player: PlayerId, now: Time, grace: Time, r: Registration)
    | ReplaceUdp(s: SessionId, token: Option<Token>)
    | ReturnSeat(s: SessionId)
    | Abandon(s: SessionId, at: Time, found: Option<DungeonId>)
    | Disconnect(s: SessionId, at: Time, found: Option<DungeonId>)
    | QuietUdp(id: DungeonId, s: SessionId)
    | Sweep(now: Time, grace: Time, lifetime: Time)
    | DropUdp(id: DungeonId, s: SessionId)
    | ReleaseUdp(id: DungeonId)
    | Cancel(id: DungeonId)
    | Finish(id: DungeonId)
    | SeePresent(id: DungeonId)
    | SeeReady(id: DungeonId)
    | Start(id: DungeonId)
    | Clear(id: DungeonId)
    | Datagram(id: DungeonId, e: Traffic)

  /** Which steps can come next. What a session does comes one after the other on its own strand: it
      registers once and not while it is gone, asks when it has registered, and disconnects neither
      in the middle of its registration nor in the middle of a request of its own. */
  ghost predicate Enabled(w: World, e: Event) {
    match e
    case Open(leader, party, members, _, roster) =>
      && MayAsk(w, leader) && leader in members
      && Creatable(w.registry, party) && FreshRoster(w.registry, members, roster)
    case ListParticipants(id) => id in w.entering && w.entering[id].listed.None?
    case Allocate(id, tokens, ready) =>
      && id in w.entering && w.entering[id].listed.Some? && !w.entering[id].refused
      && (Granted(w, id, ready) ==> FreshTokens(tokens, w.entering[id].listed.value))
    case FindToken(id) => id in w.finding && !w.finding[id].failed
    case GiveUp(id) => (id in w.entering && w.entering[id].refused) || (id in w.finding && w.finding[id].failed)
    case Register(s, p, now, grace, r) =>
      s !in w.registered && s !in w.absent && CanAnswer(w.registry, s, p, now, grace, r)
    case ReplaceUdp(s, token) =>
      && s in w.reconnects && !w.reconnects[s].failed
      && (token.Some? ==> ReplacementAccepted(w.udp, w.reconnects[s].id, w.reconnects[s].old_, s, token.value))
    case ReturnSeat(s) => s in w.reconnects && w.reconnects[s].failed
    case Abandon(s, _, found) => s in w.abandoned && CanReport(w.registry, s, found)
    case Disconnect(s, _, found) =>
      s !in w.reconnects && s !in w.abandoned && !Asking(w, s) && CanReport(w.registry, s, found)
    case QuietUdp(id, s) => (id, s) in w.quiets
    case Sweep(_, grace, lifetime) => grace > 0 && lifetime > 0
    case DropUdp(id, s) => (id, s) in w.drops
    case ReleaseUdp(id) => id in w.releases
    case Cancel(id) => Cancellable(w.registry, id)
    case Finish(id) => Finishable(w.registry, id)
    case SeePresent(id) => Cancellable(w.registry, id) && !SomebodyGone(w.registry.dungeons[id])
    case SeeReady(id) => id in w.judging && EndpointsComplete(w, id)
    case Start(id) => Cancellable(w.registry, id) && id in w.judging && w.judging[id].ready
    case Clear(id) => id in w.registry.dungeons && w.registry.dungeons[id].state.Running?
    case Datagram(id, t) => id in w.udp && Possible(w.udp[id], t)
  }

  /** Whose enter request it is. */
  ghost predicate Leads(w: World, id: DungeonId, s: SessionId) {
    || (id in w.entering && w.entering[id].leader == s)
    || (id in w.finding && w.finding[id].leader == s)
  }

  ghost predicate Asking(w: World, s: SessionId) {
    exists id :: Leads(w, id, s)
  }

  /** A session that has registered, is still there, and has nothing else under way. */
  ghost predicate MayAsk(w: World, s: SessionId) {
    && s in w.registered && s !in w.absent && s !in w.reconnects && s !in w.abandoned && !Asking(w, s)
  }

  /** The UDP side has a token for the leader. */
  ghost predicate TokenThere(w: World, id: DungeonId)
    requires id in w.finding
  {
    id in w.udp && w.finding[id].leader in w.udp[id].tokens
  }

  ghost predicate SomebodyGone(d: Dungeon) {
    exists s :: s in d.roster.seats && d.roster.seats[s].since.Some?
  }

  ghost predicate EndpointsComplete(w: World, id: DungeonId) {
    id in w.udp && w.udp[id].endpoints.Keys == w.udp[id].tokens.Keys
  }

  /** The UDP side takes the participants that the request has read. */
  ghost predicate Granted(w: World, id: DungeonId, ready: bool)
    requires id in w.entering && w.entering[id].listed.Some?
  {
    AllocationAccepted(w.udp, false, id, w.entering[id].listed.value, ready)
  }

  /** Who is in the dungeon of an enter request when it asks: whoever sits there, or whoever did
      when the dungeon was taken out. A sweep takes everybody out first. */
  ghost function ParticipantsNow(w: World, id: DungeonId): seq<SessionId>
    requires id in w.entering
  {
    if id in w.registry.dungeons then w.registry.dungeons[id].roster.order else w.entering[id].last
  }

  /** A dungeon leaves the manager with its participants still in it. */
  ghost function LeftBehind(w: World, id: DungeonId): map<DungeonId, Entering>
    requires id in w.registry.dungeons
  {
    if id in w.entering then w.entering[id := w.entering[id].(last := w.registry.dungeons[id].roster.order)]
    else w.entering
  }

  ghost function Next(w: World, e: Event): World
    requires Enabled(w, e)
  {
    match e
    case Open(leader, party, _, now, roster) =>
      w.(registry := Opened(w.registry, party, now, roster),
         entering := w.entering[w.registry.next := Entering(leader, None, false, [])])
    case ListParticipants(id) =>
      w.(entering := w.entering[id := w.entering[id].(listed := Some(ParticipantsNow(w, id)))])
    case Allocate(id, tokens, ready) =>
      if Granted(w, id, ready) then
        w.(udp := w.udp[id := NewUdp(tokens)], entering := w.entering - {id},
           finding := w.finding[id := Finding(w.entering[id].leader, false)])
      else w.(entering := w.entering[id := w.entering[id].(refused := true)])
    case FindToken(id) =>
      if TokenThere(w, id) then w.(finding := w.finding - {id})
      else w.(finding := w.finding[id := w.finding[id].(failed := true)])
    case GiveUp(id) =>
      if Cancellable(w.registry, id) then
        w.(registry := Closed(w.registry, id), entering := w.entering - {id}, finding := w.finding - {id},
           releases := w.releases + {id})
      else w.(entering := w.entering - {id}, finding := w.finding - {id})
    case Register(s, p, now, grace, r) =>
      w.(registry := Answered(w.registry, s, p, grace, r),
         registered := w.registered + {s},
         reconnects := if r.Reconnected? then w.reconnects[s := Reconnecting(r.dungeonId, p, r.old_, r.at, false)]
                       else w.reconnects)
    case ReplaceUdp(s, token) =>
      var r := w.reconnects[s];
      if token.None? then w.(reconnects := w.reconnects[s := r.(failed := true)])
      else w.(udp := w.udp[r.id := Replaced(w.udp[r.id], r.old_, s, token.value)], reconnects := w.reconnects - {s})
    case ReturnSeat(s) =>
      var r := w.reconnects[s];
      if CanReturn(w.registry, r.id, r.player, s, r.old_)
      then w.(registry := Returned(w.registry, r.id, r.player, s, r.old_, r.at), reconnects := w.reconnects - {s})
      else w.(reconnects := w.reconnects - {s}, abandoned := w.abandoned + {s})
    case Abandon(s, at, found) =>
      w.(registry := Departed(w.registry, s, at, found), abandoned := w.abandoned - {s}, absent := w.absent + {s})
    case Disconnect(s, at, found) =>
      w.(registry := Departed(w.registry, s, at, found), absent := w.absent + {s},
         quiets := if found.Some? then w.quiets + {(found.value, s)} else w.quiets)
    case QuietUdp(id, s) => w.(udp := Quieted(w.udp, id, s), quiets := w.quiets - {(id, s)})
    case Sweep(now, grace, lifetime) =>
      var all := w.registry.dungeons.Keys;
      w.(registry := Swept(w.registry, all, now, grace, lifetime),
         drops := w.drops + RemovedSeats(w.registry, all, now, grace, lifetime),
         releases := w.releases + ReleasedIds(w.registry, all, now, grace, lifetime))
    case DropUdp(id, s) => w.(udp := Untokened(w.udp, id, s), drops := w.drops - {(id, s)})
    case ReleaseUdp(id) => w.(udp := w.udp - {id}, releases := w.releases - {id})
    case Cancel(id) =>
      w.(registry := Closed(w.registry, id), entering := LeftBehind(w, id), releases := w.releases + {id})
    case Finish(id) =>
      w.(registry := Closed(w.registry, id), entering := LeftBehind(w, id), releases := w.releases + {id})
    case SeePresent(id) => w.(judging := w.judging[id := Judging(false)])
    case SeeReady(id) => w.(judging := w.judging[id := Judging(true)])
    case Start(id) => w.(registry := WithState(w.registry, id, Running), judging := w.judging - {id})
    case Clear(id) => w.(registry := WithState(w.registry, id, Finished))
    case Datagram(id, t) => w.(udp := w.udp[id := Handled(w.udp[id], t)])
  }

  // ---------------------------------------------------------------- the invariant

  ghost function NewsAt(reconnects: map<SessionId, Reconnecting>, id: DungeonId): set<SessionId> {
    set s | s in reconnects && reconnects[s].id == id
  }

  ghost function OldsAt(reconnects: map<SessionId, Reconnecting>, id: DungeonId): set<SessionId> {
    set s | s in reconnects && reconnects[s].id == id :: reconnects[s].old_
  }

  ghost function DropsAt(drops: set<(DungeonId, SessionId)>, id: DungeonId): set<SessionId> {
    set d | d in drops && d.0 == id :: d.1
  }

  /** Whose tokens a live dungeon's UDP session must hold: those of the seats, except that a seat
      whose reconnect is under way still has its old session's token. */
  ghost function Expected(seated: set<SessionId>, reconnects: map<SessionId, Reconnecting>, id: DungeonId)
    : set<SessionId>
  {
    seated - NewsAt(reconnects, id) + OldsAt(reconnects, id)
  }

  /** It holds those, and besides them at most the tokens of dropped seats that the UDP side has
      still to be told about. */
  ghost predicate HoldersFit(
    holders: set<SessionId>, seated: set<SessionId>, reconnects: map<SessionId, Reconnecting>,
    drops: set<(DungeonId, SessionId)>, id: DungeonId)
  {
    Expected(seated, reconnects, id) <= holders <= Expected(seated, reconnects, id) + DropsAt(drops, id)
  }

  ghost predicate TokensFit(w: World) {
    forall id :: id in w.registry.dungeons && id in w.udp ==>
      HoldersFit(w.udp[id].tokens.Keys, w.registry.dungeons[id].roster.seats.Keys, w.reconnects, w.drops, id)
  }

  /** Each live dungeon has its UDP session or is still being entered, never both; besides them
      there are only the sessions of dungeons whose release is under way. */
  ghost predicate UdpIdsFit(w: World) {
    && w.udp.Keys <= w.registry.dungeons.Keys + w.releases
    && w.registry.dungeons.Keys <= w.udp.Keys + w.entering.Keys
    && w.entering.Keys !! w.udp.Keys
  }

  /** What is still to be done is about numbers that were given out, and never released twice. */
  ghost predicate NumbersFit(w: World) {
    && w.releases !! w.registry.dungeons.Keys
    && w.entering.Keys !! w.finding.Keys
    && forall id :: id in w.releases || id in w.entering || id in w.finding || id in w.judging ==>
         id < w.registry.next
  }

  ghost predicate UdpConsistent(udp: map<DungeonId, Udp>) {
    forall id :: id in udp ==> Consistent(udp[id])
  }

  /** The seat of a reconnect under way waits for its token; nobody else claims the old name. */
  ghost predicate ReconnectFits(w: World, s: SessionId, r: Reconnecting) {
    && s in w.registered && s !in w.absent && s !in w.abandoned && r.old_ in w.absent && r.id < w.registry.next
    && s != 0 && r.old_ != 0
    && (s in w.registry.authenticated ==> w.registry.authenticated[s] == r.player)
    && (r.id in w.registry.dungeons ==>
          var seats := w.registry.dungeons[r.id].roster.seats;
          && s in seats && seats[s].player == Some(r.player) && seats[s].since.None?
          && r.old_ !in seats && (r.id, r.old_) !in w.drops)
  }

  ghost predicate ReconnectsFit(w: World) {
    && (forall s :: s in w.reconnects ==> ReconnectFits(w, s, w.reconnects[s]))
    && forall s, t | s in w.reconnects && t in w.reconnects && s != t && w.reconnects[s].id in w.registry.dungeons ::
         !SameOld(w.reconnects[s], w.reconnects[t])
  }

  ghost predicate SameOld(a: Reconnecting, b: Reconnecting) {
    a.id == b.id && a.old_ == b.old_
  }

  ghost predicate DropsFit(w: World) {
    forall d :: d in w.drops ==>
      && d.0 < w.registry.next
      && (d.0 in w.registry.dungeons ==> d.1 !in w.registry.dungeons[d.0].roster.seats && d.1 in w.absent)
  }

  ghost predicate SessionsFit(w: World) {
    && w.registry.authenticated.Keys <= w.registered
    && w.registry.authenticated.Keys !! w.absent
    && w.abandoned <= w.registered
    && (forall id, s :: Seated(w.registry, id, s) && w.registry.dungeons[id].roster.seats[s].since.Some? ==> s in w.absent)
  }

  /** A dungeon still being entered waits, and no tick has found its endpoints complete. */
  ghost predicate EnteringFits(w: World) {
    forall id :: id in w.entering ==>
      && (id in w.registry.dungeons ==> w.registry.dungeons[id].state.Waiting?)
      && (id in w.judging ==> !w.judging[id].ready)
  }

  /** The leader of a request under way is there, and as long as its dungeon is: in its seat, on the list
      that the request has read, and with its token once that has been allocated. */
  ghost predicate LeaderFits(w: World, id: DungeonId, s: SessionId) {
    && s in w.registered && s !in w.absent && s !in w.reconnects && s !in w.abandoned
    && (id in w.registry.dungeons ==>
          && Seated(w.registry, id, s) && w.registry.dungeons[id].roster.seats[s].since.None?
          && (id in w.entering && w.entering[id].listed.Some? ==> s in w.entering[id].listed.value)
          && (id in w.finding ==> !w.finding[id].failed && TokenThere(w, id)))
  }

  ghost predicate LeadersFit(w: World) {
    forall id, s :: Leads(w, id, s) ==> LeaderFits(w, id, s)
  }

  /** Whatever the UDP side has been told: it knows only numbers that were given out, and none of a
      dungeon that is still being entered; and such a dungeon waits. */
  ghost predicate WaitsFit(w: World) {
    (forall id :: id in w.udp ==> id < w.registry.next) && w.entering.Keys !! w.udp.Keys && EnteringFits(w)
  }

  /** What holds of the manager and of the calls under way, whatever the UDP side has been told. */
  ghost predicate RegistryFits(w: World) {
    && Sound(w.registry) && NumbersFit(w) && ReconnectsFit(w) && DropsFit(w) && SessionsFit(w)
  }

  /** What holds of the UDP side. */
  ghost predicate UdpFits(w: World) {
    UdpIdsFit(w) && UdpConsistent(w.udp) && TokensFit(w) && EnteringFits(w)
  }

  ghost predicate Invariant(w: World) {
    RegistryFits(w) && LeadersFit(w) && UdpFits(w)
  }

  // ---------------------------------------------------------------- how the name sets change

  lemma ReconnectAdded(reconnects: map<SessionId, Reconnecting>, s: SessionId, r: Reconnecting, id: DungeonId)
    requires s !in reconnects
    ensures NewsAt(reconnects[s := r], id) == NewsAt(reconnects, id) + if r.id == id then {s} else {}
    ensures OldsAt(reconnects[s := r], id) == OldsAt(reconnects, id) + if r.id == id then {r.old_} else {}
  {
    var more := reconnects[s := r];
    forall o | o in OldsAt(reconnects, id) || (r.id == id && o == r.old_)
      ensures o in OldsAt(more, id)
    {
      if r.id == id && o == r.old_ {
        assert more[s].old_ == o;
      } else {
        var t :| t in reconnects && reconnects[t].id == id && reconnects[t].old_ == o;
        assert more[t].old_ == o;
      }
    }
  }

  lemma ReconnectRemoved(reconnects: map<SessionId, Reconnecting>, s: SessionId, id: DungeonId)
    requires s in reconnects
    requires reconnects[s].id == id ==>
      forall t :: t in reconnects && t != s ==> !SameOld(reconnects[s], reconnects[t])
    ensures reconnects[s].id == id ==>
      && NewsAt(reconnects - {s}, id) == NewsAt(reconnects, id) - {s}
      && OldsAt(reconnects - {s}, id) == OldsAt(reconnects, id) - {reconnects[s].old_}
    ensures reconnects[s].id != id ==>
      NewsAt(reconnects - {s}, id) == NewsAt(reconnects, id) && OldsAt(reconnects - {s}, id) == OldsAt(reconnects, id)
  {
    var fewer := reconnects - {s};
    forall o | o in OldsAt(reconnects, id) && !(reconnects[s].id == id && o == reconnects[s].old_)
      ensures o in OldsAt(fewer, id)
    {
      var t :| t in reconnects && reconnects[t].id == id && reconnects[t].old_ == o;
      assert fewer[t].old_ == o;
    }
    forall o | o in OldsAt(fewer, id)
      ensures o in OldsAt(reconnects, id) && !(reconnects[s].id == id && o == reconnects[s].old_)
    {
      var t :| t in fewer && fewer[t].id == id && fewer[t].old_ == o;
      assert reconnects[t].old_ == o;
      assert !(reconnects[s].id == id && SameOld(reconnects[s], reconnects[t]));
    }
  }

  lemma ReconnectFailed(reconnects: map<SessionId, Reconnecting>, s: SessionId, id: DungeonId)
    requires s in reconnects
    ensures
      var after := reconnects[s := reconnects[s].(failed := true)];
      NewsAt(after, id) == NewsAt(reconnects, id) && OldsAt(after, id) == OldsAt(reconnects, id)
  {
    var after := reconnects[s := reconnects[s].(failed := true)];
    forall o | o in OldsAt(reconnects, id)
      ensures o in OldsAt(after, id)
    {
      var t :| t in reconnects && reconnects[t].id == id && reconnects[t].old_ == o;
      assert after[t].old_ == o;
    }
  }

  lemma DropRemoved(drops: set<(DungeonId, SessionId)>, at: DungeonId, s: SessionId, id: DungeonId)
    ensures DropsAt(drops - {(at, s)}, id) == DropsAt(drops, id) - if at == id then {s} else {}
  {
    forall o | o in DropsAt(drops, id) && !(at == id && o == s)
      ensures o in DropsAt(drops - {(at, s)}, id)
    {
      assert (id, o) in drops - {(at, s)};
    }
  }

  lemma DropsAdded(a: set<(DungeonId, SessionId)>, b: set<(DungeonId, SessionId)>, id: DungeonId)
    ensures DropsAt(a + b, id) == DropsAt(a, id) + DropsAt(b, id)
  {
    forall o | o in DropsAt(a, id) + DropsAt(b, id)
      ensures o in DropsAt(a + b, id)
    {
      assert (id, o) in a + b;
    }
  }

  /** Names at a new id: there are none. */
  lemma NothingAtNewId(w: World, id: DungeonId)
    requires ReconnectsFit(w) && DropsFit(w) && id >= w.registry.next
    ensures NewsAt(w.reconnects, id) == {} && OldsAt(w.reconnects, id) == {} && DropsAt(w.drops, id) == {}
  {
  }

  /** What the sets hold at a live dungeon. */
  lemma NamesAt(w: World, id: DungeonId)
    requires ReconnectsFit(w) && DropsFit(w) && id in w.registry.dungeons
    ensures
      var seats := w.registry.dungeons[id].roster.seats;
      && NewsAt(w.reconnects, id) <= seats.Keys && NewsAt(w.reconnects, id) !! w.absent
      && OldsAt(w.reconnects, id) !! seats.Keys && OldsAt(w.reconnects, id) <= w.absent
      && DropsAt(w.drops, id) !! seats.Keys && DropsAt(w.drops, id) <= w.absent
      && OldsAt(w.reconnects, id) !! DropsAt(w.drops, id)
      && (forall s :: s in NewsAt(w.reconnects, id) ==> seats[s].since.None?)
  {
  }

  // ---------------------------------------------------------------- the steps

  /** The same dungeons with the same names on the seats; seats may have been bound, and the one
      of `s` reported gone. */
  ghost predicate SameNames(m: Registry, m': Registry, s: SessionId) {
    && m'.next == m.next && m'.dungeons.Keys == m.dungeons.Keys
    && forall id :: id in m.dungeons ==> SameSeats(m.dungeons[id].roster.seats, m'.dungeons[id].roster.seats, s)
  }

  /** No dungeon is new, and none waits that did not. */
  ghost predicate SameStates(m: Registry, m': Registry) {
    && m'.next >= m.next
    && forall id :: id in m'.dungeons ==> id in m.dungeons && m'.dungeons[id].state == m.dungeons[id].state
  }

  ghost predicate SameSeats(seats: map<SessionId, Seat>, seats': map<SessionId, Seat>, s: SessionId) {
    && seats'.Keys == seats.Keys
    && forall t :: t in seats ==>
      && (seats[t].player.Some? ==> seats'[t].player == seats[t].player)
      && (t != s ==> seats'[t].since == seats[t].since)
  }

  /** Nobody but `s` is newly logged in, or as somebody else. */
  ghost predicate SameLogins(before: map<SessionId, PlayerId>, after: map<SessionId, PlayerId>, s: SessionId) {
    forall t :: t in after && t != s ==> t in before && before[t] == after[t]
  }

  lemma SameStatesKeep(w: World, w': World)
    requires EnteringFits(w) && SameStates(w.registry, w'.registry)
    requires w'.entering == w.entering && w'.judging == w.judging
    ensures EnteringFits(w')
  {
  }

  /** Half-done calls survive a step that keeps the names. */
  lemma SameNamesKeep(w: World, w': World, s: SessionId)
    requires NumbersFit(w) && ReconnectsFit(w) && DropsFit(w)
    requires SameNames(w.registry, w'.registry, s) && s !in w.reconnects
    requires w'.reconnects == w.reconnects && w'.drops == w.drops && w'.releases == w.releases
    requires w'.entering == w.entering && w'.finding == w.finding && w'.judging.Keys <= w.judging.Keys
    requires w'.abandoned <= w.abandoned && w.registered <= w'.registered && w.absent <= w'.absent <= w.absent + {s}
    requires SameLogins(w.registry.authenticated, w'.registry.authenticated, s)
    ensures NumbersFit(w') && ReconnectsFit(w') && DropsFit(w')
  {
    forall n | n in w'.reconnects
      ensures ReconnectFits(w', n, w'.reconnects[n])
    {
      assert ReconnectFits(w, n, w.reconnects[n]);
      var id := w.reconnects[n].id;
      if id in w.registry.dungeons {
        assert SameSeats(w.registry.dungeons[id].roster.seats, w'.registry.dungeons[id].roster.seats, s);
      }
    }
  }

  /** And so does the UDP side. */
  lemma SameNamesUdp(w: World, w': World, s: SessionId)
    requires UdpIdsFit(w) && UdpConsistent(w.udp) && TokensFit(w) && SameNames(w.registry, w'.registry, s)
    requires w'.udp == w.udp && w'.reconnects == w.reconnects && w'.drops == w.drops && w'.releases == w.releases
    requires w'.entering == w.entering
    ensures UdpIdsFit(w') && UdpConsistent(w'.udp) && TokensFit(w')
  {
    hide HoldersFit, UdpConsistent, SameSeats;
    TokensOfSameNames(w, w', s);
  }

  lemma TokensOfSameNames(w: World, w': World, s: SessionId)
    requires TokensFit(w) && SameNames(w.registry, w'.registry, s)
    requires w'.udp == w.udp && w'.reconnects == w.reconnects && w'.drops == w.drops
    ensures TokensFit(w')
  {
    hide HoldersFit;
    forall id | id in w'.registry.dungeons
      ensures w'.registry.dungeons[id].roster.seats.Keys == w.registry.dungeons[id].roster.seats.Keys
    {
      assert SameSeats(w.registry.dungeons[id].roster.seats, w'.registry.dungeons[id].roster.seats, s);
    }
  }

  // ---------------------------------------------------------------- what a step leaves alone

  /** What a session does on its own strand. */
  ghost predicate OnStrand(e: Event) {
    e.Register? || e.ReplaceUdp? || e.ReturnSeat? || e.Abandon? || e.Disconnect?
  }

  /** The sections of enter requests. */
  ghost predicate InRequest(e: Event) {
    e.Open? || e.ListParticipants? || e.Allocate? || e.FindToken? || e.GiveUp?
  }

  /** The sections of the UDP manager. */
  ghost predicate OnUdp(e: Event) {
    e.Allocate? || e.ReplaceUdp? || e.QuietUdp? || e.DropUdp? || e.ReleaseUdp? || e.Datagram?
  }

  /** Those of the dungeon manager and of dungeons that change something there. */
  ghost predicate OnRegistry(e: Event) {
    || e.Open? || e.GiveUp? || e.Register? || e.ReturnSeat? || e.Abandon? || e.Disconnect? || e.Sweep?
    || e.Cancel? || e.Finish? || e.Start? || e.Clear?
  }

  lemma SessionsStay(w: World, e: Event)
    requires Enabled(w, e) && !OnStrand(e)
    ensures
      var w' := Next(w, e);
      && w'.registered == w.registered && w'.absent == w.absent
      && w'.reconnects == w.reconnects && w'.abandoned == w.abandoned
  {
    hide Opened, Closed, WithState, LeftBehind, ParticipantsNow, Granted, TokenThere, Cancellable, Swept, RemovedSeats;
    hide ReleasedIds, Handled, Quieted, Untokened, MayAsk, Creatable, FreshRoster, FreshTokens, Finishable, Possible;
    hide SomebodyGone, EndpointsComplete;
  }

  lemma RequestsStay(w: World, e: Event)
    requires Enabled(w, e) && !InRequest(e)
    ensures Next(w, e).finding == w.finding
    ensures Next(w, e).entering ==
      if (e.Cancel? || e.Finish?) && e.id in w.registry.dungeons then LeftBehind(w, e.id) else w.entering
  {
    hide Closed, WithState, LeftBehind, Swept, RemovedSeats, ReleasedIds, Handled, Quieted, Untokened, Possible;
    hide Answered, CanAnswer, Departed, CanReport, Returned, CanReturn, ReplacementAccepted, Replaced, SomebodyGone;
    hide EndpointsComplete, Asking;
  }

  lemma UdpStays(w: World, e: Event)
    requires Enabled(w, e) && !OnUdp(e)
    ensures Next(w, e).udp == w.udp
  {
    hide Opened, Closed, WithState, LeftBehind, ParticipantsNow, TokenThere, Swept, RemovedSeats, ReleasedIds;
    hide Answered, CanAnswer, Departed, CanReport, Returned, CanReturn, SomebodyGone, EndpointsComplete, Asking, MayAsk;
    hide Creatable, FreshRoster;
  }

  lemma RegistryStays(w: World, e: Event)
    requires Enabled(w, e) && !OnRegistry(e)
    ensures Next(w, e).registry == w.registry
  {
    hide ParticipantsNow, TokenThere, Granted, FreshTokens, Handled, Quieted, Untokened, Possible, SomebodyGone;
    hide ReplacementAccepted, Replaced, EndpointsComplete;
  }

  // ---------------------------------------------------------------- the enter request

  lemma OpenKeepsRegistry(w: World, e: Event)
    requires RegistryFits(w) && Enabled(w, e) && e.Open?
    ensures RegistryFits(Next(w, e))
  {
    hide Enabled, Next, Sound, NumbersFit, ReconnectsFit, DropsFit, SessionsFit, FreshRoster, Opened;
    OpenIs(w, e);
    var w' := Next(w, e);
    OpenedIsSound(w.registry, e.party, e.now, e.members, e.roster);
    OpenedNumbers(w, w', e);
    OpenedReconnects(w, w', e.party, e.now, e.roster);
    OpenedSessions(w, w', e.party, e.now, e.members, e.roster);
  }

  lemma OpenKeepsUdp(w: World, e: Event)
    requires RegistryFits(w) && UdpFits(w) && Enabled(w, e) && e.Open?
    ensures UdpFits(Next(w, e))
  {
    hide Enabled, Next, Sound, UdpIdsFit, TokensFit, EnteringFits, ReconnectsFit, DropsFit, SessionsFit, FreshRoster;
    hide UdpConsistent, Opened;
    OpenIs(w, e);
    OpenedIds(w, Next(w, e), e);
    OpenedWaits(w, Next(w, e), e);
    OpenedTokens(w, Next(w, e), e.party, e.now, e.roster);
  }

  lemma OpenIs(w: World, e: Event)
    requires e.Open? && Enabled(w, e)
    ensures Creatable(w.registry, e.party) && e.members != [] && FreshRoster(w.registry, e.members, e.roster)
    ensures MayAsk(w, e.leader) && e.leader in e.members
    ensures Next(w, e) == w.(
      registry := Opened(w.registry, e.party, e.now, e.roster),
      entering := w.entering[w.registry.next := Entering(e.leader, None, false, [])])
  {
    hide FreshRoster, Opened, MayAsk;
  }

  lemma OpenedNumbers(w: World, w': World, e: Event)
    requires Sound(w.registry) && NumbersFit(w) && e.Open?
    requires w' == w.(
      registry := Opened(w.registry, e.party, e.now, e.roster),
      entering := w.entering[w.registry.next := Entering(e.leader, None, false, [])])
    ensures NumbersFit(w')
  {
    hide Sound;
    assert w'.registry.dungeons.Keys == w.registry.dungeons.Keys + {w.registry.next};
    assert w'.entering.Keys == w.entering.Keys + {w.registry.next};
  }

  lemma OpenedIds(w: World, w': World, e: Event)
    requires Sound(w.registry) && NumbersFit(w) && UdpIdsFit(w) && e.Open?
    requires w' == w.(
      registry := Opened(w.registry, e.party, e.now, e.roster),
      entering := w.entering[w.registry.next := Entering(e.leader, None, false, [])])
    ensures UdpIdsFit(w') && w.registry.next !in w.udp
  {
    hide Sound;
    BelowNext(w.registry);
    assert w'.registry.dungeons.Keys == w.registry.dungeons.Keys + {w.registry.next};
    assert w'.entering.Keys == w.entering.Keys + {w.registry.next};
  }

  lemma OpenedWaits(w: World, w': World, e: Event)
    requires NumbersFit(w) && EnteringFits(w) && e.Open?
    requires w'.judging == w.judging && w'.registry == Opened(w.registry, e.party, e.now, e.roster)
    requires w'.entering == w.entering[w.registry.next := Entering(e.leader, None, false, [])]
    ensures EnteringFits(w')
  {
  }

  lemma BelowNext(m: Registry)
    requires Sound(m)
    ensures forall id :: id in m.dungeons ==> id < m.next
  {
  }

  lemma OpenedTokens(w: World, w': World, party: PartyId, now: Time, roster: Roster)
    requires TokensFit(w) && w.registry.next !in w.udp
    requires w'.registry == Opened(w.registry, party, now, roster) && w'.udp == w.udp
    requires w'.reconnects == w.reconnects && w'.drops == w.drops
    ensures TokensFit(w')
  {
    hide HoldersFit;
  }

  /** What an enter request notes down for itself, and what a tick has seen, is nobody else's business. */
  lemma NotedKeeps(w: World, w': World)
    requires UdpFits(w) && w'.registry == w.registry && w'.udp == w.udp && w'.reconnects == w.reconnects
    requires w'.drops == w.drops && w'.releases == w.releases && w'.entering.Keys == w.entering.Keys
    requires forall id :: id in w'.judging && w'.judging[id].ready ==>
      id in w.udp || (id in w.judging && w.judging[id].ready)
    ensures UdpFits(w')
  {
    hide HoldersFit, UdpConsistent;
  }

  /** The participants an allocation is given are the right ones, or it does not matter because
      the dungeon is about to be released. */
  ghost predicate InTime(w: World, e: Event)
    requires e.Allocate? && Enabled(w, e)
  {
    Granted(w, e.id, e.ready) ==>
      || e.id in w.releases
      || (e.id in w.registry.dungeons &&
          HoldersFit(Listed(w, e.id), w.registry.dungeons[e.id].roster.seats.Keys, w.reconnects, w.drops, e.id))
  }

  ghost function Listed(w: World, id: DungeonId): set<SessionId>
    requires id in w.entering && w.entering[id].listed.Some?
  {
    set s | s in w.entering[id].listed.value
  }

  /** The exact condition: an allocation keeps the two sides together if and only if it is refused,
      its dungeon is about to be released, or its dungeon is there and the participants that were
      read are those whose tokens the UDP side must hold now. */
  lemma AllocationKeepsIff(w: World, e: Event)
    requires Invariant(w) && Enabled(w, e) && e.Allocate?
    ensures Invariant(Next(w, e)) <==> InTime(w, e)
  {
    hide Enabled, Next, RegistryFits, LeadersFit, UdpFits, InTime;
    RegistryStepKeeps(w, e);
    LeadersKeep(w, e);
    AllocationKeepsUdpIff(w, e);
  }

  lemma AllocationKeepsUdpIff(w: World, e: Event)
    requires RegistryFits(w) && UdpFits(w) && Enabled(w, e) && e.Allocate?
    ensures UdpFits(Next(w, e)) <==> InTime(w, e)
  {
    hide Sound, UdpConsistent, ReconnectsFit, DropsFit, SessionsFit, HoldersFit;
    if Granted(w, e.id, e.ready) {
      NewUdpConsistent(e.tokens);
      AddedConsistent(w.udp, e.id, NewUdp(e.tokens));
      assert e.tokens.Keys == Listed(w, e.id);
      AllocatedIff(w, Next(w, e), e.id, Listed(w, e.id));
    } else {
      NotedKeeps(w, Next(w, e));
    }
  }

  lemma AddedConsistent(udp: map<DungeonId, Udp>, id: DungeonId, u: Udp)
    requires UdpConsistent(udp) && Consistent(u)
    ensures UdpConsistent(udp[id := u])
  {
    hide Consistent;
  }

  lemma AllocatedIff(w: World, w': World, id: DungeonId, holders: set<SessionId>)
    requires NumbersFit(w) && UdpIdsFit(w) && TokensFit(w) && EnteringFits(w) && id in w.entering
    requires id in w'.udp
    requires w' == w.(udp := w.udp[id := w'.udp[id]], entering := w.entering - {id}, finding := w'.finding)
    requires w'.udp[id].tokens.Keys == holders
    ensures EnteringFits(w')
    ensures UdpIdsFit(w') && TokensFit(w') <==>
      || id in w.releases
      || (id in w.registry.dungeons &&
          HoldersFit(holders, w.registry.dungeons[id].roster.seats.Keys, w.reconnects, w.drops, id))
  {
    hide HoldersFit;
    if id in w.registry.dungeons {
      assert TokensFit(w') ==>
        HoldersFit(w'.udp[id].tokens.Keys, w'.registry.dungeons[id].roster.seats.Keys, w'.reconnects, w'.drops, id);
    }
  }

  /** When the participants were read just before, the condition is that no reconnect to this
      dungeon is under way: its seat already has the new name, its token never will. */
  lemma FreshListIsInTime(w: World, e: Event)
    requires Invariant(w) && Enabled(w, e) && e.Allocate? && Granted(w, e.id, e.ready)
    requires e.id in w.registry.dungeons
    requires w.entering[e.id].listed == Some(w.registry.dungeons[e.id].roster.order)
    ensures InTime(w, e) <==> NewsAt(w.reconnects, e.id) == {}
  {
    hide UdpConsistent, TokensFit, SessionsFit, LoginsInverse, PartiesInverse, AbsentLoggedOut, LeadersFit, Next;
    var d := w.registry.dungeons[e.id];
    assert WellSeated(d.roster);
    ListedSeats(d.roster);
    NamesAt(w, e.id);
    assert Listed(w, e.id) == d.roster.seats.Keys;
    NewsAndOlds(w.reconnects, e.id);
  }

  lemma ListedSeats(r: Roster)
    requires WellSeated(r)
    ensures (set s | s in r.order) == r.seats.Keys
  {
  }

  lemma NewsAndOlds(reconnects: map<SessionId, Reconnecting>, id: DungeonId)
    ensures NewsAt(reconnects, id) == {} <==> OldsAt(reconnects, id) == {}
  {
    if NewsAt(reconnects, id) != {} {
      var s :| s in NewsAt(reconnects, id);
      assert reconnects[s].old_ in OldsAt(reconnects, id);
    }
    if OldsAt(reconnects, id) != {} {
      var s :| s in reconnects && reconnects[s].id == id;
      assert s in NewsAt(reconnects, id);
    }
  }

  lemma OpenedReconnects(w: World, w': World, party: PartyId, now: Time, roster: Roster)
    requires ReconnectsFit(w) && DropsFit(w)
    requires w'.registry == Opened(w.registry, party, now, roster) && w'.reconnects == w.reconnects && w'.drops == w.drops
    requires w'.registered == w.registered && w'.absent == w.absent && w'.abandoned == w.abandoned
    ensures ReconnectsFit(w') && DropsFit(w')
  {
    forall n | n in w'.reconnects
      ensures ReconnectFits(w', n, w'.reconnects[n])
    {
      assert ReconnectFits(w, n, w.reconnects[n]);
    }
  }

  lemma OpenedSessions(w: World, w': World, party: PartyId, now: Time, members: seq<SessionId>, roster: Roster)
    requires SessionsFit(w) && FreshRoster(w.registry, members, roster)
    requires w'.registry == Opened(w.registry, party, now, roster)
    requires w'.registered == w.registered && w'.absent == w.absent && w'.abandoned == w.abandoned
    ensures SessionsFit(w')
  {
    hide WellSeated;
    forall id, s | Seated(w'.registry, id, s) && w'.registry.dungeons[id].roster.seats[s].since.Some?
      ensures s in w'.absent
    {
      assert Seated(w.registry, id, s);
    }
  }

  lemma NewUdpConsistent(tokens: map<SessionId, Token>)
    requires TokensTellApart(tokens)
    ensures Consistent(NewUdp(tokens))
  {
  }

  // ---------------------------------------------------------------- departures

  lemma DepartureKeepsRegistry(w: World, e: Event)
    requires RegistryFits(w) && Enabled(w, e) && (e.Abandon? || e.Disconnect?)
    ensures RegistryFits(Next(w, e))
  {
    hide Sound, NumbersFit, ReconnectsFit, DropsFit, SessionsFit, SameNames, Departed, Asking;
    AbandonedIsOver(w);
    DepartedIsSound(w.registry, e.s, e.at, e.found);
    DepartedNames(w.registry, e.s, e.at, e.found);
    SameNamesKeep(w, Next(w, e), e.s);
    DepartedSessions(w, Next(w, e), e.s, e.at, e.found);
  }

  lemma DepartureKeepsUdp(w: World, e: Event)
    requires UdpFits(w) && Enabled(w, e) && (e.Abandon? || e.Disconnect?)
    ensures UdpFits(Next(w, e))
  {
    hide UdpIdsFit, TokensFit, UdpConsistent, SameNames, Departed, Asking;
    DepartedNames(w.registry, e.s, e.at, e.found);
    SameNamesUdp(w, Next(w, e), e.s);
    DepartedStates(w.registry, e.s, e.at, e.found);
    SameStatesKeep(w, Next(w, e));
  }

  lemma DepartedStates(m: Registry, s: SessionId, at: Time, found: Option<DungeonId>)
    requires CanReport(m, s, found)
    ensures SameStates(m, Departed(m, s, at, found)) && Departed(m, s, at, found).dungeons.Keys == m.dungeons.Keys
  {
    hide Vacated;
  }

  lemma AbandonedIsOver(w: World)
    requires ReconnectsFit(w)
    ensures forall s :: s in w.abandoned ==> s !in w.reconnects
    ensures 0 !in w.reconnects
  {
    forall s | s in w.reconnects
      ensures s !in w.abandoned && s != 0
    {
      assert ReconnectFits(w, s, w.reconnects[s]);
    }
  }

  lemma DepartedNames(m: Registry, s: SessionId, at: Time, found: Option<DungeonId>)
    requires CanReport(m, s, found)
    ensures SameNames(m, Departed(m, s, at, found), s)
    ensures SameLogins(m.authenticated, Departed(m, s, at, found).authenticated, s)
  {
  }

  lemma DepartedSessions(w: World, w': World, s: SessionId, at: Time, found: Option<DungeonId>)
    requires Sound(w.registry) && SessionsFit(w) && CanReport(w.registry, s, found)
    requires w'.registry == Departed(w.registry, s, at, found)
    requires w'.registered == w.registered && w'.absent == w.absent + {s} && w'.abandoned <= w.abandoned
    ensures SessionsFit(w')
  {
    hide WellSeated, PartiesInverse, DungeonsSound;
    forall id, t | Seated(w'.registry, id, t) && w'.registry.dungeons[id].roster.seats[t].since.Some?
      ensures t in w'.absent
    {
      assert Seated(w.registry, id, t);
    }
  }

  // ---------------------------------------------------------------- state steps

  lemma StateStepKeepsRegistry(w: World, e: Event)
    requires RegistryFits(w) && Enabled(w, e) && (e.Start? || e.Clear?)
    ensures RegistryFits(Next(w, e))
  {
    hide Sound, NumbersFit, ReconnectsFit, DropsFit, SessionsFit, SameNames;
    var state := if e.Start? then Running else Finished;
    WithStateIsSound(w.registry, e.id, state);
    AbandonedIsOver(w);
    WithStateNames(w.registry, e.id, state);
    SameNamesKeep(w, Next(w, e), 0);
    WithStateSessions(w, Next(w, e), e.id, state);
  }

  lemma StateStepKeepsUdp(w: World, e: Event)
    requires UdpFits(w) && Enabled(w, e) && (e.Start? || e.Clear?)
    ensures UdpFits(Next(w, e))
  {
    hide UdpIdsFit, TokensFit, UdpConsistent, SameNames;
    WithStateNames(w.registry, e.id, if e.Start? then Running else Finished);
    SameNamesUdp(w, Next(w, e), 0);
  }

  /** A dungeon goes by Cancel and Finish, and by a request that gives up if it still waits; if it
      does not, somebody else has released it, and the request fails. */
  lemma ClosingKeepsRegistry(w: World, e: Event)
    requires RegistryFits(w) && Enabled(w, e) && (e.Cancel? || e.Finish? || e.GiveUp?)
    ensures RegistryFits(Next(w, e))
  {
    hide Sound, ReconnectsFit, DropsFit, SessionsFit;
    var w' := Next(w, e);
    if e.GiveUp? && !Cancellable(w.registry, e.id) {
      OnlyUdpSide(w, w');
    } else {
      ClosedIsSound(w.registry, e.id);
      BelowNext(w.registry);
      ClosedSeats(w, w', {e.id});
    }
  }

  lemma ClosingKeepsUdp(w: World, e: Event)
    requires UdpFits(w) && Enabled(w, e) && (e.Cancel? || e.Finish? || e.GiveUp?)
    ensures UdpFits(Next(w, e))
  {
    hide UdpIdsFit, TokensFit, UdpConsistent, EnteringFits, Closed;
    var w' := Next(w, e);
    if e.GiveUp? && !Cancellable(w.registry, e.id) {
      ForgottenKeeps(w, w', e.id);
    } else {
      ClosedIs(w.registry, e.id);
      ClosedKeeps(w, w', {e.id});
    }
  }

  lemma ClosedIs(m: Registry, id: DungeonId)
    requires id in m.dungeons
    ensures Closed(m, id).dungeons == m.dungeons - {id}
  {
  }

  lemma ForgottenKeeps(w: World, w': World, id: DungeonId)
    requires UdpFits(w) && !Cancellable(w.registry, id)
    requires w' == w.(entering := w.entering - {id}, finding := w.finding - {id})
    ensures UdpFits(w')
  {
    hide HoldersFit, UdpConsistent;
  }

  /** The checks of a tick change nothing. What they have seen ready has its UDP session. */
  lemma JudgingKeepsUdp(w: World, e: Event)
    requires UdpFits(w) && Enabled(w, e) && (e.SeePresent? || e.SeeReady?)
    ensures UdpFits(Next(w, e))
  {
    hide UdpFits, SomebodyGone;
    NotedKeeps(w, Next(w, e));
  }

  lemma WithStateNames(m: Registry, id: DungeonId, state: DungeonState)
    requires id in m.dungeons
    ensures SameNames(m, WithState(m, id, state), 0)
  {
  }

  lemma WithStateSessions(w: World, w': World, id: DungeonId, state: DungeonState)
    requires SessionsFit(w) && id in w.registry.dungeons
    requires w'.registry == WithState(w.registry, id, state)
    requires w'.registered == w.registered && w'.absent == w.absent && w'.abandoned == w.abandoned
    ensures SessionsFit(w')
  {
    var m := WithState(w.registry, id, state);
    assert forall other, s :: Seated(m, other, s) ==> Seated(w.registry, other, s);
  }

  /** Dungeons go, everything about the others stays; what is left to do for them is noted. */
  lemma ClosedKeeps(w: World, w': World, closed: set<DungeonId>)
    requires UdpFits(w) && closed <= w.registry.dungeons.Keys
    requires w'.registry.dungeons == w.registry.dungeons - closed && w'.udp == w.udp && w'.judging == w.judging
    requires w'.reconnects == w.reconnects && w'.drops == w.drops && w'.releases == w.releases + closed
    requires w.entering.Keys - closed <= w'.entering.Keys <= w.entering.Keys
    ensures UdpFits(w')
  {
    hide HoldersFit, UdpConsistent;
  }

  lemma ClosedSeats(w: World, w': World, closed: set<DungeonId>)
    requires ReconnectsFit(w) && DropsFit(w) && SessionsFit(w)
    requires w'.registry.dungeons == w.registry.dungeons - closed
    requires w'.registry.next == w.registry.next && w'.registry.authenticated == w.registry.authenticated
    requires w' == w.(
      registry := w'.registry, entering := w'.entering, finding := w'.finding, releases := w.releases + closed)
    ensures ReconnectsFit(w') && DropsFit(w') && SessionsFit(w')
  {
    forall n | n in w'.reconnects
      ensures ReconnectFits(w', n, w'.reconnects[n])
    {
      assert ReconnectFits(w, n, w.reconnects[n]);
    }
    assert forall id, s :: Seated(w'.registry, id, s) ==> Seated(w.registry, id, s);
  }

  // ---------------------------------------------------------------- registration

  lemma RegisterKeepsRegistry(w: World, e: Event)
    requires RegistryFits(w) && Enabled(w, e) && e.Register?
    ensures RegistryFits(Next(w, e))
  {
    hide Sound, NumbersFit, ReconnectsFit, DropsFit, SessionsFit, SameNames, Answered, CanAnswer;
    NewcomerIsPresent(w, e.s);
    AnsweredIsSound(w.registry, e.s, e.player, e.now, e.grace, e.r);
    AnsweredSessions(w, Next(w, e), e);
    if e.r.Reconnected? {
      ReclaimNumbers(w, Next(w, e), e);
      ReclaimReconnects(w, Next(w, e), e);
      ReclaimDrops(w, Next(w, e), e);
    } else {
      AnsweredNames(w.registry, e.s, e.player, e.now, e.grace, e.r);
      SameNamesKeep(w, Next(w, e), e.s);
    }
  }

  lemma RegisterKeepsUdp(w: World, e: Event)
    requires RegistryFits(w) && UdpFits(w) && Enabled(w, e) && e.Register?
    ensures UdpFits(Next(w, e))
  {
    hide Sound, UdpIdsFit, TokensFit, ReconnectsFit, DropsFit, SessionsFit, UdpConsistent, SameNames, Answered;
    hide CanAnswer, NumbersFit;
    AnsweredStates(w.registry, e.s, e.player, e.now, e.grace, e.r);
    SameStatesKeep(w, Next(w, e));
    if e.r.Reconnected? {
      ReclaimIds(w, Next(w, e), e);
      ReclaimTokens(w, Next(w, e), e);
    } else {
      AnsweredNames(w.registry, e.s, e.player, e.now, e.grace, e.r);
      SameNamesUdp(w, Next(w, e), e.s);
    }
  }

  lemma AnsweredStates(m: Registry, s: SessionId, p: PlayerId, now: Time, grace: Time, r: Registration)
    requires CanAnswer(m, s, p, now, grace, r)
    ensures SameStates(m, Answered(m, s, p, grace, r)) && Answered(m, s, p, grace, r).dungeons.Keys == m.dungeons.Keys
  {
    hide Relabelled, Bound, CanBind, CanReclaim, Identified;
  }

  lemma NewcomerIsPresent(w: World, s: SessionId)
    requires ReconnectsFit(w) && SessionsFit(w) && s !in w.registered && s !in w.absent
    ensures s !in w.reconnects && Present(w.registry, s)
  {
    OpenReconnectsAreNotAbsent(w);
  }

  lemma AnsweredNames(m: Registry, s: SessionId, p: PlayerId, now: Time, grace: Time, r: Registration)
    requires CanAnswer(m, s, p, now, grace, r) && !r.Reconnected?
    ensures SameNames(m, Answered(m, s, p, grace, r), s)
    ensures SameLogins(m.authenticated, Answered(m, s, p, grace, r).authenticated, s)
  {
    hide CanReclaim, NothingToReclaim;
  }

  lemma RelabelledSeat(r: Roster, from: SessionId, to: SessionId, since: Option<Time>)
    requires from in r.seats && to !in r.seats
    ensures Relabelled(r, from, to, since).seats.Keys == r.seats.Keys - {from} + {to}
    ensures Relabelled(r, from, to, since).seats[to] == r.seats[from].(since := since)
    ensures forall t :: t in r.seats && t != from ==> Relabelled(r, from, to, since).seats[t] == r.seats[t]
  {
  }

  lemma IsAnswer(w: World, e: Event)
    requires e.Register? && Enabled(w, e)
    ensures CanAnswer(w.registry, e.s, e.player, e.now, e.grace, e.r) && e.s !in w.registered && e.s !in w.absent
  {
    hide CanAnswer;
  }

  lemma AnsweredSessions(w: World, w': World, e: Event)
    requires SessionsFit(w) && e.Register? && Enabled(w, e)
    requires w'.registry == Answered(w.registry, e.s, e.player, e.grace, e.r)
    requires w'.registered == w.registered + {e.s} && w'.absent == w.absent && w'.abandoned == w.abandoned
    ensures SessionsFit(w')
  {
    hide Enabled, CanAnswer, Answered;
    IsAnswer(w, e);
    AnsweredTimes(w.registry, e.s, e.player, e.now, e.grace, e.r);
    AnsweredLogins(w.registry, e.s, e.player, e.now, e.grace, e.r);
  }

  /** A registration reports nobody gone. */
  lemma AnsweredTimes(m: Registry, s: SessionId, p: PlayerId, now: Time, grace: Time, r: Registration)
    requires CanAnswer(m, s, p, now, grace, r)
    ensures
      var m' := Answered(m, s, p, grace, r);
      forall id, t | Seated(m', id, t) && m'.dungeons[id].roster.seats[t].since.Some? ::
        Seated(m, id, t) && m.dungeons[id].roster.seats[t].since.Some?
  {
    hide NothingToReclaim;
    if r.Reconnected? {
      RelabelledSeat(m.dungeons[r.dungeonId].roster, r.old_, s, None);
    }
    hide Relabelled, CanReclaim;
  }

  lemma AnsweredLogins(m: Registry, s: SessionId, p: PlayerId, now: Time, grace: Time, r: Registration)
    requires CanAnswer(m, s, p, now, grace, r)
    ensures Answered(m, s, p, grace, r).authenticated.Keys <= m.authenticated.Keys + {s}
  {
    hide NothingToReclaim, Relabelled, CanReclaim, Bound;
  }

  /** The reclaimed seat, and what else a reconnect rests on. */
  lemma ReclaimedFacts(w: World, e: Event)
    requires Sound(w.registry) && SessionsFit(w) && e.Register? && Enabled(w, e) && e.r.Reconnected?
    ensures e.r.dungeonId in w.registry.dungeons && e.r.dungeonId < w.registry.next
    ensures
      var r := w.registry.dungeons[e.r.dungeonId].roster;
      && e.r.old_ in r.seats && e.s !in r.seats && e.r.old_ in w.absent && e.s != 0 && e.r.old_ != 0
      && r.seats[e.r.old_].player == Some(e.player)
      && Answered(w.registry, e.s, e.player, e.grace, e.r).dungeons ==
           w.registry.dungeons[e.r.dungeonId := w.registry.dungeons[e.r.dungeonId].(roster := Relabelled(r, e.r.old_, e.s, None))]
      && Answered(w.registry, e.s, e.player, e.grace, e.r).authenticated ==
           w.registry.authenticated[e.s := e.player] - {e.r.old_}
      && Answered(w.registry, e.s, e.player, e.grace, e.r).next == w.registry.next
  {
    hide NothingToReclaim, Relabelled, LoginsInverse, PartiesInverse, AbsentLoggedOut;
    assert Seated(w.registry, e.r.dungeonId, e.r.old_);
  }

  lemma ReclaimNumbers(w: World, w': World, e: Event)
    requires NumbersFit(w) && e.Register? && Enabled(w, e) && e.r.Reconnected? && w' == Next(w, e)
    ensures NumbersFit(w')
  {
    hide Enabled, Next, Answered, CanAnswer;
    TakenIs(w, e);
    AnsweredStates(w.registry, e.s, e.player, e.now, e.grace, e.r);
  }

  lemma ReclaimIds(w: World, w': World, e: Event)
    requires UdpIdsFit(w) && e.Register? && Enabled(w, e) && e.r.Reconnected? && w' == Next(w, e)
    ensures UdpIdsFit(w')
  {
    hide Enabled, Next, Answered, CanAnswer;
    TakenIs(w, e);
    AnsweredStates(w.registry, e.s, e.player, e.now, e.grace, e.r);
  }

  lemma ReclaimReconnects(w: World, w': World, e: Event)
    requires Sound(w.registry) && SessionsFit(w) && ReconnectsFit(w) && DropsFit(w)
    requires e.Register? && Enabled(w, e) && e.r.Reconnected? && w' == Next(w, e)
    ensures ReconnectsFit(w')
  {
    hide Enabled, Next, Sound, Answered, CanAnswer, Relabelled;
    TakenIs(w, e);
    ReclaimedFacts(w, e);
    RelabelledSeat(w.registry.dungeons[e.r.dungeonId].roster, e.r.old_, e.s, None);
    OpenReconnectsAreNotAbsent(w);
    SeatedIsNotDropped(w, e.r.dungeonId, e.r.old_);
    forall n | n in w'.reconnects
      ensures ReconnectFits(w', n, w'.reconnects[n])
      ensures n != e.s ==> !SameOld(w'.reconnects[n], w'.reconnects[e.s])
    {
      assert n != e.s ==> ReconnectFits(w, n, w.reconnects[n]);
    }
  }

  lemma SeatedIsNotDropped(w: World, id: DungeonId, s: SessionId)
    requires DropsFit(w) && Seated(w.registry, id, s)
    ensures (id, s) !in w.drops
  {
  }

  lemma OpenReconnectsAreNotAbsent(w: World)
    requires ReconnectsFit(w)
    ensures forall n :: n in w.reconnects ==> n !in w.absent && w.reconnects[n].old_ in w.absent
    ensures forall n :: n in w.reconnects ==> n in w.registered && n !in w.abandoned
  {
    forall n | n in w.reconnects
      ensures n !in w.absent && w.reconnects[n].old_ in w.absent && n in w.registered && n !in w.abandoned
    {
      assert ReconnectFits(w, n, w.reconnects[n]);
    }
  }

  lemma ReclaimDrops(w: World, w': World, e: Event)
    requires Sound(w.registry) && SessionsFit(w) && DropsFit(w)
    requires e.Register? && Enabled(w, e) && e.r.Reconnected? && w' == Next(w, e)
    ensures DropsFit(w')
  {
    hide Enabled, Next, Sound, Answered, CanAnswer, Relabelled;
    TakenIs(w, e);
    ReclaimedFacts(w, e);
    RelabelledSeat(w.registry.dungeons[e.r.dungeonId].roster, e.r.old_, e.s, None);
  }

  lemma ReclaimTokens(w: World, w': World, e: Event)
    requires Sound(w.registry) && SessionsFit(w) && ReconnectsFit(w) && DropsFit(w) && TokensFit(w)
    requires e.Register? && Enabled(w, e) && e.r.Reconnected? && w' == Next(w, e)
    ensures TokensFit(w')
  {
    hide Enabled, Next, Sound, Answered, CanAnswer, Relabelled, NewsAt, OldsAt, DropsAt, SessionsFit, ReconnectsFit;
    hide DropsFit;
    TakenIs(w, e);
    NewcomerIsPresent(w, e.s);
    ReclaimedFacts(w, e);
    RelabelledSeat(w.registry.dungeons[e.r.dungeonId].roster, e.r.old_, e.s, None);
    NamesAt(w, e.r.dungeonId);
    forall id | id in w'.registry.dungeons && id in w'.udp
      ensures HoldersFit(
        w'.udp[id].tokens.Keys, w'.registry.dungeons[id].roster.seats.Keys, w'.reconnects, w'.drops, id)
    {
      ReconnectAdded(w.reconnects, e.s, w'.reconnects[e.s], id);
      if id == e.r.dungeonId {
        RenamedHolders(
          w.udp[id].tokens.Keys, w.registry.dungeons[id].roster.seats.Keys, NewsAt(w.reconnects, id),
          OldsAt(w.reconnects, id), DropsAt(w.drops, id), e.r.old_, e.s);
      }
    }
  }

  /** A seat that gets a new name, on its way to a new token, is expected under its old name. */
  lemma RenamedHolders(
    holders: set<SessionId>, seated: set<SessionId>, news: set<SessionId>, olds: set<SessionId>, drops: set<SessionId>,
    old_: SessionId, new_: SessionId)
    requires seated - news + olds <= holders <= seated - news + olds + drops
    requires old_ in seated && old_ !in news && new_ !in seated && new_ !in olds
    ensures
      var expected := (seated - {old_} + {new_}) - (news + {new_}) + (olds + {old_});
      expected <= holders <= expected + drops
  {
  }

  // ---------------------------------------------------------------- the UDP half of a reconnect

  lemma ReplaceKeepsRegistry(w: World, e: Event)
    requires RegistryFits(w) && Enabled(w, e) && e.ReplaceUdp?
    ensures RegistryFits(Next(w, e))
  {
    hide Enabled, Next, Sound, ReconnectsFit, DropsFit, SessionsFit, Replaced, CanReplace;
    ReplaceStep(w, e);
    ReplacedReconnects(w, Next(w, e), e);
  }

  lemma ReplaceKeepsUdp(w: World, e: Event)
    requires RegistryFits(w) && UdpFits(w) && Enabled(w, e) && e.ReplaceUdp?
    ensures UdpFits(Next(w, e))
  {
    hide Enabled, Next, Sound, TokensFit, ReconnectsFit, DropsFit, SessionsFit, UdpConsistent, CanReplace, Replaced;
    ReplaceStep(w, e);
    var r := w.reconnects[e.s];
    if e.token.Some? {
      ReplacedConsistent(w.udp, r.id, r.old_, e.s, e.token.value);
    }
    ReplacedTokens(w, Next(w, e), e);
  }

  lemma ReplaceStep(w: World, e: Event)
    requires e.ReplaceUdp? && Enabled(w, e)
    ensures e.s in w.reconnects && !w.reconnects[e.s].failed
    ensures
      var r := w.reconnects[e.s];
      && (e.token.None? ==> Next(w, e) == w.(reconnects := w.reconnects[e.s := r.(failed := true)]))
      && (e.token.Some? ==>
            && ReplacementAccepted(w.udp, r.id, r.old_, e.s, e.token.value)
            && Next(w, e) == w.(udp := w.udp[r.id := Replaced(w.udp[r.id], r.old_, e.s, e.token.value)],
                                reconnects := w.reconnects - {e.s}))
  {
    hide CanReplace, Replaced;
  }

  lemma ReplacedReconnects(w: World, w': World, e: Event)
    requires ReconnectsFit(w) && DropsFit(w) && SessionsFit(w)
    requires e.ReplaceUdp? && Enabled(w, e) && w' == Next(w, e)
    ensures ReconnectsFit(w') && DropsFit(w') && SessionsFit(w')
  {
    hide Enabled, Next, CanReplace, Replaced, ReconnectsFit;
    ReplaceStep(w, e);
    FewerReconnects(w, w');
  }

  lemma FewerReconnects(w: World, w': World)
    requires ReconnectsFit(w) && w'.registry == w.registry && w'.registered == w.registered && w'.absent == w.absent
    requires w'.abandoned == w.abandoned && w'.drops == w.drops
    requires forall n :: n in w'.reconnects ==>
      && n in w.reconnects
      && w'.reconnects[n] == w.reconnects[n].(failed := w'.reconnects[n].failed)
    ensures ReconnectsFit(w')
  {
    forall n | n in w'.reconnects
      ensures ReconnectFits(w', n, w'.reconnects[n])
    {
      assert ReconnectFits(w, n, w.reconnects[n]);
    }
  }

  lemma ReplacedTokenKeys(u: Udp, old_: SessionId, new_: SessionId, token: Token)
    requires CanReplace(u, old_, new_, token)
    ensures Replaced(u, old_, new_, token).tokens.Keys == u.tokens.Keys - {old_} + {new_}
  {
  }

  lemma ReplacedConsistent(udp: map<DungeonId, Udp>, id: DungeonId, old_: SessionId, new_: SessionId, token: Token)
    requires UdpConsistent(udp) && ReplacementAccepted(udp, id, old_, new_, token)
    ensures UdpConsistent(udp[id := Replaced(udp[id], old_, new_, token)])
  {
    hide Consistent, CanReplace, Replaced;
    ReplaceKeepsConsistent(udp[id], old_, new_, token);
  }

  lemma ReplacedTokens(w: World, w': World, e: Event)
    requires ReconnectsFit(w) && DropsFit(w) && TokensFit(w)
    requires e.ReplaceUdp? && Enabled(w, e) && w' == Next(w, e)
    ensures TokensFit(w')
  {
    hide Enabled, Next, NewsAt, OldsAt, DropsAt, ReconnectsFit, DropsFit, CanReplace, Replaced;
    ReplaceStep(w, e);
    var r := w.reconnects[e.s];
    OldNamesApart(w, e.s);
    if e.token.Some? {
      ReplacedTokenKeys(w.udp[r.id], r.old_, e.s, e.token.value);
    }
    forall id | id in w'.registry.dungeons && id in w'.udp
      ensures HoldersFit(
        w'.udp[id].tokens.Keys, w'.registry.dungeons[id].roster.seats.Keys, w'.reconnects, w'.drops, id)
    {
      if e.token.None? {
        ReconnectFailed(w.reconnects, e.s, id);
      } else {
        NamesAt(w, id);
        ReconnectRemoved(w.reconnects, e.s, id);
        InNames(w.reconnects, e.s);
      }
    }
  }

  lemma InNames(reconnects: map<SessionId, Reconnecting>, s: SessionId)
    requires s in reconnects
    ensures s in NewsAt(reconnects, reconnects[s].id) && reconnects[s].old_ in OldsAt(reconnects, reconnects[s].id)
  {
  }

  lemma OldNamesApart(w: World, s: SessionId)
    requires ReconnectsFit(w) && s in w.reconnects
    ensures w.reconnects[s].id in w.registry.dungeons ==>
      forall t :: t in w.reconnects && t != s ==> !SameOld(w.reconnects[s], w.reconnects[t])
  {
  }

  // ---------------------------------------------------------------- rollback

  lemma ReturnKeepsRegistry(w: World, e: Event)
    requires RegistryFits(w) && Enabled(w, e) && e.ReturnSeat?
    ensures RegistryFits(Next(w, e))
  {
    hide Sound, ReconnectsFit, DropsFit, SessionsFit, Returned, CanReturn;
    var r := w.reconnects[e.s];
    if CanReturn(w.registry, r.id, r.player, e.s, r.old_) {
      IsReturnable(w, e.s);
      ReturnedIsSound(w.registry, r.id, r.player, e.s, r.old_, r.at);
      ReturnedFacts(w, e.s);
      ReturnedReconnects(w, Next(w, e), e);
      ReturnedDrops(w, Next(w, e), e);
    } else {
      if r.id in w.registry.dungeons {
        LiveRollbackSucceeds(w, e.s);
      }
      AbandonReconnects(w, Next(w, e), e.s);
    }
  }

  lemma ReturnKeepsUdp(w: World, e: Event)
    requires RegistryFits(w) && UdpFits(w) && Enabled(w, e) && e.ReturnSeat?
    ensures UdpFits(Next(w, e))
  {
    hide Sound, TokensFit, ReconnectsFit, DropsFit, SessionsFit, UdpConsistent, Returned, CanReturn;
    var r := w.reconnects[e.s];
    if CanReturn(w.registry, r.id, r.player, e.s, r.old_) {
      ReturnedFacts(w, e.s);
      ReturnedStates(w.registry, r.id, r.player, e.s, r.old_, r.at);
      SameStatesKeep(w, Next(w, e));
      ReturnedTokens(w, Next(w, e), e);
    } else {
      if r.id in w.registry.dungeons {
        LiveRollbackSucceeds(w, e.s);
      }
      AbandonTokens(w, Next(w, e), e.s);
    }
  }

  lemma AbandonReconnects(w: World, w': World, s: SessionId)
    requires ReconnectsFit(w) && DropsFit(w) && SessionsFit(w)
    requires s in w.reconnects
    requires w' == w.(reconnects := w.reconnects - {s}, abandoned := w.abandoned + {s})
    ensures ReconnectsFit(w') && DropsFit(w') && SessionsFit(w')
  {
    OpenReconnectsAreNotAbsent(w);
    forall n | n in w'.reconnects
      ensures ReconnectFits(w', n, w'.reconnects[n])
    {
      assert ReconnectFits(w, n, w.reconnects[n]);
    }
  }

  lemma AbandonTokens(w: World, w': World, s: SessionId)
    requires ReconnectsFit(w) && TokensFit(w)
    requires s in w.reconnects && w.reconnects[s].id !in w.registry.dungeons
    requires w' == w.(reconnects := w.reconnects - {s}, abandoned := w.abandoned + {s})
    ensures TokensFit(w')
  {
    hide NewsAt, OldsAt, DropsAt;
    forall id | id in w'.registry.dungeons && id in w'.udp
      ensures HoldersFit(
        w'.udp[id].tokens.Keys, w'.registry.dungeons[id].roster.seats.Keys, w'.reconnects, w'.drops, id)
    {
      ReconnectRemoved(w.reconnects, s, id);
    }
  }

  lemma IsReturnable(w: World, s: SessionId)
    requires ReconnectsFit(w) && SessionsFit(w) && s in w.reconnects
    ensures Returnable(w.registry, w.reconnects[s].id, w.reconnects[s].player, s, w.reconnects[s].old_)
  {
    assert ReconnectFits(w, s, w.reconnects[s]);
  }

  /** In a dungeon that is still there a rollback is never refused. */
  lemma LiveRollbackSucceeds(w: World, s: SessionId)
    requires RegistryFits(w) && s in w.reconnects && w.reconnects[s].id in w.registry.dungeons
    ensures CanReturn(w.registry, w.reconnects[s].id, w.reconnects[s].player, s, w.reconnects[s].old_)
  {
    hide WellSeated, PartiesInverse, DropsFit, AbsentLoggedOut;
    assert ReconnectFits(w, s, w.reconnects[s]);
    BoundPlayerIsSomebody(w.registry, w.reconnects[s].id, s);
  }

  lemma BoundPlayerIsSomebody(m: Registry, id: DungeonId, s: SessionId)
    requires Sound(m) && Seated(m, id, s)
    ensures m.dungeons[id].roster.seats[s].player != Some(0)
  {
  }

  lemma ReturnedFacts(w: World, s: SessionId)
    requires s in w.reconnects
    requires CanReturn(w.registry, w.reconnects[s].id, w.reconnects[s].player, s, w.reconnects[s].old_)
    ensures w.reconnects[s].id in w.registry.dungeons
    ensures
      var r := w.reconnects[s];
      var d := w.registry.dungeons[r.id];
      var m := Returned(w.registry, r.id, r.player, s, r.old_, r.at);
      && s in d.roster.seats && r.old_ !in d.roster.seats && r.old_ != s
      && m.dungeons == w.registry.dungeons[r.id := d.(roster := Relabelled(d.roster, s, r.old_, Some(r.at)))]
      && m.next == w.registry.next && m.authenticated == w.registry.authenticated - {s}
  {
  }

  lemma ReturnedReconnects(w: World, w': World, e: Event)
    requires ReconnectsFit(w) && SessionsFit(w)
    requires e.ReturnSeat? && Enabled(w, e) && w' == Next(w, e)
    requires CanReturn(w.registry, w.reconnects[e.s].id, w.reconnects[e.s].player, e.s, w.reconnects[e.s].old_)
    ensures ReconnectsFit(w') && SessionsFit(w')
  {
    hide Returned, CanReturn, Relabelled;
    var r := w.reconnects[e.s];
    ReturnedFacts(w, e.s);
    RelabelledSeat(w.registry.dungeons[r.id].roster, e.s, r.old_, Some(r.at));
    OpenReconnectsAreNotAbsent(w);
    forall n | n in w'.reconnects
      ensures ReconnectFits(w', n, w'.reconnects[n])
    {
      assert ReconnectFits(w, n, w.reconnects[n]);
      assert !SameOld(w.reconnects[e.s], w.reconnects[n]);
    }
    forall id, t | Seated(w'.registry, id, t) && w'.registry.dungeons[id].roster.seats[t].since.Some?
      ensures t in w'.absent
    {
      assert t != r.old_ ==> Seated(w.registry, id, t);
    }
  }

  lemma ReturnedDrops(w: World, w': World, e: Event)
    requires ReconnectsFit(w) && DropsFit(w)
    requires e.ReturnSeat? && Enabled(w, e) && w' == Next(w, e)
    requires CanReturn(w.registry, w.reconnects[e.s].id, w.reconnects[e.s].player, e.s, w.reconnects[e.s].old_)
    ensures DropsFit(w')
  {
    hide Returned, CanReturn, Relabelled;
    var r := w.reconnects[e.s];
    ReturnedFacts(w, e.s);
    RelabelledSeat(w.registry.dungeons[r.id].roster, e.s, r.old_, Some(r.at));
    assert ReconnectFits(w, e.s, r);
  }

  lemma ReturnedTokens(w: World, w': World, e: Event)
    requires ReconnectsFit(w) && DropsFit(w) && TokensFit(w)
    requires e.ReturnSeat? && Enabled(w, e) && w' == Next(w, e)
    requires CanReturn(w.registry, w.reconnects[e.s].id, w.reconnects[e.s].player, e.s, w.reconnects[e.s].old_)
    ensures TokensFit(w')
  {
    hide NewsAt, OldsAt, DropsAt, ReconnectsFit, DropsFit, Returned, CanReturn, Relabelled;
    var r := w.reconnects[e.s];
    ReturnedFacts(w, e.s);
    RelabelledSeat(w.registry.dungeons[r.id].roster, e.s, r.old_, Some(r.at));
    OldNamesApart(w, e.s);
    InNames(w.reconnects, e.s);
    NamesAt(w, r.id);
    forall id | id in w'.registry.dungeons && id in w'.udp
      ensures HoldersFit(
        w'.udp[id].tokens.Keys, w'.registry.dungeons[id].roster.seats.Keys, w'.reconnects, w'.drops, id)
    {
      ReconnectRemoved(w.reconnects, e.s, id);
    }
  }

  // ---------------------------------------------------------------- sweep

  lemma SweepKeepsRegistry(w: World, e: Event)
    requires RegistryFits(w) && Enabled(w, e) && e.Sweep?
    ensures RegistryFits(Next(w, e))
  {
    hide Sound, NumbersFit, ReconnectsFit, DropsFit, SessionsFit, Swept, RemovedSeats, ReleasedIds;
    SweptIsSound(w.registry, w.registry.dungeons.Keys, e.now, e.grace, e.lifetime);
    SweptNumbers(w, Next(w, e), e);
    SweptReconnects(w, Next(w, e), e);
    SweptDrops(w, Next(w, e), e);
    SweptSessions(w, Next(w, e), e);
  }

  lemma SweepKeepsUdp(w: World, e: Event)
    requires RegistryFits(w) && UdpFits(w) && Enabled(w, e) && e.Sweep?
    ensures UdpFits(Next(w, e))
  {
    hide Sound, UdpIdsFit, TokensFit, ReconnectsFit, DropsFit, SessionsFit, UdpConsistent, Swept, RemovedSeats;
    hide ReleasedIds, NumbersFit;
    SweptIds(w, Next(w, e), e);
    SweptTokens(w, Next(w, e), e);
    SweptStates(w.registry, w.registry.dungeons.Keys, e.now, e.grace, e.lifetime);
    SameStatesKeep(w, Next(w, e));
  }

  lemma SweptStates(m: Registry, ids: set<DungeonId>, now: Time, grace: Time, lifetime: Time)
    ensures SameStates(m, Swept(m, ids, now, grace, lifetime))
  {
    hide ToRelease;
  }

  /** What a whole sweep leaves, seat by seat, and what it reports. */
  lemma SweptFacts(m: Registry, now: Time, grace: Time, lifetime: Time)
    requires Sound(m)
    ensures
      var all := m.dungeons.Keys;
      var m' := Swept(m, all, now, grace, lifetime);
      && m'.next == m.next && m'.authenticated == m.authenticated
      && m'.dungeons.Keys == m.dungeons.Keys - ReleasedIds(m, all, now, grace, lifetime)
      && ReleasedIds(m, all, now, grace, lifetime) <= m.dungeons.Keys
      && (forall id :: id in m'.dungeons ==>
            && id in m.dungeons
            && m'.dungeons[id].roster.seats == m.dungeons[id].roster.seats - Expired(m.dungeons[id].roster, now, grace))
      && (forall d :: d in RemovedSeats(m, all, now, grace, lifetime) ==>
            && d.0 in m.dungeons && d.1 in m.dungeons[d.0].roster.seats
            && (d.0 in m'.dungeons ==> d.1 in Expired(m.dungeons[d.0].roster, now, grace)))
      && (forall id, s :: id in m'.dungeons && s in Expired(m.dungeons[id].roster, now, grace) ==>
            (id, s) in RemovedSeats(m, all, now, grace, lifetime))
  {
    hide WellSeated, LoginsInverse, PartiesInverse;
    assert forall id, s :: id in m.dungeons && s in Expired(m.dungeons[id].roster, now, grace) ==>
      s in m.dungeons[id].roster.seats;
  }

  lemma SweptIds(w: World, w': World, e: Event)
    requires Sound(w.registry) && UdpIdsFit(w) && e.Sweep? && Enabled(w, e) && w' == Next(w, e)
    ensures UdpIdsFit(w')
  {
    hide WellSeated, LoginsInverse, PartiesInverse, AbsentLoggedOut, Swept, RemovedSeats, ReleasedIds;
    SweptFacts(w.registry, e.now, e.grace, e.lifetime);
  }

  lemma SweptNumbers(w: World, w': World, e: Event)
    requires Sound(w.registry) && NumbersFit(w) && e.Sweep? && Enabled(w, e) && w' == Next(w, e)
    ensures NumbersFit(w')
  {
    hide Sound, Swept, RemovedSeats, ReleasedIds;
    SweptFacts(w.registry, e.now, e.grace, e.lifetime);
    BelowNext(w.registry);
  }

  lemma SweptReconnects(w: World, w': World, e: Event)
    requires Sound(w.registry) && ReconnectsFit(w) && DropsFit(w) && SessionsFit(w)
    requires e.Sweep? && Enabled(w, e) && w' == Next(w, e)
    ensures ReconnectsFit(w')
  {
    hide Sound, Swept, RemovedSeats, ReleasedIds;
    SweptFacts(w.registry, e.now, e.grace, e.lifetime);
    forall n | n in w'.reconnects
      ensures ReconnectFits(w', n, w'.reconnects[n])
    {
      assert ReconnectFits(w, n, w.reconnects[n]);
    }
  }

  lemma SweptDrops(w: World, w': World, e: Event)
    requires Sound(w.registry) && DropsFit(w) && SessionsFit(w)
    requires e.Sweep? && Enabled(w, e) && w' == Next(w, e)
    ensures DropsFit(w')
  {
    hide Swept, RemovedSeats, ReleasedIds, WellSeated, LoginsInverse, PartiesInverse, AbsentLoggedOut;
    SweptFacts(w.registry, e.now, e.grace, e.lifetime);
    forall d | d in w'.drops
      ensures d.0 < w'.registry.next
      ensures d.0 in w'.registry.dungeons ==> d.1 !in w'.registry.dungeons[d.0].roster.seats && d.1 in w'.absent
    {
      if d !in w.drops && d.0 in w'.registry.dungeons {
        assert Seated(w.registry, d.0, d.1);
      }
    }
  }

  lemma SweptSessions(w: World, w': World, e: Event)
    requires Sound(w.registry) && SessionsFit(w) && e.Sweep? && Enabled(w, e) && w' == Next(w, e)
    ensures SessionsFit(w')
  {
    hide Sound, Swept, RemovedSeats, ReleasedIds;
    SweptFacts(w.registry, e.now, e.grace, e.lifetime);
    assert forall id, s :: Seated(w'.registry, id, s) ==> Seated(w.registry, id, s);
  }

  lemma SweptTokens(w: World, w': World, e: Event)
    requires Sound(w.registry) && ReconnectsFit(w) && DropsFit(w) && TokensFit(w)
    requires e.Sweep? && Enabled(w, e) && w' == Next(w, e)
    ensures TokensFit(w')
  {
    hide Sound, Swept, RemovedSeats, ReleasedIds, NewsAt, OldsAt, DropsAt, ReconnectsFit, DropsFit;
    SweptFacts(w.registry, e.now, e.grace, e.lifetime);
    forall id | id in w'.registry.dungeons && id in w'.udp
      ensures HoldersFit(
        w'.udp[id].tokens.Keys, w'.registry.dungeons[id].roster.seats.Keys, w'.reconnects, w'.drops, id)
    {
      NamesAt(w, id);
      DropsAdded(w.drops, RemovedSeats(w.registry, w.registry.dungeons.Keys, e.now, e.grace, e.lifetime), id);
      SweptAt(w.registry, id, e.now, e.grace, e.lifetime);
    }
  }

  lemma SweptAt(m: Registry, id: DungeonId, now: Time, grace: Time, lifetime: Time)
    requires Sound(m) && id in Swept(m, m.dungeons.Keys, now, grace, lifetime).dungeons
    ensures id in m.dungeons
    ensures DropsAt(RemovedSeats(m, m.dungeons.Keys, now, grace, lifetime), id) == Expired(m.dungeons[id].roster, now, grace)
  {
    hide Sound, Swept, RemovedSeats, ReleasedIds, Expired;
    SweptFacts(m, now, grace, lifetime);
    forall s | s in Expired(m.dungeons[id].roster, now, grace)
      ensures s in DropsAt(RemovedSeats(m, m.dungeons.Keys, now, grace, lifetime), id)
    {
      assert (id, s) in RemovedSeats(m, m.dungeons.Keys, now, grace, lifetime);
    }
  }

  // ---------------------------------------------------------------- steps of the UDP side alone

  lemma TokensGoKeeps(w: World, e: Event)
    requires RegistryFits(w) && UdpFits(w) && Enabled(w, e) && (e.DropUdp? || e.ReleaseUdp?)
    ensures UdpFits(Next(w, e))
  {
    hide Sound, TokensFit, ReconnectsFit, DropsFit, SessionsFit, UdpConsistent, Untokened, UdpIdsFit;
    if e.ReleaseUdp? {
      ReleasedKeeps(w, Next(w, e), e.id);
    } else {
      DroppedKeeps(w, Next(w, e), e.id, e.s);
    }
  }

  lemma TrafficStepKeeps(w: World, e: Event)
    requires UdpFits(w) && Enabled(w, e) && (e.QuietUdp? || e.Datagram?)
    ensures UdpFits(Next(w, e))
  {
    hide UdpFits, Possible, Handled, Quieted;
    ServedKeeps(w, Next(w, e), e);
  }

  lemma ServedKeeps(w: World, w': World, e: Event)
    requires UdpFits(w) && (e.QuietUdp? || (e.Datagram? && e.id in w.udp && Possible(w.udp[e.id], e.e)))
    requires w' == w.(udp := w'.udp, quiets := w'.quiets)
    requires w'.udp == if e.QuietUdp? then Quieted(w.udp, e.id, e.s) else w.udp[e.id := Handled(w.udp[e.id], e.e)]
    ensures UdpFits(w')
  {
    hide TokensFit, UdpConsistent, Possible, Handled, Quieted;
    if e.Datagram? {
      HandledConsistent(w.udp, e.id, e.e);
    } else {
      QuietedConsistent(w.udp, e.id, e.s);
    }
    SameTokensKeep(w, w');
  }

  /** Steps that the manager does not feel. */
  lemma UdpStepKeepsRegistry(w: World, e: Event)
    requires RegistryFits(w) && Enabled(w, e) && (e.QuietUdp? || e.DropUdp? || e.ReleaseUdp? || e.Datagram?)
    ensures RegistryFits(Next(w, e))
  {
    hide Sound, ReconnectsFit, DropsFit, SessionsFit, Possible, Handled, Quieted, Untokened;
    OnlyUdpSide(w, Next(w, e));
  }

  lemma RequestStepKeepsRegistry(w: World, e: Event)
    requires RegistryFits(w) && Enabled(w, e) && (e.ListParticipants? || e.Allocate? || e.FindToken?)
    ensures RegistryFits(Next(w, e))
  {
    hide Sound, NumbersFit, ReconnectsFit, DropsFit, SessionsFit, Enabled, Next;
    RequestStepIs(w, e);
    OnlyUdpSide(w, Next(w, e));
    RequestNumbers(w, Next(w, e), e.id);
  }

  lemma RequestStepIs(w: World, e: Event)
    requires Enabled(w, e) && (e.ListParticipants? || e.Allocate? || e.FindToken?)
    ensures
      var w' := Next(w, e);
      && w' == w.(udp := w'.udp, entering := w'.entering, finding := w'.finding)
      && w'.entering.Keys <= w.entering.Keys
      && (w'.finding.Keys <= w.finding.Keys || (
            && e.id in w.entering && w'.entering.Keys == w.entering.Keys - {e.id}
            && w'.finding.Keys == w.finding.Keys + {e.id}))
  {
    hide FreshTokens, AllocationAccepted, ParticipantsNow, TokenThere;
  }

  lemma RequestNumbers(w: World, w': World, id: DungeonId)
    requires NumbersFit(w) && w'.registry == w.registry && w'.releases == w.releases && w'.judging == w.judging
    requires w'.entering.Keys <= w.entering.Keys
    requires w'.finding.Keys <= w.finding.Keys || (
      id in w.entering && w'.entering.Keys == w.entering.Keys - {id} && w'.finding.Keys == w.finding.Keys + {id})
    ensures NumbersFit(w')
  {
  }

  lemma JudgingKeepsRegistry(w: World, e: Event)
    requires RegistryFits(w) && Enabled(w, e) && (e.SeePresent? || e.SeeReady?)
    ensures RegistryFits(Next(w, e))
  {
    hide Sound, ReconnectsFit, DropsFit, SessionsFit, SomebodyGone, EndpointsComplete;
    BelowNext(w.registry);
    OnlyUdpSide(w, Next(w, e));
  }

  /** The registry's side of the invariant does not look at the UDP sessions. */
  lemma OnlyUdpSide(w: World, w': World)
    requires ReconnectsFit(w) && DropsFit(w) && SessionsFit(w)
    requires w'.registry == w.registry && w'.reconnects == w.reconnects && w'.abandoned == w.abandoned
    requires w'.drops <= w.drops && w'.registered == w.registered && w'.absent == w.absent
    ensures ReconnectsFit(w') && DropsFit(w') && SessionsFit(w')
  {
    forall n | n in w'.reconnects
      ensures ReconnectFits(w', n, w'.reconnects[n])
    {
      assert ReconnectFits(w, n, w.reconnects[n]);
    }
  }

  lemma SameTokensKeep(w: World, w': World)
    requires TokensFit(w)
    requires w'.registry == w.registry && w'.reconnects == w.reconnects && w'.drops == w.drops
    requires w'.udp.Keys == w.udp.Keys && forall id :: id in w.udp ==> w'.udp[id].tokens == w.udp[id].tokens
    ensures TokensFit(w')
  {
  }

  lemma HandledConsistent(udp: map<DungeonId, Udp>, id: DungeonId, t: Traffic)
    requires UdpConsistent(udp) && id in udp && Possible(udp[id], t)
    ensures UdpConsistent(udp[id := Handled(udp[id], t)]) && Handled(udp[id], t).tokens == udp[id].tokens
  {
    hide Consistent, Handled;
    TrafficKeepsConsistent(udp[id], t);
  }

  lemma QuietedConsistent(udp: map<DungeonId, Udp>, id: DungeonId, s: SessionId)
    requires UdpConsistent(udp)
    ensures UdpConsistent(Quieted(udp, id, s)) && Quieted(udp, id, s).Keys == udp.Keys
    ensures forall other :: other in udp ==> Quieted(udp, id, s)[other].tokens == udp[other].tokens
  {
    hide Consistent;
    if id in udp {
      TrafficKeepsConsistent(udp[id], Quiet(s));
    }
  }

  lemma ReleasedKeeps(w: World, w': World, id: DungeonId)
    requires NumbersFit(w) && UdpIdsFit(w) && TokensFit(w) && UdpConsistent(w.udp) && id in w.releases
    requires w' == w.(udp := w.udp - {id}, releases := w.releases - {id})
    ensures UdpIdsFit(w') && TokensFit(w') && UdpConsistent(w'.udp)
  {
    hide Consistent, Expected;
  }

  lemma DroppedKeeps(w: World, w': World, id: DungeonId, s: SessionId)
    requires UdpIdsFit(w) && TokensFit(w) && UdpConsistent(w.udp) && DropsFit(w) && ReconnectsFit(w)
    requires (id, s) in w.drops
    requires w' == w.(udp := Untokened(w.udp, id, s), drops := w.drops - {(id, s)})
    ensures UdpIdsFit(w') && TokensFit(w') && UdpConsistent(w'.udp)
  {
    hide Consistent, Removed, NewsAt, OldsAt, DropsAt, ReconnectsFit, DropsFit;
    if id in w.udp {
      RemoveKeepsConsistent(w.udp[id], s);
      RemovedTokenKeys(w.udp[id], s);
    }
    forall other | other in w'.registry.dungeons && other in w'.udp
      ensures HoldersFit(
        w'.udp[other].tokens.Keys, w'.registry.dungeons[other].roster.seats.Keys, w'.reconnects, w'.drops, other)
    {
      NamesAt(w, other);
      DropRemoved(w.drops, id, s, other);
      InDrops(w.drops, id, s);
    }
  }

  lemma InDrops(drops: set<(DungeonId, SessionId)>, id: DungeonId, s: SessionId)
    requires (id, s) in drops
    ensures s in DropsAt(drops, id)
  {
  }

  lemma RemovedTokenKeys(u: Udp, s: SessionId)
    ensures Removed(u, s).tokens.Keys == u.tokens.Keys - {s}
  {
  }

  // ---------------------------------------------------------------- the leaders of requests

  /** Where the session is present it stays present, unless the dungeon goes. */
  ghost predicate StaysSeated(m: Registry, m': Registry, s: SessionId) {
    && m'.dungeons.Keys <= m.dungeons.Keys
    && forall id :: id in m'.dungeons && Seated(m, id, s) && m.dungeons[id].roster.seats[s].since.None? ==>
         Seated(m', id, s) && m'.dungeons[id].roster.seats[s].since.None?
  }

  lemma LeaderStays(w: World, w': World, id: DungeonId, s: SessionId)
    requires LeaderFits(w, id, s) && StaysSeated(w.registry, w'.registry, s) && w'.udp == w.udp
    requires s in w'.registered && s !in w'.absent && s !in w'.reconnects && s !in w'.abandoned
    requires id in w'.entering ==> id in w.entering && w'.entering[id].listed == w.entering[id].listed
    requires id in w'.finding ==> id in w.finding && w'.finding[id] == w.finding[id]
    ensures LeaderFits(w', id, s)
  {
  }

  lemma StayWhenRegistering(m: Registry, e: Event, s: SessionId)
    requires e.Register? && CanAnswer(m, e.s, e.player, e.now, e.grace, e.r) && s != e.s
    ensures StaysSeated(m, Answered(m, e.s, e.player, e.grace, e.r), s)
  {
    if e.r.Reconnected? {
      StayWhenReclaiming(m, e, s);
    } else {
      hide NothingToReclaim, Relabelled, CanReclaim;
    }
  }

  lemma StayWhenReclaiming(m: Registry, e: Event, s: SessionId)
    requires e.Register? && CanAnswer(m, e.s, e.player, e.now, e.grace, e.r) && s != e.s && e.r.Reconnected?
    ensures StaysSeated(m, Answered(m, e.s, e.player, e.grace, e.r), s)
  {
    hide NothingToReclaim, Bound, CanBind;
    RelabelledSeat(m.dungeons[e.r.dungeonId].roster, e.r.old_, e.s, None);
    hide Relabelled;
  }

  lemma StayWhenReturning(m: Registry, id: DungeonId, p: PlayerId, new_: SessionId, old_: SessionId, at: Time, s: SessionId)
    requires CanReturn(m, id, p, new_, old_) && s != new_
    ensures StaysSeated(m, Returned(m, id, p, new_, old_, at), s)
  {
    RelabelledSeat(m.dungeons[id].roster, new_, old_, Some(at));
    hide Relabelled;
  }

  lemma StayWhenLeaving(m: Registry, gone: SessionId, at: Time, found: Option<DungeonId>, s: SessionId)
    requires CanReport(m, gone, found) && s != gone
    ensures StaysSeated(m, Departed(m, gone, at, found), s)
  {
  }

  lemma StayWhenSwept(m: Registry, now: Time, grace: Time, lifetime: Time, s: SessionId)
    requires Sound(m)
    ensures StaysSeated(m, Swept(m, m.dungeons.Keys, now, grace, lifetime), s)
  {
    hide Sound, Swept, RemovedSeats, ReleasedIds;
    SweptFacts(m, now, grace, lifetime);
  }

  lemma LeadersKeep(w: World, e: Event)
    requires RegistryFits(w) && LeadersFit(w) && Enabled(w, e)
    ensures LeadersFit(Next(w, e))
  {
    hide RegistryFits, Enabled, Next, LeaderFits, Leads;
    var w' := Next(w, e);
    forall id, s | Leads(w', id, s)
      ensures LeaderFits(w', id, s)
    {
      if e.Open? && id == w.registry.next {
        OpenedLeader(w, e, s);
      } else {
        LeadsBefore(w, e, id, s);
        LeaderKeeps(w, e, id, s);
      }
    }
  }

  lemma OpenedLeader(w: World, e: Event, s: SessionId)
    requires RegistryFits(w) && Enabled(w, e) && e.Open? && Leads(Next(w, e), w.registry.next, s)
    ensures LeaderFits(Next(w, e), w.registry.next, s)
  {
    hide Enabled, Next, Sound, ReconnectsFit, DropsFit, SessionsFit, Asking;
    OpenIs(w, e);
  }

  lemma LeadsBefore(w: World, e: Event, id: DungeonId, s: SessionId)
    requires Enabled(w, e) && Leads(Next(w, e), id, s) && !(e.Open? && id == w.registry.next)
    ensures Leads(w, id, s)
  {
    if InRequest(e) {
      hide FreshRoster, FreshTokens, AllocationAccepted, MayAsk, Opened, Closed, TokenThere, ParticipantsNow;
    } else {
      hide Enabled, Next;
      RequestsStay(w, e);
    }
  }

  lemma LeaderKeeps(w: World, e: Event, id: DungeonId, s: SessionId)
    requires RegistryFits(w) && Enabled(w, e) && Leads(w, id, s) && LeaderFits(w, id, s)
    requires !(e.Open? && id == w.registry.next)
    ensures LeaderFits(Next(w, e), id, s)
  {
    hide RegistryFits, Enabled, Next, Leads, LeaderFits;
    match e
    case Open(_, _, _, _, _) => LeaderKeepsInManager(w, e, id, s);
    case Register(_, _, _, _, _) => LeaderKeepsInManager(w, e, id, s);
    case ReturnSeat(_) => LeaderKeepsInManager(w, e, id, s);
    case Abandon(_, _, _) => LeaderKeepsInManager(w, e, id, s);
    case Disconnect(_, _, _) => LeaderKeepsInManager(w, e, id, s);
    case Sweep(_, _, _) => LeaderKeepsInManager(w, e, id, s);
    case Cancel(_) => LeaderKeepsClosing(w, e, id, s);
    case Finish(_) => LeaderKeepsClosing(w, e, id, s);
    case GiveUp(_) => LeaderKeepsClosing(w, e, id, s);
    case Start(_) => LeaderKeepsState(w, e, id, s);
    case Clear(_) => LeaderKeepsState(w, e, id, s);
    case SeePresent(_) => LeaderKeepsState(w, e, id, s);
    case SeeReady(_) => LeaderKeepsState(w, e, id, s);
    case ListParticipants(_) => LeaderKeepsList(w, e, id, s);
    case Allocate(_, _, _) => LeaderKeepsList(w, e, id, s);
    case FindToken(_) => LeaderKeepsList(w, e, id, s);
    case _ => LeaderKeepsToken(w, e, id, s);
  }

  lemma LeaderKeepsInManager(w: World, e: Event, id: DungeonId, s: SessionId)
    requires RegistryFits(w) && Enabled(w, e) && Leads(w, id, s) && LeaderFits(w, id, s)
    requires !(e.Open? && id == w.registry.next)
    requires e.Open? || e.Register? || e.ReturnSeat? || e.Abandon? || e.Disconnect? || e.Sweep?
    ensures LeaderFits(Next(w, e), id, s)
  {
    hide Sound, NumbersFit, ReconnectsFit, DropsFit, SessionsFit, Answered, Departed, Returned, Swept, CanAnswer;
    hide CanReturn, CanReport, RemovedSeats, ReleasedIds, FreshRoster, MayAsk, StaysSeated;
    var w' := Next(w, e);
    if e.Register? {
      StayWhenRegistering(w.registry, e, s);
      LeaderStays(w, w', id, s);
    } else if e.ReturnSeat? {
      var r := w.reconnects[e.s];
      if CanReturn(w.registry, r.id, r.player, e.s, r.old_) {
        StayWhenReturning(w.registry, r.id, r.player, e.s, r.old_, r.at, s);
      } else {
        StayUntouched(w.registry, s);
      }
      LeaderStays(w, w', id, s);
    } else if e.Abandon? || e.Disconnect? {
      assert s != e.s;
      StayWhenLeaving(w.registry, e.s, e.at, e.found, s);
      LeaderStays(w, w', id, s);
    } else if e.Sweep? {
      StayWhenSwept(w.registry, e.now, e.grace, e.lifetime, s);
      LeaderStays(w, w', id, s);
    }
  }

  lemma StayUntouched(m: Registry, s: SessionId)
    ensures StaysSeated(m, m, s)
  {
  }

  lemma LeaderKeepsState(w: World, e: Event, id: DungeonId, s: SessionId)
    requires Enabled(w, e) && Leads(w, id, s) && LeaderFits(w, id, s)
    requires e.Start? || e.Clear? || e.SeePresent? || e.SeeReady?
    ensures LeaderFits(Next(w, e), id, s)
  {
    hide SomebodyGone, EndpointsComplete, LeaderFits, StaysSeated;
    StayUntouched(w.registry, s);
    if e.Start? || e.Clear? {
      StayInState(w.registry, e.id, if e.Start? then Running else Finished, s);
    }
    LeaderStaysAsking(w, Next(w, e), id, s);
  }

  lemma LeaderKeepsClosing(w: World, e: Event, id: DungeonId, s: SessionId)
    requires Enabled(w, e) && Leads(w, id, s) && LeaderFits(w, id, s) && (e.Cancel? || e.Finish? || e.GiveUp?)
    ensures LeaderFits(Next(w, e), id, s)
  {
    hide LeaderFits, StaysSeated, Closed, Enabled, Next;
    StayUntouched(w.registry, s);
    if e.id in w.registry.dungeons {
      StayWhenClosed(w.registry, e.id, s);
    }
    ClosingStepIs(w, e, id);
    LeaderStaysAsking(w, Next(w, e), id, s);
  }

  lemma ClosingStepIs(w: World, e: Event, id: DungeonId)
    requires Enabled(w, e) && (e.Cancel? || e.Finish? || e.GiveUp?)
    ensures
      var w' := Next(w, e);
      && w' == w.(registry := w'.registry, entering := w'.entering, finding := w'.finding, releases := w'.releases)
      && w'.registry == (if e.id in w.registry.dungeons && (e.GiveUp? ==> Cancellable(w.registry, e.id))
                         then Closed(w.registry, e.id) else w.registry)
      && (id in w'.entering ==> id in w.entering && w'.entering[id].listed == w.entering[id].listed)
      && (id in w'.finding ==> id in w.finding && w'.finding[id] == w.finding[id])
  {
    hide Closed;
  }

  lemma LeaderStaysAsking(w: World, w': World, id: DungeonId, s: SessionId)
    requires LeaderFits(w, id, s) && StaysSeated(w.registry, w'.registry, s) && w'.udp == w.udp
    requires w'.registered == w.registered && w'.absent == w.absent
    requires w'.reconnects == w.reconnects && w'.abandoned == w.abandoned
    requires id in w'.entering ==> id in w.entering && w'.entering[id].listed == w.entering[id].listed
    requires id in w'.finding ==> id in w.finding && w'.finding[id] == w.finding[id]
    ensures LeaderFits(w', id, s)
  {
    LeaderStays(w, w', id, s);
  }

  lemma StayInState(m: Registry, id: DungeonId, state: DungeonState, s: SessionId)
    requires id in m.dungeons
    ensures StaysSeated(m, WithState(m, id, state), s)
  {
  }

  lemma StayWhenClosed(m: Registry, id: DungeonId, s: SessionId)
    requires id in m.dungeons
    ensures StaysSeated(m, Closed(m, id), s)
  {
  }

  /** The leader is on the list, and so gets a token, and finds it. */
  lemma LeaderKeepsList(w: World, e: Event, id: DungeonId, s: SessionId)
    requires RegistryFits(w) && Enabled(w, e) && Leads(w, id, s) && LeaderFits(w, id, s)
    requires e.ListParticipants? || e.Allocate? || e.FindToken?
    ensures LeaderFits(Next(w, e), id, s)
  {
    hide Sound, ReconnectsFit, DropsFit, SessionsFit, AllocationAccepted;
    if e.ListParticipants? {
      if e.id in w.registry.dungeons {
        SeatedIsListed(w.registry, e.id, s);
      }
    } else if e.Allocate? {
      LeaderGetsToken(w, e, id, s);
    }
  }

  lemma LeaderGetsToken(w: World, e: Event, id: DungeonId, s: SessionId)
    requires RegistryFits(w) && Enabled(w, e) && Leads(w, id, s) && LeaderFits(w, id, s) && e.Allocate?
    ensures LeaderFits(Next(w, e), id, s)
  {
    hide Sound, ReconnectsFit, DropsFit, SessionsFit, AllocationAccepted, TokensTellApart;
  }

  lemma SeatedIsListed(m: Registry, id: DungeonId, s: SessionId)
    requires Sound(m) && id in m.dungeons
    ensures Seated(m, id, s) ==> s in m.dungeons[id].roster.order
  {
  }

  lemma LeaderKeepsToken(w: World, e: Event, id: DungeonId, s: SessionId)
    requires RegistryFits(w) && Enabled(w, e) && Leads(w, id, s) && LeaderFits(w, id, s)
    requires e.ReplaceUdp? || e.QuietUdp? || e.DropUdp? || e.ReleaseUdp? || e.Datagram?
    ensures LeaderFits(Next(w, e), id, s)
  {
    hide Sound, SessionsFit, ReconnectsFit, DropsFit;
    if e.ReplaceUdp? {
      LeaderKeepsTokenWhenReplaced(w, e, id, s);
    } else {
      LeaderKeepsTokenOtherwise(w, e, id, s);
    }
  }

  lemma LeaderKeepsTokenWhenReplaced(w: World, e: Event, id: DungeonId, s: SessionId)
    requires NumbersFit(w) && ReconnectsFit(w) && Enabled(w, e) && Leads(w, id, s) && LeaderFits(w, id, s)
    requires e.ReplaceUdp?
    ensures LeaderFits(Next(w, e), id, s)
  {
    assert ReconnectFits(w, e.s, w.reconnects[e.s]);
    var r := w.reconnects[e.s];
    if e.token.Some? {
      ReplacedTokenKeys(w.udp[r.id], r.old_, e.s, e.token.value);
    }
  }

  lemma LeaderKeepsTokenOtherwise(w: World, e: Event, id: DungeonId, s: SessionId)
    requires NumbersFit(w) && DropsFit(w) && Enabled(w, e) && Leads(w, id, s) && LeaderFits(w, id, s)
    requires e.QuietUdp? || e.DropUdp? || e.ReleaseUdp? || e.Datagram?
    ensures LeaderFits(Next(w, e), id, s)
  {
    if e.Datagram? {
      HandledTokens(w.udp[e.id], e.e);
    }
    hide Handled, Possible;
  }

  lemma HandledTokens(u: Udp, t: Traffic)
    ensures Handled(u, t).tokens == u.tokens
  {
  }

  lemma WaitsKeep(w: World, e: Event)
    requires RegistryFits(w) && WaitsFit(w) && Enabled(w, e)
    ensures WaitsFit(Next(w, e))
  {
    hide Sound, NumbersFit, ReconnectsFit, DropsFit, SessionsFit, WaitsFit, Enabled, Next;
    match e
    case Register(_, _, _, _, _) => WaitsKeepStates(w, e);
    case ReturnSeat(_) => WaitsKeepStates(w, e);
    case Abandon(_, _, _) => WaitsKeepStates(w, e);
    case Disconnect(_, _, _) => WaitsKeepStates(w, e);
    case Sweep(_, _, _) => WaitsKeepStates(w, e);
    case ReplaceUdp(_, _) => WaitsKeepUdp(w, e);
    case QuietUdp(_, _) => WaitsKeepUdp(w, e);
    case DropUdp(_, _) => WaitsKeepUdp(w, e);
    case ReleaseUdp(_) => WaitsKeepUdp(w, e);
    case Datagram(_, _) => WaitsKeepUdp(w, e);
    case GiveUp(_) => WaitsKeepClosing(w, e);
    case Cancel(_) => WaitsKeepClosing(w, e);
    case Finish(_) => WaitsKeepClosing(w, e);
    case SeePresent(_) => WaitsKeepState(w, e);
    case SeeReady(_) => WaitsKeepState(w, e);
    case Start(_) => WaitsKeepState(w, e);
    case Clear(_) => WaitsKeepState(w, e);
    case _ => WaitsKeepInRequest(w, e);
  }

  lemma WaitsKeepStates(w: World, e: Event)
    requires WaitsFit(w) && Enabled(w, e)
    requires e.Register? || e.ReturnSeat? || e.Abandon? || e.Disconnect? || e.Sweep?
    ensures WaitsFit(Next(w, e))
  {
    hide CanAnswer, Answered, Departed, CanReport, CanReturn, Returned, Swept, RemovedSeats, ReleasedIds, Asking;
    hide EnteringFits;
    match e {
      case Register(s, p, now, grace, r) => AnsweredStates(w.registry, s, p, now, grace, r);
      case Abandon(s, at, found) => DepartedStates(w.registry, s, at, found);
      case Disconnect(s, at, found) => DepartedStates(w.registry, s, at, found);
      case Sweep(now, grace, lifetime) => SweptStates(w.registry, w.registry.dungeons.Keys, now, grace, lifetime);
      case ReturnSeat(s) =>
        var r := w.reconnects[s];
        if CanReturn(w.registry, r.id, r.player, s, r.old_) {
          ReturnedStates(w.registry, r.id, r.player, s, r.old_, r.at);
        }
      case _ =>
    }
    SameStatesKeep(w, Next(w, e));
  }

  lemma WaitsKeepUdp(w: World, e: Event)
    requires WaitsFit(w) && Enabled(w, e)
    requires e.ReplaceUdp? || e.QuietUdp? || e.DropUdp? || e.ReleaseUdp? || e.Datagram?
    ensures WaitsFit(Next(w, e))
  {
    hide Possible, Handled, CanReplace, Replaced;
  }

  lemma WaitsKeepInRequest(w: World, e: Event)
    requires NumbersFit(w) && WaitsFit(w) && Enabled(w, e)
    requires e.Open? || e.ListParticipants? || e.Allocate? || e.FindToken?
    ensures WaitsFit(Next(w, e))
  {
    hide WaitsFit, NumbersFit, FreshRoster, FreshTokens, MayAsk, TokenThere, Opened, ParticipantsNow, Granted;
    match e
    case Open(_, _, _, _, _) => WaitsOpened(w, Next(w, e), e);
    case ListParticipants(id) => WaitsNoted(w, Next(w, e), id);
    case Allocate(id, tokens, ready) =>
      if Granted(w, id, ready) {
        WaitsAllocated(w, Next(w, e), id, NewUdp(tokens));
      } else {
        WaitsNoted(w, Next(w, e), id);
      }
    case FindToken(id) => WaitsNoted(w, Next(w, e), id);
  }

  lemma WaitsOpened(w: World, w': World, e: Event)
    requires NumbersFit(w) && WaitsFit(w) && e.Open?
    requires w' == w.(
      registry := Opened(w.registry, e.party, e.now, e.roster),
      entering := w.entering[w.registry.next := Entering(e.leader, None, false, [])])
    ensures WaitsFit(w')
  {
  }

  lemma WaitsNoted(w: World, w': World, id: DungeonId)
    requires WaitsFit(w) && w' == w.(entering := w'.entering, finding := w'.finding)
    requires w'.entering.Keys == w.entering.Keys
    ensures WaitsFit(w')
  {
  }

  lemma WaitsAllocated(w: World, w': World, id: DungeonId, u: Udp)
    requires NumbersFit(w) && WaitsFit(w) && id in w.entering
    requires w' == w.(udp := w.udp[id := u], entering := w.entering - {id}, finding := w'.finding)
    ensures WaitsFit(w')
  {
  }

  lemma WaitsKeepClosing(w: World, e: Event)
    requires WaitsFit(w) && Enabled(w, e) && (e.GiveUp? || e.Cancel? || e.Finish?)
    ensures WaitsFit(Next(w, e))
  {
    hide EnteringFits;
    FewerWait(w, Next(w, e));
  }

  lemma WaitsKeepState(w: World, e: Event)
    requires NumbersFit(w) && WaitsFit(w) && Enabled(w, e) && (e.SeePresent? || e.SeeReady? || e.Start? || e.Clear?)
    ensures WaitsFit(Next(w, e))
  {
    hide SomebodyGone;
  }

  lemma FewerWait(w: World, w': World)
    requires EnteringFits(w) && w'.entering.Keys <= w.entering.Keys && w'.judging == w.judging
    requires forall id :: id in w'.registry.dungeons ==>
      id in w.registry.dungeons && w'.registry.dungeons[id] == w.registry.dungeons[id]
    ensures EnteringFits(w')
  {
  }

  // ---------------------------------------------------------------- runs

  /** On the manager's side every locked section keeps everything in order, come what may. */
  lemma RegistryStepKeeps(w: World, e: Event)
    requires RegistryFits(w) && Enabled(w, e)
    ensures RegistryFits(Next(w, e))
  {
    hide RegistryFits, Enabled, Next;
    match e
    case Open(_, _, _, _, _) => OpenKeepsRegistry(w, e);
    case GiveUp(_) => ClosingKeepsRegistry(w, e);
    case Cancel(_) => ClosingKeepsRegistry(w, e);
    case Finish(_) => ClosingKeepsRegistry(w, e);
    case Register(_, _, _, _, _) => RegisterKeepsRegistry(w, e);
    case ReplaceUdp(_, _) => ReplaceKeepsRegistry(w, e);
    case ReturnSeat(_) => ReturnKeepsRegistry(w, e);
    case Abandon(_, _, _) => DepartureKeepsRegistry(w, e);
    case Disconnect(_, _, _) => DepartureKeepsRegistry(w, e);
    case Sweep(_, _, _) => SweepKeepsRegistry(w, e);
    case Start(_) => StateStepKeepsRegistry(w, e);
    case Clear(_) => StateStepKeepsRegistry(w, e);
    case SeePresent(_) => JudgingKeepsRegistry(w, e);
    case SeeReady(_) => JudgingKeepsRegistry(w, e);
    case ListParticipants(_) => RequestStepKeepsRegistry(w, e);
    case Allocate(_, _, _) => RequestStepKeepsRegistry(w, e);
    case FindToken(_) => RequestStepKeepsRegistry(w, e);
    case _ => UdpStepKeepsRegistry(w, e);
  }

  lemma UdpStepKeeps(w: World, e: Event)
    requires RegistryFits(w) && UdpFits(w) && Enabled(w, e) && (e.Allocate? ==> InTime(w, e))
    ensures UdpFits(Next(w, e))
  {
    hide RegistryFits, UdpFits, Enabled, Next, InTime;
    match e
    case Open(_, _, _, _, _) => OpenKeepsUdp(w, e);
    case ListParticipants(_) => NotingKeepsUdp(w, e);
    case Allocate(_, _, _) => AllocationKeepsUdpIff(w, e);
    case FindToken(_) => NotingKeepsUdp(w, e);
    case GiveUp(_) => ClosingKeepsUdp(w, e);
    case Cancel(_) => ClosingKeepsUdp(w, e);
    case Finish(_) => ClosingKeepsUdp(w, e);
    case Register(_, _, _, _, _) => RegisterKeepsUdp(w, e);
    case ReplaceUdp(_, _) => ReplaceKeepsUdp(w, e);
    case ReturnSeat(_) => ReturnKeepsUdp(w, e);
    case Abandon(_, _, _) => DepartureKeepsUdp(w, e);
    case Disconnect(_, _, _) => DepartureKeepsUdp(w, e);
    case Sweep(_, _, _) => SweepKeepsUdp(w, e);
    case SeePresent(_) => JudgingKeepsUdp(w, e);
    case SeeReady(_) => JudgingKeepsUdp(w, e);
    case Start(_) => StateStepKeepsUdp(w, e);
    case Clear(_) => StateStepKeepsUdp(w, e);
    case QuietUdp(_, _) => TrafficStepKeeps(w, e);
    case Datagram(_, _) => TrafficStepKeeps(w, e);
    case DropUdp(_, _) => TokensGoKeeps(w, e);
    case ReleaseUdp(_) => TokensGoKeeps(w, e);
  }

  lemma NotingKeepsUdp(w: World, e: Event)
    requires UdpFits(w) && Enabled(w, e) && (e.ListParticipants? || e.FindToken?)
    ensures UdpFits(Next(w, e))
  {
    hide UdpFits;
    NotedKeeps(w, Next(w, e));
  }

  /** Every locked section keeps the two sides together, save an allocation that is not in time. */
  lemma StepKeeps(w: World, e: Event)
    requires Invariant(w) && Enabled(w, e) && (e.Allocate? ==> InTime(w, e))
    ensures Invariant(Next(w, e))
  {
    hide RegistryFits, LeadersFit, UdpFits, Enabled, Next, InTime;
    RegistryStepKeeps(w, e);
    LeadersKeep(w, e);
    UdpStepKeeps(w, e);
  }

  /** Where a sequence of steps leads, if each of them is possible when its turn comes. */
  ghost function After(w: World, events: seq<Event>): Option<World> {
    if events == [] then Some(w)
    else
      var before := After(w, events[..|events| - 1]);
      var e := events[|events| - 1];
      if before.Some? && Enabled(before.value, e) then Some(Next(before.value, e)) else None
  }

  lemma {:induction false} AfterConcat(w: World, a: seq<Event>, b: seq<Event>)
    ensures After(w, a + b) == if After(w, a).None? then None else After(After(w, a).value, b)
  {
    if b == [] {
      assert a + b == a;
    } else {
      hide Enabled, Next;
      assert (a + b)[..|a + b| - 1] == a + b[..|b| - 1];
      AfterConcat(w, a, b[..|b| - 1]);
    }
  }

  lemma AfterPrefix(w: World, events: seq<Event>, k: nat)
    requires After(w, events).Some? && k <= |events|
    ensures After(w, events[..k]).Some?
  {
    assert events == events[..k] + events[k..];
    AfterConcat(w, events[..k], events[k..]);
  }

  /** Step k of a run is possible, and leads from one moment to the next. */
  lemma AfterStep(w: World, events: seq<Event>, k: nat)
    requires After(w, events).Some? && k < |events|
    ensures After(w, events[..k]).Some? && Enabled(After(w, events[..k]).value, events[k])
    ensures After(w, events[..k + 1]) == Some(Next(After(w, events[..k]).value, events[k]))
  {
    hide Enabled, Next;
    AfterPrefix(w, events, k);
    AfterPrefix(w, events, k + 1);
    assert events[..k + 1][..k] == events[..k];
  }

  lemma AfterOneMore(w: World, events: seq<Event>, e: Event)
    requires After(w, events).Some? && Enabled(After(w, events).value, e)
    ensures After(w, events + [e]) == Some(Next(After(w, events).value, e))
  {
    hide Enabled, Next;
    assert (events + [e])[..|events|] == events;
  }

  lemma AfterOne(w: World, e: Event)
    requires Enabled(w, e)
    ensures After(w, [e]) == Some(Next(w, e))
  {
    hide Enabled, Next;
    assert [e][..0] == [];
  }

  lemma AfterTwo(w: World, a: Event, b: Event)
    requires Enabled(w, a)
    ensures After(w, [a, b]) == if Enabled(Next(w, a), b) then Some(Next(Next(w, a), b)) else None
  {
    hide Enabled, Next;
    AfterOne(w, a);
    assert [a, b][..1] == [a];
  }

  /** An enter request that nobody interrupts, granted and refused. */
  ghost function EnterSteps(id: DungeonId, open_: Event, tokens: map<SessionId, Token>): seq<Event> {
    [open_, ListParticipants(id), Allocate(id, tokens, true), FindToken(id)]
  }

  ghost function RefusedSteps(id: DungeonId, open_: Event): seq<Event> {
    [open_, ListParticipants(id), Allocate(id, map[], false), GiveUp(id), ReleaseUdp(id)]
  }

  /** Nothing is left of the number that a new dungeon gets. */
  ghost predicate NumberIsFree(w: World) {
    var id := w.registry.next;
    && id != 0 && id !in w.registry.dungeons && id !in w.udp && id !in w.entering && id !in w.finding
    && id !in w.releases
  }

  /** After the first two steps. */
  ghost function Listing(w: World, e: Event): World
    requires e.Open?
  {
    w.(registry := Opened(w.registry, e.party, e.now, e.roster),
       entering := w.entering[w.registry.next := Entering(e.leader, Some(e.members), false, [])])
  }

  lemma ListingRun(w: World, e: Event)
    requires e.Open? && Enabled(w, e) && NumberIsFree(w)
    ensures After(w, [e, ListParticipants(w.registry.next)]) == Some(Listing(w, e))
    ensures e.roster.order == e.members && Distinct(e.members) && 0 !in e.members && e.leader in e.members
  {
    hide Enabled, Next, After, Listing, FreshRoster, MayAsk;
    OpenIs(w, e);
    ListedSeatings(w.registry, e.members, e.roster);
    ListIs(w, e);
    AfterTwo(w, e, ListParticipants(w.registry.next));
  }

  lemma ListIs(w: World, e: Event)
    requires e.Open? && Enabled(w, e) && NumberIsFree(w) && e.roster.order == e.members
    ensures Enabled(Next(w, e), ListParticipants(w.registry.next))
    ensures Next(Next(w, e), ListParticipants(w.registry.next)) == Listing(w, e)
  {
    hide FreshRoster, MayAsk;
    assert Next(w, e).entering[w.registry.next := Entering(e.leader, Some(e.members), false, [])] ==
      Listing(w, e).entering;
  }

  lemma ListedSeatings(m: Registry, members: seq<SessionId>, roster: Roster)
    requires FreshRoster(m, members, roster)
    ensures roster.order == members && Distinct(members) && 0 !in members
  {
  }

  /** What a request that was granted has done. */
  ghost function EnteredWorld(w: World, e: Event, tokens: map<SessionId, Token>): World
    requires e.Open?
  {
    w.(registry := Opened(w.registry, e.party, e.now, e.roster), udp := w.udp[w.registry.next := NewUdp(tokens)])
  }

  lemma EnterRun(w: World, e: Event, tokens: map<SessionId, Token>)
    requires e.Open? && Enabled(w, e) && NumberIsFree(w) && FreshTokens(tokens, e.members)
    ensures After(w, EnterSteps(w.registry.next, e, tokens)) == Some(EnteredWorld(w, e, tokens))
  {
    hide Enabled, Next, FreshTokens, After;
    ListingRun(w, e);
    var id := w.registry.next;
    GrantIs(w, e, tokens);
    AfterOneMore(w, [e, ListParticipants(id)], Allocate(id, tokens, true));
    AfterOneMore(w, [e, ListParticipants(id)] + [Allocate(id, tokens, true)], FindToken(id));
    assert [e, ListParticipants(id)] + [Allocate(id, tokens, true)] + [FindToken(id)] == EnterSteps(id, e, tokens);
  }

  lemma GrantIs(w: World, e: Event, tokens: map<SessionId, Token>)
    requires e.Open? && NumberIsFree(w) && FreshTokens(tokens, e.members)
    requires Distinct(e.members) && 0 !in e.members && e.leader in e.members
    ensures
      var allocate, find := Allocate(w.registry.next, tokens, true), FindToken(w.registry.next);
      && Enabled(Listing(w, e), allocate) && Enabled(Next(Listing(w, e), allocate), find)
      && Next(Next(Listing(w, e), allocate), find) == EnteredWorld(w, e, tokens)
  {
    hide Opened, TokensTellApart;
    var id := w.registry.next;
    assert Listing(w, e).entering - {id} == w.entering;
    assert w.finding[id := Finding(e.leader, false)] - {id} == w.finding;
  }

  lemma RefusedRun(w: World, e: Event)
    requires e.Open? && Enabled(w, e) && NumberIsFree(w)
    ensures After(w, RefusedSteps(w.registry.next, e)) ==
      Some(w.(registry := Closed(Opened(w.registry, e.party, e.now, e.roster), w.registry.next)))
  {
    hide FreshRoster, FreshTokens, Enabled, Next, Opened, Closed, After;
    ListingRun(w, e);
    var id := w.registry.next;
    var first, refuse := [e, ListParticipants(id)], Allocate(id, map[], false);
    RefusalIs(w, e);
    AfterOneMore(w, first, refuse);
    AfterOneMore(w, first + [refuse], GiveUp(id));
    AfterOneMore(w, first + [refuse] + [GiveUp(id)], ReleaseUdp(id));
    assert first + [refuse] + [GiveUp(id)] + [ReleaseUdp(id)] == RefusedSteps(id, e);
  }

  lemma RefusalIs(w: World, e: Event)
    requires e.Open? && NumberIsFree(w)
    ensures
      var id := w.registry.next;
      var refuse := Allocate(id, map[], false);
      && Enabled(Listing(w, e), refuse) && Enabled(Next(Listing(w, e), refuse), GiveUp(id))
      && Enabled(Next(Next(Listing(w, e), refuse), GiveUp(id)), ReleaseUdp(id))
      && Next(Next(Next(Listing(w, e), refuse), GiveUp(id)), ReleaseUdp(id)) ==
           w.(registry := Closed(Opened(w.registry, e.party, e.now, e.roster), id))
  {
    hide Enabled, Next;
    RefusedIs(w, e);
    GivenUpIs(w, e);
  }

  ghost function RefusedWorld(w: World, e: Event): World
    requires e.Open?
  {
    Listing(w, e).(entering := w.entering[w.registry.next := Entering(e.leader, Some(e.members), true, [])])
  }

  lemma RefusedIs(w: World, e: Event)
    requires e.Open? && NumberIsFree(w)
    ensures
      var refuse := Allocate(w.registry.next, map[], false);
      Enabled(Listing(w, e), refuse) && Next(Listing(w, e), refuse) == RefusedWorld(w, e)
  {
    hide FreshTokens, Opened;
  }

  lemma GivenUpIs(w: World, e: Event)
    requires e.Open? && NumberIsFree(w)
    ensures
      var id := w.registry.next;
      var refused := RefusedWorld(w, e);
      && Enabled(refused, GiveUp(id)) && Enabled(Next(refused, GiveUp(id)), ReleaseUdp(id))
      && Next(Next(refused, GiveUp(id)), ReleaseUdp(id)) ==
           w.(registry := Closed(Opened(w.registry, e.party, e.now, e.roster), id))
  {
    hide Closed;
    var id, refused := w.registry.next, RefusedWorld(w, e);
    var gone := w.(registry := Closed(refused.registry, id), releases := w.releases + {id});
    assert refused.entering - {id} == w.entering && w.finding - {id} == w.finding;
    assert Next(refused, GiveUp(id)) == gone;
    assert gone.releases - {id} == w.releases && w.udp - {id} == w.udp;
  }

  /** Uninterrupted, the request keeps the two sides together either way. */
  lemma EnterRunKeeps(w: World, e: Event, tokens: map<SessionId, Token>)
    requires Invariant(w) && e.Open? && Enabled(w, e) && FreshTokens(tokens, e.members)
    ensures After(w, EnterSteps(w.registry.next, e, tokens)) == Some(EnteredWorld(w, e, tokens))
    ensures Invariant(EnteredWorld(w, e, tokens))
  {
    hide Invariant, Enabled, Next, After, FreshTokens, InTime, Listing, EnteredWorld;
    FreeNumber(w);
    EnterRun(w, e, tokens);
    ListingKeeps(w, e);
    var allocate := Allocate(w.registry.next, tokens, true);
    GrantIs(w, e, tokens);
    NewListIsInTime(w, e, allocate);
    StepKeeps(Listing(w, e), allocate);
    StepKeeps(Next(Listing(w, e), allocate), FindToken(w.registry.next));
  }

  lemma ListingKeeps(w: World, e: Event)
    requires Invariant(w) && e.Open? && Enabled(w, e)
    ensures Invariant(Listing(w, e))
    ensures e.roster.order == e.members && Distinct(e.members) && 0 !in e.members && e.leader in e.members
  {
    hide Invariant, Enabled, Next, Listing, After;
    FreeNumber(w);
    ListingRun(w, e);
    ListIs(w, e);
    StepKeeps(w, e);
    StepKeeps(Next(w, e), ListParticipants(w.registry.next));
  }

  lemma NewListIsInTime(w: World, e: Event, allocate: Event)
    requires Invariant(w) && e.Open? && e.roster.order == e.members && NumberIsFree(w) && Invariant(Listing(w, e))
    requires allocate.Allocate? && allocate.id == w.registry.next && Enabled(Listing(w, e), allocate)
    ensures InTime(Listing(w, e), allocate)
  {
    hide Sound, LeadersFit, SessionsFit, UdpFits, HoldersFit;
    NothingAtNewId(w, w.registry.next);
    hide Invariant, ReconnectsFit, DropsFit, NewsAt;
    if Granted(Listing(w, e), allocate.id, allocate.ready) {
      FreshListIsInTime(Listing(w, e), allocate);
    }
  }

  lemma RefusedRunKeeps(w: World, e: Event)
    requires Invariant(w) && e.Open? && Enabled(w, e)
    ensures After(w, RefusedSteps(w.registry.next, e)).Some?
    ensures Invariant(After(w, RefusedSteps(w.registry.next, e)).value)
  {
    hide Invariant, Enabled, Next, InTime, Listing, After;
    FreeNumber(w);
    RefusedRun(w, e);
    ListingKeeps(w, e);
    RefusalIs(w, e);
    var id, listing, refuse := w.registry.next, Listing(w, e), Allocate(w.registry.next, map[], false);
    NothingGranted(listing, refuse);
    StepKeeps(listing, refuse);
    StepKeeps(Next(listing, refuse), GiveUp(id));
    StepKeeps(Next(Next(listing, refuse), GiveUp(id)), ReleaseUdp(id));
  }

  lemma NothingGranted(w: World, e: Event)
    requires e.Allocate? && !e.ready && Enabled(w, e)
    ensures InTime(w, e)
  {
  }

  lemma FreeNumber(w: World)
    requires Invariant(w)
    ensures NumberIsFree(w)
  {
    hide Invariant, Orderly, NumberIsFree;
    InvariantParts(w);
    NextNumberIsFree(w);
  }

  lemma NextNumberIsFree(w: World)
    requires Orderly(w)
    ensures NumberIsFree(w)
  {
    hide ReconnectsFit, DropsFit, SessionsFit, LeadersFit, EnteringFits;
  }

  /** Every allocation of the run comes in time. */
  ghost predicate AllInTime(events: seq<Event>)
    requires After(START, events).Some?
  {
    forall k :: 0 <= k < |events| && events[k].Allocate? ==> InTimeAt(events, k)
  }

  ghost predicate InTimeAt(events: seq<Event>, k: nat)
    requires After(START, events).Some? && k < |events| && events[k].Allocate?
  {
    AfterStep(START, events, k);
    InTime(After(START, events[..k]).value, events[k])
  }

  ghost predicate FitsAt(events: seq<Event>, k: nat)
    requires k <= |events|
  {
    After(START, events[..k]).Some? && Invariant(After(START, events[..k]).value)
  }

  /** However the locked sections of different calls mix: the invariant holds at every moment of
      the run if and only if every allocation in it comes in time. */
  lemma EveryRunFits(events: seq<Event>)
    requires After(START, events).Some?
    ensures (forall k :: 0 <= k <= |events| ==> FitsAt(events, k)) <==> AllInTime(events)
  {
    hide InTime, FitsAt, Enabled, Next;
    if AllInTime(events) {
      forall k | 0 <= k <= |events|
        ensures FitsAt(events, k)
      {
        FitsSoFar(events, k);
      }
    }
    if forall k :: 0 <= k <= |events| ==> FitsAt(events, k) {
      forall k | 0 <= k < |events| && events[k].Allocate?
        ensures InTimeAt(events, k)
      {
        assert FitsAt(events, k) && FitsAt(events, k + 1);
        AllocationFits(events, k);
      }
    }
  }

  lemma AllocationFits(events: seq<Event>, k: nat)
    requires After(START, events).Some? && k < |events| && events[k].Allocate?
    requires FitsAt(events, k) && FitsAt(events, k + 1)
    ensures InTimeAt(events, k)
  {
    hide Invariant, InTime, Enabled, Next;
    AfterStep(START, events, k);
    AllocationKeepsIff(After(START, events[..k]).value, events[k]);
  }

  lemma {:induction false} FitsSoFar(events: seq<Event>, k: nat)
    requires After(START, events).Some? && AllInTime(events) && k <= |events|
    ensures FitsAt(events, k)
  {
    hide Invariant, InTime, Enabled, Next;
    if k == 0 {
      assert events[..0] == [];
      StartFits();
    } else {
      FitsSoFar(events, k - 1);
      AfterStep(START, events, k - 1);
      assert events[k - 1].Allocate? ==> InTimeAt(events, k - 1);
      StepKeeps(After(START, events[..k - 1]).value, events[k - 1]);
    }
  }

  lemma StartFits()
    ensures Invariant(START)
  {
  }

  /** What holds at every moment of every run, in time or not. */
  ghost predicate Orderly(w: World) {
    RegistryFits(w) && LeadersFit(w) && WaitsFit(w)
  }

  lemma OrderlyKeeps(w: World, e: Event)
    requires Orderly(w) && Enabled(w, e)
    ensures Orderly(Next(w, e))
  {
    hide RegistryFits, LeadersFit, WaitsFit, Enabled, Next;
    RegistryStepKeeps(w, e);
    LeadersKeep(w, e);
    WaitsKeep(w, e);
  }

  lemma {:induction false} OrderlyOver(w: World, events: seq<Event>)
    requires Orderly(w) && After(w, events).Some?
    ensures Orderly(After(w, events).value)
  {
    hide Orderly, Enabled, Next;
    if events != [] {
      OrderlyOver(w, events[..|events| - 1]);
      OrderlyKeeps(After(w, events[..|events| - 1]).value, events[|events| - 1]);
    }
  }

  /** On the manager's side, and as far as requests go, everything is in order at every moment of
      every run, whether its allocations come in time or not. */
  lemma EveryRunIsOrderly(events: seq<Event>, k: nat)
    requires After(START, events).Some? && k <= |events|
    ensures After(START, events[..k]).Some? && Orderly(After(START, events[..k]).value)
  {
    hide Invariant, Enabled, Next, After, RegistryFits, LeadersFit, WaitsFit;
    StartFits();
    InvariantParts(START);
    AfterPrefix(START, events, k);
    OrderlyOver(START, events[..k]);
  }

  lemma InvariantParts(w: World)
    requires Invariant(w)
    ensures RegistryFits(w) && LeadersFit(w) && UdpFits(w) && Orderly(w)
  {
    hide ReconnectsFit, DropsFit, SessionsFit, LeadersFit, TokensFit, UdpConsistent;
    BelowNext(w.registry);
  }

  /** In every run: a request that was granted finds its leader's token unless its dungeon has been
      released in the meantime, and one that gives up has something to cancel exactly if its dungeon
      has not. So the cancel behind a missing token never has anything to cancel, and the request
      always fails there instead of being refused. */
  lemma MissingTokenMeansReleased(events: seq<Event>, k: nat)
    requires After(START, events).Some? && k < |events|
    ensures After(START, events[..k]).Some?
    ensures
      var w, e := After(START, events[..k]).value, events[k];
      && (e.FindToken? ==> e.id in w.finding && (TokenThere(w, e.id) || e.id !in w.registry.dungeons))
      && (e.GiveUp? && e.id in w.finding ==> e.id !in w.registry.dungeons)
      && (e.GiveUp? ==> (Cancellable(w.registry, e.id) <==> e.id in w.registry.dungeons))
  {
    hide Enabled, Next, RegistryFits, LeaderFits, Leads;
    AfterStep(START, events, k);
    EveryRunIsOrderly(events, k);
    var w, e := After(START, events[..k]).value, events[k];
    if e.GiveUp? {
      GaveUpOn(w, e);
    }
    if (e.FindToken? || e.GiveUp?) && e.id in w.finding {
      LeaderOf(w, e.id);
    }
    LookupIs(w, e);
  }

  lemma GaveUpOn(w: World, e: Event)
    requires LeadersFit(w) && WaitsFit(w) && e.GiveUp? && Enabled(w, e)
    ensures Cancellable(w.registry, e.id) <==> e.id in w.registry.dungeons
  {
    if e.id in w.finding {
      LeaderOf(w, e.id);
    }
  }

  lemma LeaderOf(w: World, id: DungeonId)
    requires LeadersFit(w) && id in w.finding
    ensures id in w.registry.dungeons ==> !w.finding[id].failed && TokenThere(w, id)
  {
    hide TokenThere;
    assert Leads(w, id, w.finding[id].leader);
  }

  lemma LookupIs(w: World, e: Event)
    requires RegistryFits(w) && Enabled(w, e)
    ensures e.FindToken? ==> e.id in w.finding
    ensures e.GiveUp? && e.id in w.finding ==> w.finding[e.id].failed
  {
    hide Sound, ReconnectsFit, DropsFit, SessionsFit;
  }

  /** The two components agree completely. */
  ghost predicate Coupled(dungeons: map<DungeonId, Dungeon>, udp: map<DungeonId, Udp>) {
    && udp.Keys == dungeons.Keys
    && forall id :: id in dungeons ==>
      && udp[id].tokens.Keys == dungeons[id].roster.seats.Keys
      && TokensTellApart(udp[id].tokens)
  }

  ghost predicate Settled(w: World) {
    && w.entering == map[] && w.finding == map[] && w.reconnects == map[]
    && w.drops == {} && w.releases == {}
  }

  /** Whenever no call is half done, and every allocation so far came in time, every UDP session
      belongs to a live dungeon and the other way round, its tokens belong to exactly the dungeon's
      participants, and they are nonzero and pairwise different. */
  lemma SettledMeansCoupled(events: seq<Event>)
    requires After(START, events).Some? && AllInTime(events) && Settled(After(START, events).value)
    ensures Coupled(After(START, events).value.registry.dungeons, After(START, events).value.udp)
  {
    hide Invariant, Settled, Coupled, InTimeAt;
    FitsSoFar(events, |events|);
    assert events[..|events|] == events;
    FitsAndSettled(After(START, events).value);
  }

  lemma FitsAndSettled(w: World)
    requires Invariant(w) && Settled(w)
    ensures Coupled(w.registry.dungeons, w.udp)
  {
    hide Sound, LeadersFit, ReconnectsFit, DropsFit, SessionsFit, Consistent, TokensTellApart, Expected;
    forall id | id in w.registry.dungeons
      ensures Expected(w.registry.dungeons[id].roster.seats.Keys, w.reconnects, id) ==
        w.registry.dungeons[id].roster.seats.Keys
      ensures DropsAt(w.drops, id) == {}
      ensures id in w.udp && TokensTellApart(w.udp[id].tokens)
    {
      NothingHalfDone(w.registry.dungeons[id].roster.seats.Keys, id);
      ConsistentTokens(w.udp[id]);
    }
  }

  lemma NothingHalfDone(seated: set<SessionId>, id: DungeonId)
    ensures Expected(seated, map[], id) == seated && DropsAt({}, id) == {}
  {
    assert NewsAt(map[], id) == {} && OldsAt(map[], id) == {} && DropsAt({}, id) == {};
  }

  lemma ConsistentTokens(u: Udp)
    requires Consistent(u)
    ensures TokensTellApart(u.tokens)
  {
  }

  /** In a live dungeon the UDP side can only refuse a reconnect because of the token drawn, or
      because the dungeon is still being entered. */
  lemma OnlyTheTokenCanFail(w: World, s: SessionId, token: Token)
    requires Invariant(w) && s in w.reconnects && w.reconnects[s].id in w.registry.dungeons
    ensures
      var r := w.reconnects[s];
      && (ReplacementAccepted(w.udp, r.id, r.old_, s, token) <==>
            r.id in w.udp && token != 0 && token !in w.udp[r.id].tokens.Values)
      && (r.id in w.udp <==> r.id !in w.entering)
  {
    hide Sound, LeadersFit, SessionsFit, UdpConsistent, NewsAt, OldsAt, DropsAt;
    var r := w.reconnects[s];
    assert ReconnectFits(w, s, r);
    NamesAt(w, r.id);
    InNames(w.reconnects, s);
  }

  /** The player's seat and its token, both under the new session. */
  ghost function SeatAndTokenMoved(w: World, e: Event, token: Token): World
    requires e.Register? && e.r.Reconnected?
  {
    var id := e.r.dungeonId;
    if id !in w.udp then w
    else
      w.(registry := Answered(w.registry, e.s, e.player, e.grace, e.r), registered := w.registered + {e.s},
         udp := w.udp[id := Replaced(w.udp[id], e.r.old_, e.s, token)])
  }

  /** A reconnect is all or nothing. When the UDP side gives the seat a token, seat and token
      have both moved and nothing else has; when it refuses, the rollback is accepted and leaves
      no trace but the fact that the session has registered. */
  lemma ReconnectIsAllOrNothing(w: World, e: Event, token: Token)
    requires RegistryFits(w) && e.Register? && Enabled(w, e) && e.r.Reconnected?
    ensures
      var moved := After(w, [e, ReplaceUdp(e.s, Some(token))]);
      moved.Some? ==> moved.value == SeatAndTokenMoved(w, e, token)
    ensures After(w, [e, ReplaceUdp(e.s, None), ReturnSeat(e.s)]) == Some(w.(registered := w.registered + {e.s}))
  {
    hide RegistryFits, Next, Enabled, SeatAndTokenMoved, After;
    TakenIs(w, e);
    NewcomerIsOut(w, e.s);
    TokenFollowsSeat(w, e, token);
    RefusalLeavesNoTrace(w, e);
    AfterTwo(w, e, ReplaceUdp(e.s, Some(token)));
    AfterTwo(w, e, ReplaceUdp(e.s, None));
    AfterOneMore(w, [e, ReplaceUdp(e.s, None)], ReturnSeat(e.s));
    assert [e, ReplaceUdp(e.s, None)] + [ReturnSeat(e.s)] == [e, ReplaceUdp(e.s, None), ReturnSeat(e.s)];
  }

  lemma TokenFollowsSeat(w: World, e: Event, token: Token)
    requires e.Register? && Enabled(w, e) && e.r.Reconnected? && e.s !in w.reconnects
    ensures Enabled(Next(w, e), ReplaceUdp(e.s, Some(token))) ==>
      Next(Next(w, e), ReplaceUdp(e.s, Some(token))) == SeatAndTokenMoved(w, e, token)
  {
    hide Next, Enabled, Replaced, Answered, CanAnswer;
    TakenIs(w, e);
    ReplacementIs(Next(w, e), e.s, token);
    assert Next(w, e).reconnects - {e.s} == w.reconnects;
  }

  lemma RefusalLeavesNoTrace(w: World, e: Event)
    requires e.Register? && Enabled(w, e) && e.r.Reconnected?
    requires Sound(w.registry) && e.s !in w.reconnects && e.s !in w.registry.authenticated
    ensures Enabled(Next(w, e), ReplaceUdp(e.s, None))
    ensures
      var refused := Next(Next(w, e), ReplaceUdp(e.s, None));
      Enabled(refused, ReturnSeat(e.s)) && Next(refused, ReturnSeat(e.s)) == w.(registered := w.registered + {e.s})
  {
    hide Sound, Next, Enabled, CanAnswer, Answered, CanReturn, Returned;
    TakenIs(w, e);
    RollbackRestores(w.registry, e.s, e.player, e.now, e.grace, e.r.dungeonId, e.r.old_, e.r.at);
    var taken := Next(w, e);
    ReplacementIs(taken, e.s, 0);
    var refused := Next(taken, ReplaceUdp(e.s, None));
    ReturnIs(refused, e.s);
    assert refused.reconnects - {e.s} == w.reconnects;
  }

  lemma TakenIs(w: World, e: Event)
    requires e.Register? && Enabled(w, e) && e.r.Reconnected?
    ensures CanAnswer(w.registry, e.s, e.player, e.now, e.grace, e.r) && e.s !in w.registered && e.s !in w.absent
    ensures Next(w, e) == w.(
      registry := Answered(w.registry, e.s, e.player, e.grace, e.r), registered := w.registered + {e.s},
      reconnects := w.reconnects[e.s := Reconnecting(e.r.dungeonId, e.player, e.r.old_, e.r.at, false)])
  {
    hide CanAnswer, Answered;
  }

  lemma ReplacementIs(w: World, s: SessionId, token: Token)
    requires s in w.reconnects && !w.reconnects[s].failed
    ensures
      var r := w.reconnects[s];
      && Enabled(w, ReplaceUdp(s, None))
      && Next(w, ReplaceUdp(s, None)) == w.(reconnects := w.reconnects[s := r.(failed := true)])
      && (Enabled(w, ReplaceUdp(s, Some(token))) ==>
            && r.id in w.udp
            && Next(w, ReplaceUdp(s, Some(token))) ==
                 w.(udp := w.udp[r.id := Replaced(w.udp[r.id], r.old_, s, token)], reconnects := w.reconnects - {s}))
  {
    hide CanReplace, Replaced;
  }

  lemma ReturnIs(w: World, s: SessionId)
    requires s in w.reconnects && w.reconnects[s].failed
    requires CanReturn(w.registry, w.reconnects[s].id, w.reconnects[s].player, s, w.reconnects[s].old_)
    ensures
      var r := w.reconnects[s];
      && Enabled(w, ReturnSeat(s))
      && Next(w, ReturnSeat(s)) ==
           w.(registry := Returned(w.registry, r.id, r.player, s, r.old_, r.at), reconnects := w.reconnects - {s})
  {
    hide CanReturn, Returned;
  }

  lemma NewcomerIsOut(w: World, s: SessionId)
    requires RegistryFits(w) && s !in w.registered && s !in w.absent
    ensures Sound(w.registry) && s !in w.reconnects && s !in w.registry.authenticated
  {
    hide Sound, NumbersFit, DropsFit;
    NewcomerIsPresent(w, s);
  }

  lemma ReclaimedIsSeated(w: World, e: Event)
    requires e.Register? && Enabled(w, e) && e.r.Reconnected?
    ensures Seated(w.registry, e.r.dungeonId, e.r.old_)
  {
  }

  /** A dungeon id that has been used and released never comes back. */
  lemma {:induction false} IdsAreNeverReused(w: World, events: seq<Event>, id: DungeonId)
    requires After(w, events).Some?
    requires id < w.registry.next && id !in w.registry.dungeons
    ensures id < After(w, events).value.registry.next && id !in After(w, events).value.registry.dungeons
  {
    hide Enabled, Next;
    if events != [] {
      IdsAreNeverReused(w, events[..|events| - 1], id);
      OneStepReusesNothing(After(w, events[..|events| - 1]).value, events[|events| - 1], id);
    }
  }

  lemma OneStepReusesNothing(w: World, e: Event, id: DungeonId)
    requires Enabled(w, e) && id < w.registry.next && id !in w.registry.dungeons
    ensures id < Next(w, e).registry.next && id !in Next(w, e).registry.dungeons
  {
    hide Enabled, Next;
    NumbersGrow(w, e);
  }

  lemma NumbersGrow(w: World, e: Event)
    requires Enabled(w, e)
    ensures Next(w, e).registry.next >= w.registry.next
    ensures forall id :: id in Next(w, e).registry.dungeons ==> id in w.registry.dungeons || id >= w.registry.next
  {
    if !OnRegistry(e) {
      hide Enabled, Next;
      RegistryStays(w, e);
    } else {
      RegistryGrows(w, e);
    }
  }

  lemma RegistryGrows(w: World, e: Event)
    requires Enabled(w, e) && OnRegistry(e)
    ensures Next(w, e).registry.next >= w.registry.next
    ensures forall id :: id in Next(w, e).registry.dungeons ==> id in w.registry.dungeons || id >= w.registry.next
  {
    hide FreshRoster, CanAnswer, Answered, CanReport, Departed, CanReturn, Returned, Swept, RemovedSeats, ReleasedIds;
    hide MayAsk, Asking, LeftBehind;
    match e
    case Register(s, p, now, grace, r) => AnsweredStates(w.registry, s, p, now, grace, r);
    case Abandon(s, at, found) => DepartedStates(w.registry, s, at, found);
    case Disconnect(s, at, found) => DepartedStates(w.registry, s, at, found);
    case Sweep(now, grace, lifetime) => SweptStates(w.registry, w.registry.dungeons.Keys, now, grace, lifetime);
    case ReturnSeat(s) =>
      var r := w.reconnects[s];
      if CanReturn(w.registry, r.id, r.player, s, r.old_) {
        ReturnedStates(w.registry, r.id, r.player, s, r.old_, r.at);
      }
    case _ =>
  }

  lemma ReturnedStates(m: Registry, id: DungeonId, p: PlayerId, new_: SessionId, old_: SessionId, at: Time)
    requires CanReturn(m, id, p, new_, old_)
    ensures
      var m' := Returned(m, id, p, new_, old_, at);
      SameStates(m, m') && m'.dungeons.Keys == m.dungeons.Keys
  {
    hide Relabelled, CanRollback;
  }
}
