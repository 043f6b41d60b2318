/** The five participant containers of src/DungeonInstance.cpp as plain values, and what each
    operation on them does to the seat table they stand for. */
module SeatIndex {
  import opened Common
  import opened PlayerState
  import opened SeatTable

  datatype Index = Index(
    participants: seq<SessionId>,
    players: map<SessionId, DungeonPlayerState>,
    playerIds: map<SessionId, PlayerId>,
    playerSessions: map<PlayerId, SessionId>,
    since: map<SessionId, Time>)

  /** Which player sits where, both ways round. */
  ghost predicate Inverse(playerIds: map<SessionId, PlayerId>, playerSessions: map<PlayerId, SessionId>) {
    && (forall s :: s in playerIds ==> playerIds[s] in playerSessions && playerSessions[playerIds[s]] == s)
    && (forall p :: p in playerSessions ==> playerSessions[p] in playerIds && playerIds[playerSessions[p]] == p)
  }

  ghost predicate Injective(players: map<SessionId, DungeonPlayerState>) {
    forall s, t :: s in players && t in players && s != t ==> players[s] != players[t]
  }

  /** The containers agree with each other. */
  ghost predicate Indexed(x: Index) {
    && ListsOnce(x.participants, x.players.Keys)
    && 0 !in x.players
    && Injective(x.players)
    && x.playerIds.Keys <= x.players.Keys
    && x.since.Keys <= x.players.Keys
    && 0 !in x.playerSessions
    && Inverse(x.playerIds, x.playerSessions)
  }

  ghost function SeatAt(x: Index, s: SessionId): Seat
    requires s in x.players
  {
    Seat(Lookup(x.playerIds, s), x.players[s], Lookup(x.since, s))
  }

  /** The seat table the containers stand for. */
  ghost function SeatsOf(x: Index): Roster {
    Roster(x.participants, map s | s in x.players :: SeatAt(x, s))
  }

  lemma IndexedMeansWellSeated(x: Index)
    requires Indexed(x)
    ensures WellSeated(SeatsOf(x))
  {
  }

  // ---------------------------------------------------------------- bind

  lemma BindDecision(x: Index, s: SessionId, p: PlayerId)
    requires Indexed(x) && s != 0 && p != 0 && s in x.players
    ensures CanBind(SeatsOf(x), s, p) <==>
      if s in x.playerIds then x.playerIds[s] == p else p !in x.playerSessions
    ensures s in x.playerIds ==> Bound(SeatsOf(x), s, p) == SeatsOf(x)
  {
    if s !in x.playerIds && p in x.playerSessions {
      assert SeatsOf(x).seats[x.playerSessions[p]].player == Some(p);
    }
    if s in x.playerIds && x.playerIds[s] == p {
      assert SeatsOf(x).seats[s := SeatAt(x, s)] == SeatsOf(x).seats;
    }
  }

  function BindIndex(x: Index, s: SessionId, p: PlayerId): Index {
    x.(playerIds := x.playerIds[s := p], playerSessions := x.playerSessions[p := s])
  }

  lemma BindIndexed(x: Index, s: SessionId, p: PlayerId)
    requires Indexed(x) && s != 0 && p != 0 && s in x.players
    requires s !in x.playerIds && p !in x.playerSessions
    ensures Indexed(BindIndex(x, s, p)) && SeatsOf(BindIndex(x, s, p)) == Bound(SeatsOf(x), s, p)
  {
    BindDecision(x, s, p);
    assert SeatsOf(BindIndex(x, s, p)).seats == Bound(SeatsOf(x), s, p).seats;
  }

  // ---------------------------------------------------------------- disconnect

  lemma VacateIndexed(x: Index, s: SessionId, at: Time)
    requires Indexed(x) && s in x.players
    ensures
      var x' := if s in x.since then x else x.(since := x.since[s := at]);
      Indexed(x') && SeatsOf(x') == Vacated(SeatsOf(x), s, at)
  {
    if s !in x.since {
      assert SeatsOf(x.(since := x.since[s := at])).seats == Vacated(SeatsOf(x), s, at).seats;
    }
  }

  // ---------------------------------------------------------------- reconnect and rollback

  lemma BoundSeat(x: Index, p: PlayerId)
    requires Indexed(x) && p in x.playerSessions
    ensures x.playerSessions[p] in x.players && Distinct(x.participants) && Injective(x.players)
  {
  }

  /** What ReconnectParticipant looks up decides reclaiming, and for one seat only. */
  lemma ReclaimDecision(x: Index, p: PlayerId, new_: SessionId, now: Time, grace: Time)
    requires Indexed(x) && p != 0 && new_ != 0 && grace > 0
    ensures forall s :: CanReclaim(SeatsOf(x), p, s, new_, now, grace) <==>
      && p in x.playerSessions && s == x.playerSessions[p]
      && s in x.since && new_ !in x.players && x.since[s] <= now && now - x.since[s] < grace
  {
  }

  lemma RollbackDecision(x: Index, p: PlayerId, new_: SessionId, old_: SessionId)
    requires Indexed(x) && p != 0 && new_ != 0 && old_ != 0
    ensures CanRollback(SeatsOf(x), p, new_, old_) <==>
      && p in x.playerSessions && x.playerSessions[p] == new_
      && new_ in x.players && old_ !in x.players
  {
  }

  /** Both directions rename a session in four containers. */
  function RelabelIndex(x: Index, p: PlayerId, from: SessionId, to: SessionId): Index
    requires from in x.players
  {
    x.(participants := Renamed(x.participants, from, to),
       players := (x.players - {from})[to := x.players[from]],
       playerIds := (x.playerIds - {from})[to := p],
       playerSessions := x.playerSessions[p := to])
  }

  lemma RelabelledInverse(x: Index, p: PlayerId, from: SessionId, to: SessionId)
    requires Inverse(x.playerIds, x.playerSessions)
    requires p in x.playerSessions && x.playerSessions[p] == from && to !in x.playerIds
    ensures Inverse((x.playerIds - {from})[to := p], x.playerSessions[p := to])
  {
  }

  lemma RelabelledInjective(players: map<SessionId, DungeonPlayerState>, from: SessionId, to: SessionId)
    requires Injective(players) && from in players && to !in players
    ensures Injective((players - {from})[to := players[from]])
    ensures (players - {from})[to := players[from]].Keys == players.Keys - {from} + {to}
  {
  }

  function RelabelledTimes(x: Index, from: SessionId, to: SessionId, since: Option<Time>): map<SessionId, Time> {
    if since.Some? then (x.since - {from})[to := since.value] else x.since - {from}
  }

  lemma RelabelledSeats(x: Index, p: PlayerId, from: SessionId, to: SessionId, since: Option<Time>)
    requires from in x.players && from in x.playerIds && x.playerIds[from] == p
    requires to !in x.players && to !in x.since
    ensures SeatsOf(RelabelIndex(x, p, from, to).(since := RelabelledTimes(x, from, to, since))) ==
      Relabelled(SeatsOf(x), from, to, since)
  {
    var x' := RelabelIndex(x, p, from, to).(since := RelabelledTimes(x, from, to, since));
    assert SeatsOf(x').seats == Relabelled(SeatsOf(x), from, to, since).seats;
  }

  lemma RelabelIndexed(x: Index, p: PlayerId, from: SessionId, to: SessionId, since: Option<Time>)
    requires Indexed(x) && p in x.playerSessions && x.playerSessions[p] == from
    requires to !in x.players && to != 0
    ensures from in x.players
    ensures
      var x' := RelabelIndex(x, p, from, to).(since := RelabelledTimes(x, from, to, since));
      Indexed(x') && SeatsOf(x') == Relabelled(SeatsOf(x), from, to, since)
  {
    RelabelledInverse(x, p, from, to);
    RelabelledInjective(x.players, from, to);
    RenamedListsOnce(x.participants, x.players.Keys, from, to);
    RelabelledSeats(x, p, from, to, since);
  }

  /** RollbackParticipantReconnect does not look at the new session's entry in
      disconnectedSince. When there is one it stays behind without a seat, and that is the
      only way a rollback can break the containers. */
  lemma RollbackIndexed(x: Index, p: PlayerId, new_: SessionId, old_: SessionId, at: Time)
    requires Indexed(x) && p in x.playerSessions && x.playerSessions[p] == new_
    requires old_ !in x.players && old_ != 0
    ensures new_ in x.players
    ensures
      var x' := RelabelIndex(x, p, new_, old_).(since := x.since[old_ := at]);
      && (Indexed(x') <==> new_ !in x.since)
      && (Indexed(x') ==> SeatsOf(x') == Relabelled(SeatsOf(x), new_, old_, Some(at)))
  {
    var x' := RelabelIndex(x, p, new_, old_).(since := x.since[old_ := at]);
    if new_ in x.since {
      assert new_ in x'.since && new_ !in x'.players;
    } else {
      RelabelIndexed(x, p, new_, old_, Some(at));
      assert x.since - {new_} == x.since;
    }
  }

  // ---------------------------------------------------------------- removal

  /** One session out of all five containers. */
  ghost function RemoveIndex(x: Index, s: SessionId): Index {
    Index(
      Excluding(x.participants, {s}),
      x.players - {s},
      if s in x.playerIds then x.playerIds - {s} else x.playerIds,
      if s in x.playerIds then x.playerSessions - {x.playerIds[s]} else x.playerSessions,
      x.since - {s})
  }

  lemma RemoveIndexed(x: Index, s: SessionId)
    requires Indexed(x)
    ensures Indexed(RemoveIndex(x, s)) && SeatsOf(RemoveIndex(x, s)) == Dropped(SeatsOf(x), {s})
  {
    hide ListsOnce, Inverse;
    ExcludingListsOnce(x.participants, x.players.Keys, {s});
    RemovedInverse(x.playerIds, x.playerSessions, s);
    assert SeatsOf(RemoveIndex(x, s)).seats == SeatsOf(x).seats - {s};
  }

  lemma RemovedInverse(playerIds: map<SessionId, PlayerId>, playerSessions: map<PlayerId, SessionId>, s: SessionId)
    requires Inverse(playerIds, playerSessions)
    ensures s in playerIds ==> Inverse(playerIds - {s}, playerSessions - {playerIds[s]})
  {
  }

  lemma DroppedTwice(r: Roster, gone: set<SessionId>, s: SessionId)
    ensures Dropped(Dropped(r, gone), {s}) == Dropped(r, gone + {s})
  {
    ExcludingTwice(r.order, gone, {s});
    assert r.seats - gone - {s} == r.seats - (gone + {s});
  }
}
