/** The seat table of a dungeon: what its five participant containers stand for. */
module SeatTable {
  import opened Common
  import opened PlayerState

  /** One seat: the player it is bound to, the character in it, and since when its session is
      gone. The character is the object itself, not a copy. */
  datatype Seat = Seat(player: Option<PlayerId>, character: DungeonPlayerState, since: Option<Time>)

  /** The seats by the session that holds them, and the order of entry. */
  datatype Roster = Roster(order: seq<SessionId>, seats: map<SessionId, Seat>)

  ghost predicate WellSeated(r: Roster) {
    && ListsOnce(r.order, r.seats.Keys)
    && 0 !in r.seats
    && (forall s :: s in r.seats ==> r.seats[s].player != Some(0))
    && (forall s, t :: s in r.seats && t in r.seats && s != t ==>
          && (r.seats[s].player.Some? ==> r.seats[s].player != r.seats[t].player)
          && r.seats[s].character != r.seats[t].character)
  }

  ghost predicate Holds(r: Roster, s: SessionId, p: PlayerId) {
    s in r.seats && r.seats[s].player == Some(p)
  }

  // ---------------------------------------------------------------- operations

  /** BindParticipantPlayer. */
  ghost predicate CanBind(r: Roster, s: SessionId, p: PlayerId) {
    && s != 0 && p != 0 && s in r.seats
    && (if r.seats[s].player.Some? then r.seats[s].player == Some(p)
        else forall t :: t in r.seats ==> r.seats[t].player != Some(p))
  }

  ghost function Bound(r: Roster, s: SessionId, p: PlayerId): Roster {
    if CanBind(r, s, p) then r.(seats := r.seats[s := r.seats[s].(player := Some(p))]) else r
  }

  lemma RefusedBind(r: Roster, s: SessionId, p: PlayerId)
    ensures !CanBind(r, s, p) ==> Bound(r, s, p) == r
  {
  }

  /** DisconnectParticipant: the first report of a disconnect counts. */
  ghost function Vacated(r: Roster, s: SessionId, at: Time): Roster {
    if s in r.seats && r.seats[s].since.None?
    then r.(seats := r.seats[s := r.seats[s].(since := Some(at))])
    else r
  }

  ghost predicate Overdue(seat: Seat, now: Time, grace: Time) {
    seat.since.Some? && now - seat.since.value >= grace
  }

  /** ReconnectParticipant takes over seat `old_` for `new_`. */
  ghost predicate CanReclaim(
    r: Roster, p: PlayerId, old_: SessionId, new_: SessionId, now: Time, grace: Time)
  {
    && p != 0 && new_ != 0 && grace > 0
    && Holds(r, old_, p) && new_ !in r.seats
    && r.seats[old_].since.Some? && r.seats[old_].since.value <= now
    && !Overdue(r.seats[old_], now, grace)
  }

  /** The same seats with one session renamed in place. */
  ghost function Relabelled(r: Roster, from: SessionId, to: SessionId, since: Option<Time>): Roster
    requires from in r.seats
  {
    Roster(Renamed(r.order, from, to), (r.seats - {from})[to := r.seats[from].(since := since)])
  }

  function Renamed(order: seq<SessionId>, from: SessionId, to: SessionId): seq<SessionId> {
    seq(|order|, i requires 0 <= i < |order| => if order[i] == from then to else order[i])
  }

  /** RollbackParticipantReconnect is accepted. */
  ghost predicate CanRollback(r: Roster, p: PlayerId, new_: SessionId, old_: SessionId) {
    && p != 0 && new_ != 0 && old_ != 0
    && Holds(r, new_, p) && old_ !in r.seats
  }

  ghost function Expired(r: Roster, now: Time, grace: Time): set<SessionId> {
    if grace <= 0 then {} else set s | s in r.seats && Overdue(r.seats[s], now, grace)
  }

  /** The roster without some seats. */
  ghost function Dropped(r: Roster, gone: set<SessionId>): Roster {
    Roster(Excluding(r.order, gone), r.seats - gone)
  }

  // ---------------------------------------------------------------- what they keep

  lemma BoundIsWellSeated(r: Roster, s: SessionId, p: PlayerId)
    requires WellSeated(r)
    ensures WellSeated(Bound(r, s, p))
  {
  }

  lemma VacatedIsWellSeated(r: Roster, s: SessionId, at: Time)
    requires WellSeated(r)
    ensures WellSeated(Vacated(r, s, at))
  {
  }

  lemma RelabelledIsWellSeated(r: Roster, from: SessionId, to: SessionId, since: Option<Time>)
    requires WellSeated(r) && from in r.seats && to !in r.seats && to != 0
    ensures WellSeated(Relabelled(r, from, to, since))
  {
    var r' := Relabelled(r, from, to, since);
    RenamedListsOnce(r.order, r.seats.Keys, from, to);
    assert r'.seats.Keys == r.seats.Keys - {from} + {to};
  }

  lemma RenamedListsOnce(order: seq<SessionId>, members: set<SessionId>, from: SessionId, to: SessionId)
    requires ListsOnce(order, members) && from in members && to !in members
    ensures ListsOnce(Renamed(order, from, to), members - {from} + {to})
  {
    var order' := Renamed(order, from, to);
    forall s | s in members - {from} + {to}
      ensures s in order'
    {
      var before := if s == to then from else s;
      var i :| 0 <= i < |order| && order[i] == before;
      assert order'[i] == s;
    }
  }

  lemma DroppedIsWellSeated(r: Roster, gone: set<SessionId>)
    requires WellSeated(r)
    ensures WellSeated(Dropped(r, gone))
  {
    ExcludingListsOnce(r.order, r.seats.Keys, gone);
  }

  // ---------------------------------------------------------------- laws

  /** For one clock reading and grace, a bound and disconnected seat can be reclaimed by a
      fresh session exactly when it is not swept: the two intervals meet without overlap. */
  lemma ReclaimXorSweep(r: Roster, p: PlayerId, s: SessionId, fresh_: SessionId, now: Time, grace: Time)
    requires WellSeated(r) && Holds(r, s, p) && r.seats[s].since.Some?
    requires fresh_ != 0 && fresh_ !in r.seats && grace > 0
    ensures CanReclaim(r, p, s, fresh_, now, grace) <==>
      r.seats[s].since.value <= now < r.seats[s].since.value + grace
    ensures s in Expired(r, now, grace) <==> now >= r.seats[s].since.value + grace
    ensures r.seats[s].since.value <= now ==>
      (CanReclaim(r, p, s, fresh_, now, grace) <==> s !in Expired(r, now, grace))
  {
  }

  /** A rollback undoes a reconnect completely: order, seats, players, times. */
  lemma RollbackUndoesReconnect(
    r: Roster, p: PlayerId, old_: SessionId, new_: SessionId, now: Time, grace: Time)
    requires WellSeated(r) && CanReclaim(r, p, old_, new_, now, grace)
    ensures
      var reclaimed := Relabelled(r, old_, new_, None);
      && CanRollback(reclaimed, p, new_, old_)
      && Relabelled(reclaimed, new_, old_, r.seats[old_].since) == r
  {
    var reclaimed := Relabelled(r, old_, new_, None);
    var back := Relabelled(reclaimed, new_, old_, r.seats[old_].since);
    assert forall i :: 0 <= i < |r.order| ==> r.order[i] in r.seats;
    assert back.order == r.order;
    assert back.seats == r.seats;
  }

  /** A reconnect changes nothing but the label: same place in the order, same player, same
      character object, everyone else untouched. */
  lemma ReconnectKeepsTheSeat(
    r: Roster, p: PlayerId, old_: SessionId, new_: SessionId, now: Time, grace: Time)
    requires WellSeated(r) && CanReclaim(r, p, old_, new_, now, grace)
    ensures
      var r' := Relabelled(r, old_, new_, None);
      && |r'.order| == |r.order|
      && (forall i :: 0 <= i < |r.order| ==> r'.order[i] == if r.order[i] == old_ then new_ else r.order[i])
      && r'.seats.Keys == r.seats.Keys - {old_} + {new_}
      && r'.seats[new_] == Seat(Some(p), r.seats[old_].character, None)
      && (forall s :: s in r.seats && s != old_ ==> r'.seats[s] == r.seats[s])
  {
  }

  /** At most one seat can be reclaimed by a player. */
  lemma ReclaimIsUnambiguous(
    r: Roster, p: PlayerId, a: SessionId, b: SessionId, new_: SessionId, now: Time, grace: Time)
    requires WellSeated(r)
    requires CanReclaim(r, p, a, new_, now, grace) && CanReclaim(r, p, b, new_, now, grace)
    ensures a == b
  {
  }
}
