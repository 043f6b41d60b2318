/** What a tick does to the running dungeons (src/DungeonTickService.cpp), as the two managers see
    it: idle endpoints are silenced, the inputs that have come are taken, and a dungeon in which
    nothing is left to do is finished. */
module RunningPass {
  import opened Common
  import opened SeatTable
  import opened DungeonInstances
  import opened DungeonRegistry
  import opened UdpSession
  import opened DungeonUdpManagers
  import opened LifecycleRuns
  import opened DungeonLifecycleServices
  import opened StartGate

  ghost function RunningIds(w: World): set<DungeonId> {
    set id | id in w.registry.dungeons && w.registry.dungeons[id].state.Running?
  }

  /** One running dungeon's turn. */
  ghost function Ran(w: World, id: DungeonId, now: Time, idle: Time, cleared: bool): World
    requires id in w.registry.dungeons
  {
    w.(registry := if cleared then WithState(w.registry, id, Finished) else w.registry,
       udp := Emptied(Carried(w.udp, id, Prune(now, idle)), id))
  }

  /** The times of the finished dungeons are kept beside the world; the first one counts. */
  ghost function RanOne(g: Gate, id: DungeonId, now: Time, idle: Time, cleared: bool): Gate
    requires id in g.w.registry.dungeons
  {
    Gate(Ran(g.w, id, now, idle, cleared), if cleared && id !in g.since then g.since[id := now] else g.since)
  }

  ghost function AfterTurn(seen: Glance, now: Time, idle: Time, cleared: bool): Glance
    requires seen.dungeon.Some?
  {
    Glance(
      if cleared then Some(seen.dungeon.value.(state := Finished)) else seen.dungeon,
      if seen.udp.Some? then Some(Attended(seen.udp.value, now, idle)) else None,
      if cleared && seen.since.None? then Some(now) else seen.since)
  }

  /** Nobody idle and no input left. */
  ghost function Attended(u: Udp, now: Time, idle: Time): Udp {
    var pruned := Handled(u, Prune(now, idle));
    pruned.(movements := pruned.movements.(queue := []), attacks := pruned.attacks.(queue := []))
  }

  /** The dungeons of a list, one after the other. */
  ghost function RanAll(g: Gate, ids: seq<DungeonId>, now: Time, idle: Time, cleared: set<DungeonId>): Gate {
    if ids == [] then g
    else
      var before := RanAll(g, ids[..|ids| - 1], now, idle, cleared);
      var id := ids[|ids| - 1];
      if id in before.w.registry.dungeons then RanOne(before, id, now, idle, id in cleared) else before
  }

  lemma RanAt(g: Gate, id: DungeonId, now: Time, idle: Time, cleared: bool, other: DungeonId)
    requires id in g.w.registry.dungeons
    ensures At(RanOne(g, id, now, idle, cleared), other) ==
      if other == id then AfterTurn(At(g, id), now, idle, cleared) else At(g, other)
  {
    hide Handled;
  }

  /** Where a dungeon stands in the pass: a turn touches no dungeon but its own. */
  lemma {:induction false} RunningAt(
    g: Gate, ids: seq<DungeonId>, now: Time, idle: Time, cleared: set<DungeonId>, id: DungeonId)
    requires Distinct(ids) && forall i :: i in ids ==> i in g.w.registry.dungeons
    ensures At(RanAll(g, ids, now, idle, cleared), id) ==
      if id in ids then AfterTurn(At(g, id), now, idle, id in cleared) else At(g, id)
    ensures
      var seen, after := At(g, id), At(RanAll(g, ids, now, idle, cleared), id);
      id in ids ==>
        && after.dungeon == Some(if id in cleared then seen.dungeon.value.(state := Finished) else seen.dungeon.value)
        && after.since == (if id in cleared && seen.since.None? then Some(now) else seen.since)
        && (after.udp.Some? <==> seen.udp.Some?)
  {
    if ids != [] {
      hide RanOne, AfterTurn;
      var init, last := ids[..|ids| - 1], ids[|ids| - 1];
      RunningAt(g, init, now, idle, cleared, id);
      RunningAt(g, init, now, idle, cleared, last);
      assert ids == init + [last] && last !in init;
      RanAt(RanAll(g, init, now, idle, cleared), last, now, idle, last in cleared, id);
    }
  }

  lemma RunningBegins(g: Gate, ids: seq<DungeonId>, now: Time, idle: Time)
    ensures RanAll(g, ids[..0], now, idle, {}) == g
  {
  }

  /** The next dungeon of the list is still there and running when its turn comes. */
  lemma RunningNext(g: Gate, ids: seq<DungeonId>, i: nat, now: Time, idle: Time, cleared: set<DungeonId>, ends: bool)
    requires ListsOnce(ids, RunningIds(g.w)) && i < |ids| && ids[i] !in cleared
    ensures
      var before := RanAll(g, ids[..i], now, idle, cleared);
      && ids[i] in RunningIds(before.w)
      && RanAll(g, ids[..i + 1], now, idle, if ends then cleared + {ids[i]} else cleared) ==
           RanOne(before, ids[i], now, idle, ends)
  {
    hide RanOne;
    assert ids[..i + 1][..i] == ids[..i] && ids[i] !in ids[..i];
    assert ids[i] in RunningIds(g.w);
    forall k | k in ids[..i]
      ensures k in g.w.registry.dungeons
    {
      assert k in ids;
      assert k in RunningIds(g.w);
    }
    RunningAt(g, ids[..i], now, idle, cleared, ids[i]);
    assert At(RanAll(g, ids[..i], now, idle, cleared), ids[i]) == At(g, ids[i]);
    ClearedLater(g, ids[..i], now, idle, cleared, ids[i]);
  }

  /** Until then nobody touches what has come for it. */
  lemma UdpUntilTurn(g: Gate, ids: seq<DungeonId>, i: nat, now: Time, idle: Time, cleared: set<DungeonId>)
    requires ListsOnce(ids, RunningIds(g.w)) && i < |ids|
    ensures Lookup(RanAll(g, ids[..i], now, idle, cleared).w.udp, ids[i]) == Lookup(g.w.udp, ids[i])
  {
    hide RanAll;
    assert ids[i] !in ids[..i];
    forall k | k in ids[..i]
      ensures k in g.w.registry.dungeons
    {
      assert k in ids;
      assert k in RunningIds(g.w);
    }
    RunningAt(g, ids[..i], now, idle, cleared, ids[i]);
  }

  lemma {:induction false} ClearedLater(
    g: Gate, ids: seq<DungeonId>, now: Time, idle: Time, cleared: set<DungeonId>, id: DungeonId)
    requires id !in ids
    ensures RanAll(g, ids, now, idle, cleared + {id}) == RanAll(g, ids, now, idle, cleared)
  {
    if ids != [] {
      hide RanOne;
      ClearedLater(g, ids[..|ids| - 1], now, idle, cleared, id);
      assert ids[|ids| - 1] in cleared + {id} <==> ids[|ids| - 1] in cleared;
    }
  }

  /** A turn silences exactly the sessions that have been idle for the timeout, leaves the endpoints,
      times and sequences of the others and all tokens alone, and takes every input. */
  lemma TurnSilencesTheIdle(u: Udp, now: Time, idle: Time)
    requires idle > 0
    ensures
      var after := Attended(u, now, idle);
      && after.tokens == u.tokens && after.movements.queue == [] && after.attacks.queue == []
      && (forall s :: s in after.lastActivity ==> now < after.lastActivity[s] + idle)
      && forall s ::
           if s in u.lastActivity && u.lastActivity[s] + idle <= now then
             && s !in after.endpoints && s !in after.lastActivity
             && s !in after.movements.last && s !in after.attacks.last
           else
             && Lookup(after.endpoints, s) == Lookup(u.endpoints, s)
             && Lookup(after.lastActivity, s) == Lookup(u.lastActivity, s)
             && Lookup(after.movements.last, s) == Lookup(u.movements.last, s)
             && Lookup(after.attacks.last, s) == Lookup(u.attacks.last, s)
  {
  }

  // ---------------------------------------------------------------- the turn as a run

  /** So many inputs taken off a dungeon's queue. */
  ghost function Pops(id: DungeonId, pop: Traffic, n: nat): seq<Event> {
    seq(n, i => Datagram(id, pop))
  }

  /** The locked sections of a turn. */
  ghost function TurnSteps(w: World, id: DungeonId, now: Time, idle: Time, cleared: bool): seq<Event> {
    var pruned := Carried(w.udp, id, Prune(now, idle));
    [Datagram(id, Prune(now, idle))] + Pops(id, PopMovement, |MovementQueue(pruned, id)|)
      + Pops(id, PopAttack, |AttackQueue(pruned, id)|) + if cleared then [Clear(id)] else []
  }

  lemma {:induction false} MovementPops(w: World, id: DungeonId, n: nat)
    requires id in w.udp && n <= |MovementQueue(w.udp, id)|
    ensures After(w, Pops(id, PopMovement, n)) ==
      Some(w.(udp := WithMovements(w.udp, id, MovementQueue(w.udp, id)[n..])))
  {
    var queue := MovementQueue(w.udp, id);
    QueuesReplaced(w.udp, id);
    if n == 0 {
      assert queue[0..] == queue;
    } else {
      MovementPops(w, id, n - 1);
      var udp := WithMovements(w.udp, id, queue[n - 1..]);
      PoppedQueues(udp, id);
      assert MovementQueue(udp, id) == queue[n - 1..] && queue[n - 1..][1..] == queue[n..];
      AfterOneMore(w, Pops(id, PopMovement, n - 1), Datagram(id, PopMovement));
      assert Pops(id, PopMovement, n - 1) + [Datagram(id, PopMovement)] == Pops(id, PopMovement, n);
    }
  }

  lemma {:induction false} AttackPops(w: World, id: DungeonId, n: nat)
    requires id in w.udp && n <= |AttackQueue(w.udp, id)|
    ensures After(w, Pops(id, PopAttack, n)) ==
      Some(w.(udp := WithAttacks(w.udp, id, AttackQueue(w.udp, id)[n..])))
  {
    var queue := AttackQueue(w.udp, id);
    QueuesReplaced(w.udp, id);
    if n == 0 {
      assert queue[0..] == queue;
    } else {
      AttackPops(w, id, n - 1);
      var udp := WithAttacks(w.udp, id, queue[n - 1..]);
      PoppedQueues(udp, id);
      assert AttackQueue(udp, id) == queue[n - 1..] && queue[n - 1..][1..] == queue[n..];
      AfterOneMore(w, Pops(id, PopAttack, n - 1), Datagram(id, PopAttack));
      assert Pops(id, PopAttack, n - 1) + [Datagram(id, PopAttack)] == Pops(id, PopAttack, n);
    }
  }

  /** Every idle endpoint is out and every input is taken. */
  lemma EmptyingRun(w: World, id: DungeonId, now: Time, idle: Time)
    requires id in w.udp
    ensures After(w, TurnSteps(w, id, now, idle, false)) ==
      Some(w.(udp := Emptied(Carried(w.udp, id, Prune(now, idle)), id)))
  {
    hide Enabled, Next, After, WithMovements, WithAttacks, MovementQueue, AttackQueue, Carried;
    var prune, pruned := Datagram(id, Prune(now, idle)), w.(udp := Carried(w.udp, id, Prune(now, idle)));
    PruneIs(w, id, now, idle);
    var moved := pruned.(udp := WithMovements(pruned.udp, id, []));
    MovedOnly(pruned.udp, id);
    var moves := Pops(id, PopMovement, |MovementQueue(pruned.udp, id)|);
    var strikes := Pops(id, PopAttack, |AttackQueue(pruned.udp, id)|);
    AfterOne(w, prune);
    MovementPops(pruned, id, |MovementQueue(pruned.udp, id)|);
    assert MovementQueue(pruned.udp, id)[|MovementQueue(pruned.udp, id)|..] == [];
    AttackPops(moved, id, |AttackQueue(pruned.udp, id)|);
    assert AttackQueue(moved.udp, id)[|AttackQueue(pruned.udp, id)|..] == [];
    AfterConcat(w, [prune], moves);
    AfterConcat(w, [prune] + moves, strikes);
    assert [prune] + moves + strikes == TurnSteps(w, id, now, idle, false);
  }

  lemma PruneIs(w: World, id: DungeonId, now: Time, idle: Time)
    requires id in w.udp
    ensures Enabled(w, Datagram(id, Prune(now, idle))) && id in Carried(w.udp, id, Prune(now, idle))
    ensures Next(w, Datagram(id, Prune(now, idle))) == w.(udp := Carried(w.udp, id, Prune(now, idle)))
  {
    hide Handled;
  }

  lemma MovedOnly(udp: map<DungeonId, Udp>, id: DungeonId)
    requires id in udp
    ensures id in WithMovements(udp, id, []) && AttackQueue(WithMovements(udp, id, []), id) == AttackQueue(udp, id)
  {
  }

  lemma ClearIs(w: World, id: DungeonId)
    requires id in w.registry.dungeons && w.registry.dungeons[id].state.Running?
    ensures Enabled(w, Clear(id)) && Next(w, Clear(id)) == w.(registry := WithState(w.registry, id, Finished))
  {
    hide WithState;
  }

  /** A turn is a run of locked sections, and keeps the two sides together. */
  lemma TurnRun(w: World, id: DungeonId, now: Time, idle: Time, cleared: bool)
    requires Invariant(w) && id in w.registry.dungeons && w.registry.dungeons[id].state.Running? && id in w.udp
    ensures After(w, TurnSteps(w, id, now, idle, cleared)) == Some(Ran(w, id, now, idle, cleared))
    ensures Invariant(Ran(w, id, now, idle, cleared))
  {
    hide Invariant, Enabled, Next, After, Emptied, Carried, WithState;
    var steps := TurnSteps(w, id, now, idle, false);
    EmptyingRun(w, id, now, idle);
    if cleared {
      var emptied := w.(udp := Emptied(Carried(w.udp, id, Prune(now, idle)), id));
      ClearIs(emptied, id);
      AfterOneMore(w, steps, Clear(id));
      assert steps + [Clear(id)] == TurnSteps(w, id, now, idle, true);
    }
    StepsKeep(w, TurnSteps(w, id, now, idle, cleared));
  }
}
