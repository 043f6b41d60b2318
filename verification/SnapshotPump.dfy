/** The latest-wins snapshot sender of src/DungeonUdpSession.cpp as a state machine whose
    steps are its critical sections and strand handlers, in every interleaving. */
module SnapshotPump {
  import opened Common

  type Snapshot = seq<Byte>
  type Endpoint = nat

  const MAX_DUNGEON_DATAGRAM_SIZE := 1200

  /** Where the strand stands in the pump code. InFlight is an outstanding async_send_to:
      the strand itself is free then, as it is in Idle. */
  datatype Strand =
    | Idle | AtStopCheck | StopSeen | StopNotSeen | Taken | AtSendCheck | InFlight | Finishing

  /** DungeonUdpSessionStats. */
  datatype Stats = Stats(
    accepted: nat,
    replaced: nat,
    sent: nat,
    errors: nat,
    oversized: nat,
    pending: bool,
    inProgress: bool)

  /** What the executor holds: the strand's position, callers that left SendSnapshot's lock
      and must still dispatch, pump handlers waiting in the strand, and whether Stop has set
      its flag with its locked section still to come. */
  datatype Executor = Executor(strand: Strand, owedDispatches: nat, queuedPumps: nat, stopClearOwed: bool)

  datatype Pump = Pump(
    stopped: bool,
    pending: Option<Snapshot>,
    pumpScheduled: bool,
    stats: Stats,
    active: Option<Snapshot>,
    destinations: seq<Endpoint>,
    next: nat,
    x: Executor)

  /** What an observer has seen so far: the snapshots accepted, which of them were taken by
      the pump (by position), the completed sends (what was sent, and where), and how many were
      thrown away by Stop. */
  datatype History = History(
    accepted: seq<Snapshot>,
    pumped: seq<nat>,
    sends: seq<(Option<Snapshot>, Endpoint)>,
    discarded: nat)

  datatype State = State(p: Pump, h: History)

  datatype Event =
    | Submit(bytes: Snapshot)         // SendSnapshot up to the end of its locked section
    | Dispatch                        // its asio dispatch of the pump
    | RunPump                         // the strand starts the handler
    | CheckStopped
    | ClearStopped
    | Take
    | LoadDestinations(endpoints: seq<Endpoint>)
    | SendNext
    | SendDone(ok: bool)
    | Finish
    | SetStopped                      // Stop: the atomic exchange
    | StopClear                       // Stop: its locked section

  ghost predicate Enabled(s: State, e: Event) {
    match e
    case Submit(_) => true
    case Dispatch => s.p.x.owedDispatches > 0
    case RunPump => s.p.x.queuedPumps > 0 && (s.p.x.strand.Idle? || s.p.x.strand.InFlight?)
    case CheckStopped => s.p.x.strand.AtStopCheck?
    case ClearStopped => s.p.x.strand.StopSeen?
    case Take => s.p.x.strand.StopNotSeen?
    case LoadDestinations(_) => s.p.x.strand.Taken?
    case SendNext => s.p.x.strand.AtSendCheck?
    case SendDone(_) => s.p.x.strand.InFlight? && s.p.next < |s.p.destinations|
    case Finish => s.p.x.strand.Finishing?
    case SetStopped => !s.p.stopped
    case StopClear => s.p.x.stopClearOwed
  }

  function Discard(s: State): State {
    State(s.p.(pending := None, pumpScheduled := false, stats := s.p.stats.(pending := false)),
          s.h.(discarded := s.h.discarded + (if s.p.pending.Some? then 1 else 0)))
  }

  function Accept(s: State, bytes: Snapshot): State {
    State(
      s.p.(stats := s.p.stats.(accepted := s.p.stats.accepted + 1,
                               replaced := s.p.stats.replaced + (if s.p.pending.Some? then 1 else 0),
                               pending := true),
           pending := Some(bytes),
           pumpScheduled := true,
           x := s.p.x.(owedDispatches := s.p.x.owedDispatches + (if s.p.pumpScheduled then 0 else 1))),
      s.h.(accepted := s.h.accepted + [bytes]))
  }

  function MoveStrand(p: Pump, strand: Strand): Pump {
    p.(x := p.x.(strand := strand))
  }

  function TakePending(s: State): State {
    if s.p.pending.None? then
      s.(p := MoveStrand(s.p, Idle).(active := None, pumpScheduled := false,
                                     stats := s.p.stats.(pending := false, inProgress := false)))
    else
      State(MoveStrand(s.p, Taken).(active := s.p.pending, pending := None,
                                    stats := s.p.stats.(pending := false, inProgress := true)),
            s.h.(pumped := s.h.pumped + [if |s.h.accepted| == 0 then 0 else |s.h.accepted| - 1]))
  }

  ghost function Step(s: State, e: Event): State
    requires Enabled(s, e)
  {
    match e
    case Submit(bytes) =>
      if bytes == [] then s
      else if |bytes| > MAX_DUNGEON_DATAGRAM_SIZE then
        s.(p := s.p.(stats := s.p.stats.(oversized := s.p.stats.oversized + 1)))
      else if s.p.stopped then s
      else Accept(s, bytes)
    case Dispatch =>
      s.(p := s.p.(x := s.p.x.(owedDispatches := s.p.x.owedDispatches - 1, queuedPumps := s.p.x.queuedPumps + 1)))
    case RunPump =>
      s.(p := s.p.(x := s.p.x.(queuedPumps := s.p.x.queuedPumps - 1, strand := AtStopCheck)))
    case CheckStopped => s.(p := MoveStrand(s.p, if s.p.stopped then StopSeen else StopNotSeen))
    case ClearStopped =>
      var cleared := Discard(s);
      cleared.(p := MoveStrand(cleared.p, Idle).(stats := cleared.p.stats.(inProgress := false)))
    case Take => TakePending(s)
    case LoadDestinations(endpoints) => s.(p := MoveStrand(s.p, AtSendCheck).(destinations := endpoints, next := 0))
    case SendNext =>
      s.(p := MoveStrand(s.p, if s.p.stopped || s.p.next >= |s.p.destinations| then Finishing else InFlight))
    case SendDone(ok) =>
      State(MoveStrand(s.p, AtSendCheck).(
              stats := s.p.stats.(sent := s.p.stats.sent + (if ok then 1 else 0),
                                  errors := s.p.stats.errors + (if ok then 0 else 1)),
              next := s.p.next + 1),
            s.h.(sends := s.h.sends + [(s.p.active, s.p.destinations[s.p.next])]))
    case Finish =>
      s.(p := MoveStrand(s.p, AtStopCheck).(active := None, destinations := [], next := 0,
                                            stats := s.p.stats.(inProgress := false)))
    case SetStopped => s.(p := s.p.(stopped := true, x := s.p.x.(stopClearOwed := true)))
    case StopClear =>
      var cleared := Discard(s);
      cleared.(p := cleared.p.(x := cleared.p.x.(stopClearOwed := false)))
  }

  function Newest(pumped: seq<nat>): nat {
    if pumped == [] then 0 else pumped[|pumped| - 1]
  }

  const START := State(
    Pump(false, None, false, Stats(0, 0, 0, 0, 0, false, false), None, [], 0, Executor(Idle, 0, 0, false)),
    History([], [], [], 0))

  // ---------------------------------------------------------------- the invariant

  /** Pumps on their way or running. */
  function Outstanding(p: Pump): nat {
    p.x.owedDispatches + p.x.queuedPumps + (if p.x.strand.Idle? then 0 else 1)
  }

  /** The wake-up protocol: never two pumps; the flag says exactly whether there is one
      (until Stop has cleared it), and something pending always has one. */
  ghost predicate WakeUp(p: Pump) {
    && Outstanding(p) <= 1
    && (p.x.stopClearOwed ==> p.stopped)
    && (!p.stopped || p.x.stopClearOwed ==> (p.pumpScheduled <==> Outstanding(p) == 1))
    && (p.pending.Some? ==> p.pumpScheduled)
    && (p.stopped && !p.x.stopClearOwed ==> !p.pumpScheduled)
    && (p.x.strand.StopSeen? ==> p.stopped)
    && (p.stats.pending <==> p.pending.Some?)
    && (p.stats.inProgress <==> p.active.Some?)
    && (p.active.Some? <==> p.x.strand in {Taken, AtSendCheck, InFlight, Finishing})
  }

  ghost predicate Increasing(s: seq<nat>) {
    forall i, j :: 0 <= i < j < |s| ==> s[i] < s[j]
  }

  /** Latest wins: what is pending is the newest accepted snapshot and not yet pumped; the
      pumped ones are an in-order selection of the accepted ones. */
  ghost predicate LatestWins(s: State) {
    && Increasing(s.h.pumped)
    && (forall i :: 0 <= i < |s.h.pumped| ==> s.h.pumped[i] < |s.h.accepted|)
    && (s.p.pending.Some? ==>
      && s.h.accepted != []
      && s.p.pending.value == s.h.accepted[|s.h.accepted| - 1]
      && (s.h.pumped == [] || Newest(s.h.pumped) < |s.h.accepted| - 1))
    && (s.p.pending.None? && !s.p.stopped && s.h.accepted != [] ==>
      s.h.pumped != [] && Newest(s.h.pumped) == |s.h.accepted| - 1)
    && (s.p.active.Some? ==> s.h.pumped != [] && s.p.active.value == s.h.accepted[Newest(s.h.pumped)])
  }

  /** Conservation: every accepted snapshot was replaced, pumped, thrown away by Stop, or is
      pending; every completed send is counted once. */
  ghost predicate Accounts(s: State) {
    && s.p.stats.accepted == |s.h.accepted|
    && s.p.stats.accepted ==
         s.p.stats.replaced + |s.h.pumped| + s.h.discarded + (if s.p.pending.Some? then 1 else 0)
    && (!s.p.stopped ==> s.h.discarded == 0)
    && s.h.discarded <= 1
    && (s.h.discarded == 1 ==> s.p.pending.None?)
    && s.p.stats.sent + s.p.stats.errors == |s.h.sends|
  }

  /** The active snapshot has gone to the first `next` of its destinations, in order. */
  ghost predicate Delivering(s: State) {
    s.p.x.strand in {AtSendCheck, InFlight, Finishing} ==>
      && s.p.next <= |s.p.destinations| && s.p.next <= |s.h.sends|
      && (s.p.x.strand.InFlight? ==> s.p.next < |s.p.destinations|)
      && (s.p.x.strand.Finishing? && !s.p.stopped ==> s.p.next == |s.p.destinations|)
      && s.h.sends[|s.h.sends| - s.p.next..] == SendsTo(s.p.active, s.p.destinations[..s.p.next])
  }

  /** One snapshot to some endpoints, in order. */
  ghost function SendsTo(snapshot: Option<Snapshot>, endpoints: seq<Endpoint>): seq<(Option<Snapshot>, Endpoint)> {
    seq(|endpoints|, i requires 0 <= i < |endpoints| => (snapshot, endpoints[i]))
  }

  ghost predicate Inv(s: State) {
    WakeUp(s.p) && LatestWins(s) && Accounts(s) && Delivering(s)
  }

  lemma StepKeepsWakeUp(s: State, e: Event)
    requires Inv(s) && Enabled(s, e)
    ensures WakeUp(Step(s, e).p)
  {
  }

  lemma StepKeepsOrder(s: State, e: Event)
    requires Inv(s) && Enabled(s, e)
    ensures LatestWins(Step(s, e))
  {
    hide Accounts, Delivering;
  }

  lemma StepKeepsAccounts(s: State, e: Event)
    requires Inv(s) && Enabled(s, e)
    ensures Accounts(Step(s, e))
  {
    hide LatestWins, Delivering;
  }

  lemma StepKeepsDelivering(s: State, e: Event)
    requires Inv(s) && Enabled(s, e)
    ensures Delivering(Step(s, e))
  {
    if e.SendDone? {
      var t := Step(s, e);
      assert t.p.destinations[..t.p.next] == s.p.destinations[..s.p.next] + [s.p.destinations[s.p.next]];
      assert t.h.sends[|t.h.sends| - t.p.next..] ==
        s.h.sends[|s.h.sends| - s.p.next..] + [(s.p.active, s.p.destinations[s.p.next])];
    }
  }

  /** A run: each event enabled where it happens. */
  ghost predicate Behaviour(states: seq<State>, events: seq<Event>) {
    && |states| == |events| + 1
    && states[0] == START
    && forall i :: 0 <= i < |events| ==> Enabled(states[i], events[i]) && states[i + 1] == Step(states[i], events[i])
  }

  lemma {:induction false} EveryInterleaving(states: seq<State>, events: seq<Event>, n: nat)
    requires Behaviour(states, events) && n < |states|
    ensures Inv(states[n])
  {
    if n > 0 {
      EveryInterleaving(states, events, n - 1);
      StepKeepsWakeUp(states[n - 1], events[n - 1]);
      StepKeepsOrder(states[n - 1], events[n - 1]);
      StepKeepsAccounts(states[n - 1], events[n - 1]);
      StepKeepsDelivering(states[n - 1], events[n - 1]);
      assert Enabled(states[n - 1], events[n - 1]) && states[n - 1 + 1] == Step(states[n - 1], events[n - 1]);
    }
  }

  // ---------------------------------------------------------------- what it means

  ghost predicate Quiescent(s: State) {
    Outstanding(s.p) == 0
  }

  /** In every interleaving before Stop: a pending snapshot has exactly one pump coming, no
      handler ever starts while a send is in flight, the accepted are replaced + pumped +
      pending, and when nothing is left to run the last accepted snapshot has been pumped. */
  lemma NoLostWakeUp(states: seq<State>, events: seq<Event>, n: nat)
    requires Behaviour(states, events) && n < |states|
    requires !states[n].p.stopped
    ensures
      var s := states[n];
      && (s.p.pending.Some? ==> Outstanding(s.p) == 1)
      && (s.p.x.queuedPumps > 0 ==> s.p.x.strand.Idle?)
      && s.p.stats.accepted == s.p.stats.replaced + |s.h.pumped| + (if s.p.pending.Some? then 1 else 0)
      && (Quiescent(s) && s.h.accepted != [] ==>
           s.p.pending.None? && s.h.pumped != [] && Newest(s.h.pumped) == |s.h.accepted| - 1)
  {
    EveryInterleaving(states, events, n);
  }

  /** Each pumped snapshot is the newest accepted one at the moment it is taken. Between the loading
      of the endpoints and the next finish it goes to them in their order, and to nobody else: to
      all of them, unless Stop comes in between. */
  lemma TakesNewestAndServesAll(states: seq<State>, events: seq<Event>, k: nat, n: nat)
    requires Behaviour(states, events) && k < n < |events|
    requires events[k].LoadDestinations? && events[n].Finish?
    requires forall i :: k < i < n ==> !events[i].Finish?
    ensures exists taken: nat ::
      && taken < k && events[taken].Take? && TookNewest(states[taken], states[k].p.active)
      && forall i :: taken < i < k ==> !events[i].Take?
    ensures exists served: nat ::
      && served <= |events[k].endpoints|
      && states[n].h.sends == states[k].h.sends + SendsTo(states[k].p.active, events[k].endpoints[..served])
      && (!states[n].p.stopped ==> served == |events[k].endpoints|)
  {
    assert Enabled(states[k], events[k]) && Enabled(states[n], events[n]);
    TakenBefore(states, events, k);
    ServedSince(states, events, k, n);
  }

  /** What the pump has taken is the last snapshot accepted. */
  ghost predicate TookNewest(s: State, active: Option<Snapshot>) {
    s.h.accepted != [] && active == Some(s.h.accepted[|s.h.accepted| - 1])
  }

  /** The strand has come from a take. */
  lemma {:induction false} TakenBefore(states: seq<State>, events: seq<Event>, k: nat)
    requires Behaviour(states, events) && k < |states| && states[k].p.x.strand.Taken?
    ensures exists taken: nat ::
      && taken < k && events[taken].Take? && TookNewest(states[taken], states[k].p.active)
      && forall i :: taken < i < k ==> !events[i].Take?
  {
    hide Inv;
    var s, e := states[k - 1], events[k - 1];
    EveryInterleaving(states, events, k - 1);
    assert Enabled(s, e) && states[k - 1 + 1] == Step(s, e);
    if e.Take? {
      TakesNewest(s);
      assert events[k - 1].Take?;
    } else {
      TakenStays(s, e);
      TakenBefore(states, events, k - 1);
    }
  }

  lemma TakesNewest(s: State)
    requires Inv(s) && Enabled(s, Take) && Step(s, Take).p.x.strand.Taken?
    ensures TookNewest(s, Step(s, Take).p.active)
  {
  }

  lemma TakenStays(s: State, e: Event)
    requires Inv(s) && Enabled(s, e) && Step(s, e).p.x.strand.Taken? && !e.Take?
    ensures s.p.x.strand.Taken? && Step(s, e).p.active == s.p.active
  {
  }

  /** A snapshot on its way to the endpoints loaded for it. */
  ghost predicate Serving(
    s: State, snapshot: Option<Snapshot>, endpoints: seq<Endpoint>, before: seq<(Option<Snapshot>, Endpoint)>)
  {
    && s.p.x.strand in {AtSendCheck, InFlight, Finishing}
    && s.p.active == snapshot && s.p.destinations == endpoints && s.p.next <= |endpoints|
    && (s.p.x.strand.Finishing? && !s.p.stopped ==> s.p.next == |endpoints|)
    && s.h.sends == before + SendsTo(snapshot, endpoints[..s.p.next])
  }

  lemma {:induction false} ServedSince(states: seq<State>, events: seq<Event>, k: nat, n: nat)
    requires Behaviour(states, events) && k < n <= |events| && events[k].LoadDestinations?
    requires forall i :: k < i < n ==> !events[i].Finish?
    ensures Serving(states[n], states[k].p.active, events[k].endpoints, states[k].h.sends)
  {
    hide Inv, Step, Enabled, Serving;
    var s, e := states[n - 1], events[n - 1];
    EveryInterleaving(states, events, n - 1);
    assert Enabled(s, e) && states[n - 1 + 1] == Step(s, e);
    if n - 1 == k {
      ServingBegins(s, e);
    } else {
      ServedSince(states, events, k, n - 1);
      ServingGoesOn(s, e, states[k].p.active, events[k].endpoints, states[k].h.sends);
    }
  }

  lemma ServingBegins(s: State, e: Event)
    requires Enabled(s, e) && e.LoadDestinations?
    ensures Serving(Step(s, e), s.p.active, e.endpoints, s.h.sends)
  {
  }

  lemma ServingGoesOn(
    s: State, e: Event, snapshot: Option<Snapshot>, endpoints: seq<Endpoint>, before: seq<(Option<Snapshot>, Endpoint)>)
    requires Inv(s) && Enabled(s, e) && !e.Finish? && Serving(s, snapshot, endpoints, before)
    ensures Serving(Step(s, e), snapshot, endpoints, before)
  {
    hide LatestWins, Accounts, Delivering;
    if e.SendDone? {
      assert endpoints[..s.p.next + 1] == endpoints[..s.p.next] + [endpoints[s.p.next]];
      assert SendsTo(snapshot, endpoints[..s.p.next + 1]) ==
        SendsTo(snapshot, endpoints[..s.p.next]) + [(snapshot, endpoints[s.p.next])];
    }
  }

  /** After Stop's locked section nothing is ever pending again, and nothing is scheduled. */
  lemma {:induction false} StoppedForGood(states: seq<State>, events: seq<Event>, from: nat, n: nat)
    requires Behaviour(states, events) && from <= n < |states|
    requires states[from].p.stopped && !states[from].p.x.stopClearOwed
    ensures states[n].p.stopped && !states[n].p.x.stopClearOwed
    ensures states[n].p.pending.None? && states[n].h.accepted == states[from].h.accepted
    decreases n
  {
    hide Inv, Enabled, Step;
    EveryInterleaving(states, events, n);
    StoppedMeansEmpty(states[n]);
    if n > from {
      StoppedForGood(states, events, from, n - 1);
      assert Enabled(states[n - 1], events[n - 1]) && states[n - 1 + 1] == Step(states[n - 1], events[n - 1]);
      StaysStopped(states[n - 1], events[n - 1]);
    }
  }

  lemma StoppedMeansEmpty(s: State)
    requires Inv(s)
    ensures s.p.stopped && !s.p.x.stopClearOwed ==> s.p.pending.None?
  {
  }

  lemma StaysStopped(s: State, e: Event)
    requires Enabled(s, e) && s.p.stopped && !s.p.x.stopClearOwed
    ensures Step(s, e).p.stopped && !Step(s, e).p.x.stopClearOwed && Step(s, e).h.accepted == s.h.accepted
  {
  }

  // ---------------------------------------------------------------- progress

  /** The events of the strand and of callers already past the lock. */
  predicate Background(e: Event) {
    !e.Submit? && !e.SetStopped? && !e.StopClear?
  }

  /** Snapshots still to be finished, then stage within the cycle, then sends left. */
  function Rank(p: Pump): (nat, nat, nat) {
    ((if p.pending.Some? then 1 else 0) + (if p.active.Some? then 1 else 0),
     p.x.owedDispatches * 8 + p.x.queuedPumps * 7 +
       match p.x.strand {
         case Idle => 0 case AtStopCheck => 6 case StopSeen => 5 case StopNotSeen => 5
         case Taken => 4 case AtSendCheck => 3 case InFlight => 3 case Finishing => 2
       },
     2 * (if p.next <= |p.destinations| then |p.destinations| - p.next else 0) + (if p.x.strand.AtSendCheck? then 1 else 0))
  }

  predicate Below(a: (nat, nat, nat), b: (nat, nat, nat)) {
    a.0 < b.0 || (a.0 == b.0 && (a.1 < b.1 || (a.1 == b.1 && a.2 < b.2)))
  }

  /** Each background event brings the pump nearer to rest. */
  lemma BackgroundMakesProgress(s: State, e: Event)
    requires Inv(s) && Background(e) && Enabled(s, e)
    ensures Below(Rank(Step(s, e).p), Rank(s.p))
  {
  }

  /** The pump is never stuck: some background event is enabled unless it is at rest. */
  lemma RestsOnlyWhenDone(s: State)
    requires Inv(s)
    ensures Quiescent(s) <==> forall e :: Background(e) ==> !Enabled(s, e)
  {
    if !Quiescent(s) {
      assert exists e :: Background(e) && Enabled(s, e) by {
        match s.p.x.strand
        case Idle =>
          if s.p.x.owedDispatches > 0 {
            assert Enabled(s, Dispatch) && Background(Dispatch);
          } else {
            assert Enabled(s, RunPump) && Background(RunPump);
          }
        case AtStopCheck => assert Enabled(s, CheckStopped) && Background(CheckStopped);
        case StopSeen => assert Enabled(s, ClearStopped) && Background(ClearStopped);
        case StopNotSeen => assert Enabled(s, Take) && Background(Take);
        case Taken => assert Enabled(s, LoadDestinations([])) && Background(LoadDestinations([]));
        case AtSendCheck => assert Enabled(s, SendNext) && Background(SendNext);
        case InFlight => assert Enabled(s, SendDone(true)) && Background(SendDone(true));
        case Finishing => assert Enabled(s, Finish) && Background(Finish);
      }
    }
  }

  /** From every reachable state the pump can come to rest, and every background run does:
      there Stop has intervened or the last accepted snapshot has been pumped. */
  lemma ComesToRest(s: State) returns (rest: State)
    requires Inv(s)
    ensures Inv(rest) && Quiescent(rest)
    ensures rest.h.accepted == s.h.accepted && rest.p.stopped == s.p.stopped
    ensures !s.p.stopped && s.h.accepted != [] ==>
      rest.h.pumped != [] && Newest(rest.h.pumped) == |s.h.accepted| - 1
    decreases Rank(s.p).0, Rank(s.p).1, Rank(s.p).2
  {
    hide Inv, Step, Enabled, Quiescent, Rank;
    RestsOnlyWhenDone(s);
    if Quiescent(s) {
      if !s.p.stopped && s.h.accepted != [] {
        AllTakenAtRest(s);
      }
      return s;
    }
    var e :| Background(e) && Enabled(s, e);
    BackgroundMakesProgress(s, e);
    BackgroundAddsNothing(s, e);
    rest := ComesToRest(Step(s, e));
  }

  lemma AllTakenAtRest(s: State)
    requires Inv(s) && Quiescent(s) && !s.p.stopped && s.h.accepted != []
    ensures s.h.pumped != [] && Newest(s.h.pumped) == |s.h.accepted| - 1
  {
    hide Accounts, Delivering;
  }

  lemma BackgroundAddsNothing(s: State, e: Event)
    requires Inv(s) && Background(e) && Enabled(s, e)
    ensures Inv(Step(s, e))
    ensures Step(s, e).h.accepted == s.h.accepted && Step(s, e).p.stopped == s.p.stopped
  {
    StepKeepsWakeUp(s, e);
    StepKeepsOrder(s, e);
    StepKeepsAccounts(s, e);
    StepKeepsDelivering(s, e);
    hide WakeUp, LatestWins, Accounts, Delivering;
  }

  // ---------------------------------------------------------------- the sender object

  /** The fields of DungeonUdpSession behind its snapshot lock. The executor's part, and the
      observer's history, are ghost. */
  class SnapshotSender {
    var stopped: bool
    var pendingSnapshot: Option<Snapshot>
    var snapshotPumpScheduled: bool
    var snapshotStats: Stats
    var activeSnapshot: Option<Snapshot>
    var snapshotDestinations: seq<Endpoint>
    var nextSnapshotDestination: nat
    ghost var executor: Executor
    ghost var history: History

    ghost function View(): State reads this {
      State(Pump(stopped, pendingSnapshot, snapshotPumpScheduled, snapshotStats, activeSnapshot,
                 snapshotDestinations, nextSnapshotDestination, executor),
            history)
    }

    constructor ()
      ensures View() == START
    {
      stopped, pendingSnapshot, snapshotPumpScheduled := false, None, false;
      snapshotStats := Stats(0, 0, 0, 0, 0, false, false);
      activeSnapshot, snapshotDestinations, nextSnapshotDestination := None, [], 0;
      executor := Executor(Idle, 0, 0, false);
      history := History([], [], [], 0);
    }

    /** SendSnapshot: its locked section decides whether this caller wakes the pump. */
    method AcceptSnapshot(bytes: Snapshot) returns (accepted: bool, schedulePump: bool)
      modifies this
      ensures View() == Step(old(View()), Submit(bytes))
      ensures accepted <==> |history.accepted| == |old(history.accepted)| + 1
      ensures schedulePump <==> executor.owedDispatches == old(executor.owedDispatches) + 1
      ensures accepted <==> 1 <= |bytes| <= MAX_DUNGEON_DATAGRAM_SIZE && !stopped
      ensures schedulePump <==> accepted && !old(snapshotPumpScheduled)
      ensures pendingSnapshot == if accepted then Some(bytes) else old(pendingSnapshot)
      ensures snapshotPumpScheduled <==> accepted || old(snapshotPumpScheduled)
    {
      accepted, schedulePump := false, false;
      if bytes == [] {
      } else if |bytes| > MAX_DUNGEON_DATAGRAM_SIZE {
        snapshotStats := snapshotStats.(oversized := snapshotStats.oversized + 1);
      } else if !stopped {
        snapshotStats := snapshotStats.(accepted := snapshotStats.accepted + 1);
        if pendingSnapshot.Some? {
          snapshotStats := snapshotStats.(replaced := snapshotStats.replaced + 1);
        }
        pendingSnapshot := Some(bytes);
        snapshotStats := snapshotStats.(pending := true);
        if !snapshotPumpScheduled {
          snapshotPumpScheduled := true;
          schedulePump := true;
          executor := executor.(owedDispatches := executor.owedDispatches + 1);
        }
        history := history.(accepted := history.accepted + [bytes]);
        accepted := true;
      }
    }

    /** The start of PumpSnapshotOnStrand, up to the end of its locked section. */
    method TakePendingSnapshot() returns (taken: bool)
      requires executor.strand.AtStopCheck?
      modifies this
      ensures var checked := Step(old(View()), CheckStopped);
              View() == Step(checked, if old(stopped) then ClearStopped else Take)
      ensures taken <==> executor.strand.Taken?
      ensures taken <==> !stopped && old(pendingSnapshot).Some?
      ensures taken ==> activeSnapshot == old(pendingSnapshot) && snapshotPumpScheduled == old(snapshotPumpScheduled)
      ensures pendingSnapshot == None && (!taken ==> !snapshotPumpScheduled)
    {
      taken := false;
      if stopped {
        history := history.(discarded := history.discarded + (if pendingSnapshot.Some? then 1 else 0));
        pendingSnapshot := None;
        snapshotPumpScheduled := false;
        snapshotStats := snapshotStats.(pending := false, inProgress := false);
        executor := executor.(strand := Idle);
      } else {
        activeSnapshot := pendingSnapshot;
        pendingSnapshot := None;
        snapshotStats := snapshotStats.(pending := false);
        if activeSnapshot.None? {
          snapshotPumpScheduled := false;
          snapshotStats := snapshotStats.(inProgress := false);
          executor := executor.(strand := Idle);
        } else {
          snapshotStats := snapshotStats.(inProgress := true);
          history := history.(pumped := history.pumped + [if |history.accepted| == 0 then 0 else |history.accepted| - 1]);
          executor := executor.(strand := Taken);
          taken := true;
        }
      }
    }

    /** The rest of PumpSnapshotOnStrand: copy the endpoints registered by now. */
    method LoadSnapshotDestinations(endpoints: seq<Endpoint>)
      requires executor.strand.Taken?
      modifies this
      ensures View() == Step(old(View()), LoadDestinations(endpoints))
      ensures snapshotDestinations == endpoints && nextSnapshotDestination == 0
      ensures activeSnapshot == old(activeSnapshot) && executor.strand.AtSendCheck?
    {
      snapshotDestinations := endpoints;
      nextSnapshotDestination := 0;
      executor := executor.(strand := AtSendCheck);
    }

    method SendSnapshotToNextEndpoint() returns (started: bool)
      requires executor.strand.AtSendCheck?
      modifies this
      ensures View() == Step(old(View()), SendNext)
      ensures started <==> executor.strand.InFlight?
      ensures started <==> !stopped && nextSnapshotDestination < |snapshotDestinations|
    {
      started := !stopped && nextSnapshotDestination < |snapshotDestinations|;
      executor := executor.(strand := if started then InFlight else Finishing);
    }

    /** The completion handler of async_send_to. */
    method SendCompleted(error: bool)
      requires executor.strand.InFlight? && nextSnapshotDestination < |snapshotDestinations|
      modifies this
      ensures View() == Step(old(View()), SendDone(!error))
      ensures history.sends == old(history.sends) +
        [(activeSnapshot, snapshotDestinations[old(nextSnapshotDestination)])]
    {
      if error {
        snapshotStats := snapshotStats.(errors := snapshotStats.errors + 1);
      } else {
        snapshotStats := snapshotStats.(sent := snapshotStats.sent + 1);
      }
      history := history.(sends := history.sends +
        [(activeSnapshot, snapshotDestinations[nextSnapshotDestination])]);
      nextSnapshotDestination := nextSnapshotDestination + 1;
      executor := executor.(strand := AtSendCheck);
    }

    method FinishSnapshotOnStrand()
      requires executor.strand.Finishing?
      modifies this
      ensures View() == Step(old(View()), Event.Finish)
    {
      activeSnapshot := None;
      snapshotDestinations := [];
      nextSnapshotDestination := 0;
      snapshotStats := snapshotStats.(inProgress := false);
      executor := executor.(strand := AtStopCheck);
    }

    method Stop()
      modifies this
      ensures View() == if old(stopped) then old(View()) else Step(Step(old(View()), SetStopped), StopClear)
    {
      if stopped {
        return;
      }
      stopped := true;
      history := history.(discarded := history.discarded + (if pendingSnapshot.Some? then 1 else 0));
      pendingSnapshot := None;
      snapshotPumpScheduled := false;
      snapshotStats := snapshotStats.(pending := false);
      executor := executor.(stopClearOwed := false);
    }
  }
}
