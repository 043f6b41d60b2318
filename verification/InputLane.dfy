/** One input lane of a UDP session (movements or attacks): the last accepted sequence per
    session and the bounded queue of accepted packets, src/DungeonUdpSession.cpp. */
module InputLane {
  import opened Common
  import opened Packet
  import opened Sequencing

  /** MAX_PENDING_DUNGEON_MOVEMENTS and MAX_PENDING_DUNGEON_ATTACKS. */
  const MAX_PENDING := 256

  datatype Input<M> = Input(sessionId: SessionId, sequence: UInt32, message: M)

  datatype Lane<M> = Lane(last: map<SessionId, UInt32>, queue: seq<Input<M>>)

  /** Whether a packet of a registered session is queued. */
  predicate Admits<M>(lane: Lane<M>, input: Input<M>) {
    |lane.queue| < MAX_PENDING && Accepts(Lookup(lane.last, input.sessionId), input.sequence)
  }

  function Offered<M>(lane: Lane<M>, input: Input<M>): Lane<M> {
    if Admits(lane, input)
    then Lane(lane.last[input.sessionId := input.sequence], lane.queue + [input])
    else lane
  }

  function Popped<M>(lane: Lane<M>): Lane<M> {
    if lane.queue == [] then lane else lane.(queue := lane.queue[1..])
  }

  /** The queue without the packets of some sessions, order kept. */
  function Without<M>(queue: seq<Input<M>>, sessions: set<SessionId>): seq<Input<M>> {
    if queue == [] then []
    else
      var rest := Without(queue[..|queue| - 1], sessions);
      var last := queue[|queue| - 1];
      if last.sessionId in sessions then rest else rest + [last]
  }

  function Forgotten<M>(lane: Lane<M>, sessions: set<SessionId>): Lane<M> {
    Lane(lane.last - sessions, Without(lane.queue, sessions))
  }

  /** The sequence numbers of one session's packets in a queue, in order. */
  function Sequences<M>(queue: seq<Input<M>>, s: SessionId): seq<UInt32> {
    if queue == [] then []
    else
      Sequences(queue[..|queue| - 1], s) +
        (if queue[|queue| - 1].sessionId == s then [queue[|queue| - 1].sequence] else [])
  }

  ghost predicate Bounded<M>(lane: Lane<M>, sessions: set<SessionId>) {
    && |lane.queue| <= MAX_PENDING
    && lane.last.Keys <= sessions
    && (forall i :: 0 <= i < |lane.queue| ==> lane.queue[i].sessionId in lane.last)
  }

  lemma {:induction false} WithoutContents<M>(queue: seq<Input<M>>, sessions: set<SessionId>)
    ensures |Without(queue, sessions)| <= |queue|
    ensures forall i :: 0 <= i < |Without(queue, sessions)| ==>
      Without(queue, sessions)[i] in queue && Without(queue, sessions)[i].sessionId !in sessions
  {
    if queue != [] {
      WithoutContents(queue[..|queue| - 1], sessions);
    }
  }

  /** `rest` is the queue with the packets of some sessions left out and nothing else done to
      it; `places` says where in the queue each packet of `rest` stood. */
  ghost predicate LeavesOut<M>(queue: seq<Input<M>>, rest: seq<Input<M>>, gone: set<SessionId>, places: seq<nat>) {
    && |places| == |rest|
    && (forall k :: 0 <= k < |rest| ==>
          places[k] < |queue| && rest[k] == queue[places[k]] && rest[k].sessionId !in gone)
    && (forall j, k :: 0 <= j < k < |places| ==> places[j] < places[k])
    && (forall i :: 0 <= i < |queue| && queue[i].sessionId !in gone ==> i in places)
  }

  lemma {:induction false} WithoutLeavesOut<M>(queue: seq<Input<M>>, sessions: set<SessionId>)
    ensures exists places: seq<nat> :: LeavesOut(queue, Without(queue, sessions), sessions, places)
  {
    if queue == [] {
      assert LeavesOut(queue, Without(queue, sessions), sessions, []);
    } else {
      hide LeavesOut;
      var init, last := queue[..|queue| - 1], queue[|queue| - 1];
      WithoutLeavesOut(init, sessions);
      var places: seq<nat> :| LeavesOut(init, Without(init, sessions), sessions, places);
      LeavesOutOneMore(init, Without(init, sessions), sessions, places, last);
      assert queue == init + [last];
      assert LeavesOut(queue, Without(queue, sessions), sessions, if last.sessionId in sessions then places else places + [|init|]);
    }
  }

  lemma LeavesOutOneMore<M>(
    queue: seq<Input<M>>, rest: seq<Input<M>>, gone: set<SessionId>, places: seq<nat>, last: Input<M>)
    requires LeavesOut(queue, rest, gone, places)
    ensures last.sessionId in gone ==> LeavesOut(queue + [last], rest, gone, places)
    ensures last.sessionId !in gone ==> LeavesOut(queue + [last], rest + [last], gone, places + [|queue|])
  {
    var longer := queue + [last];
    assert forall i :: 0 <= i < |queue| ==> longer[i] == queue[i];
    if last.sessionId !in gone {
      var more := places + [|queue|];
      assert more[|places|] == |queue|;
      forall i | 0 <= i < |longer| && longer[i].sessionId !in gone
        ensures i in more
      {
        assert i < |queue| ==> i in places;
      }
    }
  }

  lemma NobodyLeftOut<M>(queue: seq<Input<M>>, gone: set<SessionId>)
    requires forall i :: 0 <= i < |queue| ==> queue[i].sessionId !in gone
    ensures exists places: seq<nat> :: LeavesOut(queue, queue, gone, places)
  {
    var places := seq(|queue|, (i: nat) => i);
    assert forall i :: 0 <= i < |queue| ==> places[i] == i;
    assert LeavesOut(queue, queue, gone, places);
  }

  lemma {:induction false} WithoutTwice<M>(queue: seq<Input<M>>, a: set<SessionId>, b: set<SessionId>)
    ensures Without(Without(queue, a), b) == Without(queue, a + b)
  {
    if queue != [] {
      var init, last := queue[..|queue| - 1], queue[|queue| - 1];
      WithoutTwice(init, a, b);
      if last.sessionId !in a {
        assert (Without(init, a) + [last])[..|Without(init, a)|] == Without(init, a);
      }
    }
  }

  lemma {:induction false} WithoutNobody<M>(queue: seq<Input<M>>)
    ensures Without(queue, {}) == queue
  {
    if queue != [] {
      WithoutNobody(queue[..|queue| - 1]);
    }
  }

  lemma {:induction false} SequencesWithout<M>(queue: seq<Input<M>>, sessions: set<SessionId>, s: SessionId)
    ensures Sequences(Without(queue, sessions), s) == if s in sessions then [] else Sequences(queue, s)
  {
    if queue != [] {
      var init, last := queue[..|queue| - 1], queue[|queue| - 1];
      SequencesWithout(init, sessions, s);
      if last.sessionId !in sessions {
        assert (Without(init, sessions) + [last])[..|Without(init, sessions)|] == Without(init, sessions);
      }
    }
  }

  lemma {:induction false} SequencesTail<M>(queue: seq<Input<M>>, s: SessionId)
    requires queue != []
    ensures Sequences(queue, s) == (if queue[0].sessionId == s then [queue[0].sequence] else []) + Sequences(queue[1..], s)
  {
    if |queue| > 1 {
      SequencesTail(queue[..|queue| - 1], s);
      assert queue[..|queue| - 1][1..] == queue[1..][..|queue| - 2];
      assert queue[1..][|queue| - 2] == queue[|queue| - 1];
    } else {
      assert queue[..0] == [];
      assert queue[1..] == [];
    }
  }

  // ---------------------------------------------------------------- one registration

  datatype LaneOp<M> = Offer(input: Input<M>) | Pop | Forget(sessions: set<SessionId>)

  function Step<M>(lane: Lane<M>, op: LaneOp<M>): Lane<M> {
    match op
    case Offer(input) => Offered(lane, input)
    case Pop => Popped(lane)
    case Forget(sessions) => Forgotten(lane, sessions)
  }

  function LaneAfter<M>(ops: seq<LaneOp<M>>): Lane<M> {
    if ops == [] then Lane(map[], []) else Step(LaneAfter(ops[..|ops| - 1]), ops[|ops| - 1])
  }

  /** What a step adds to the sequence numbers queued for one session, or takes from them. */
  function Logged<M>(lane: Lane<M>, op: LaneOp<M>, s: SessionId, log: seq<UInt32>): seq<UInt32> {
    match op
    case Offer(input) => if input.sessionId == s && Admits(lane, input) then log + [input.sequence] else log
    case Pop => log
    case Forget(sessions) => if s in sessions then [] else log
  }

  /** The sequence numbers queued for one session since it was last forgotten. */
  function Log<M>(ops: seq<LaneOp<M>>, s: SessionId): seq<UInt32> {
    if ops == [] then []
    else
      Logged(LaneAfter(ops[..|ops| - 1]), ops[|ops| - 1], s, Log(ops[..|ops| - 1], s))
  }

  ghost predicate Records<M>(lane: Lane<M>, s: SessionId, log: seq<UInt32>) {
    && Chain(log)
    && (s in lane.last <==> log != [])
    && (log != [] ==> lane.last[s] == log[|log| - 1])
    && |Sequences(lane.queue, s)| <= |log|
    && Sequences(lane.queue, s) == log[|log| - |Sequences(lane.queue, s)|..]
  }

  lemma OfferRecords<M>(lane: Lane<M>, input: Input<M>, log: seq<UInt32>)
    requires Records(lane, input.sessionId, log) && Admits(lane, input)
    ensures Records(Offered(lane, input), input.sessionId, log + [input.sequence])
  {
    var s := input.sessionId;
    SequencesAppend(lane.queue, input, s);
    ChainAppend(log, input.sequence);
    SuffixAppend(log, |Sequences(lane.queue, s)|, input.sequence);
  }

  lemma OfferToOther<M>(lane: Lane<M>, input: Input<M>, s: SessionId, log: seq<UInt32>)
    requires Records(lane, s, log) && input.sessionId != s
    ensures Records(Offered(lane, input), s, log)
  {
    SequencesAppend(lane.queue, input, s);
  }

  lemma SequencesAppend<M>(queue: seq<Input<M>>, input: Input<M>, s: SessionId)
    ensures Sequences(queue + [input], s) ==
      if input.sessionId == s then Sequences(queue, s) + [input.sequence] else Sequences(queue, s)
  {
    assert (queue + [input])[..|queue|] == queue;
  }

  lemma SuffixAppend(log: seq<UInt32>, n: nat, x: UInt32)
    requires n <= |log|
    ensures (log + [x])[|log| - n..] == log[|log| - n..] + [x]
  {
  }

  lemma PopRecords<M>(lane: Lane<M>, s: SessionId, log: seq<UInt32>)
    requires Records(lane, s, log)
    ensures Records(Popped(lane), s, log)
  {
    if lane.queue != [] {
      SequencesTail(lane.queue, s);
    }
  }

  lemma ForgetRecords<M>(lane: Lane<M>, sessions: set<SessionId>, s: SessionId, log: seq<UInt32>)
    requires Records(lane, s, log)
    ensures Records(Forgotten(lane, sessions), s, if s in sessions then [] else log)
  {
    SequencesWithout(lane.queue, sessions, s);
  }

  lemma StepRecords<M>(lane: Lane<M>, op: LaneOp<M>, s: SessionId, log: seq<UInt32>)
    requires Records(lane, s, log)
    ensures Records(Step(lane, op), s, Logged(lane, op, s, log))
  {
    hide Records, Admits;
    match op
    case Offer(input) =>
      if input.sessionId != s {
        OfferToOther(lane, input, s, log);
      } else if Admits(lane, input) {
        OfferRecords(lane, input, log);
      }
    case Pop => PopRecords(lane, s, log);
    case Forget(sessions) => ForgetRecords(lane, sessions, s, log);
  }

  lemma StepIsBounded<M>(lane: Lane<M>, op: LaneOp<M>)
    requires |lane.queue| <= MAX_PENDING
    ensures |Step(lane, op).queue| <= MAX_PENDING
  {
    if op.Forget? {
      WithoutContents(lane.queue, op.sessions);
    }
  }

  /** Within one registration every queued number is newer than the one queued before it, the
      remembered number is always the last one queued, and what is still in the queue are
      the latest ones, in order; the queue never holds more than 256 packets. */
  lemma {:induction false} QueuedInOrder<M>(ops: seq<LaneOp<M>>, s: SessionId)
    ensures Records(LaneAfter(ops), s, Log(ops, s))
    ensures |LaneAfter(ops).queue| <= MAX_PENDING
  {
    if ops == [] {
    } else {
      hide Records, Admits, Step;
      var init, op := ops[..|ops| - 1], ops[|ops| - 1];
      QueuedInOrder(init, s);
      StepRecords(LaneAfter(init), op, s, Log(init, s));
      StepIsBounded(LaneAfter(init), op);
    }
  }

  /** Two packets queued in one registration less than a turn apart carry different numbers,
      and the circular order agrees with the order of arrival below half a turn. */
  lemma QueuedNumbersDoNotRepeat<M>(ops: seq<LaneOp<M>>, s: SessionId, i: nat, j: nat)
    requires i < j < |Log(ops, s)|
    ensures
      var log := Log(ops, s);
      var advance := Unwrapped(log, j) - Unwrapped(log, i);
      0 < advance && (advance < TWO_32 ==>
        && log[j] != log[i]
        && (IsNewerSequence(log[j], log[i]) <==> advance < HALF_RANGE))
  {
    hide LaneAfter, Log, Unwrapped, IsNewerSequence;
    QueuedInOrder(ops, s);
    WithinOneTurn(Log(ops, s), i, j);
  }

  // ---------------------------------------------------------------- draining

  /** What DungeonMovementProcessor keeps when it drains a queue: per session the last packet. */
  function Latest<M>(queue: seq<Input<M>>): map<SessionId, Input<M>> {
    if queue == [] then map[]
    else Latest(queue[..|queue| - 1])[queue[|queue| - 1].sessionId := queue[|queue| - 1]]
  }

  lemma {:induction false} LatestIsLast<M>(queue: seq<Input<M>>, s: SessionId)
    ensures s in Latest(queue) <==> Sequences(queue, s) != []
    ensures s in Latest(queue) ==>
      && Latest(queue)[s].sessionId == s
      && Latest(queue)[s].sequence == Sequences(queue, s)[|Sequences(queue, s)| - 1]
      && exists i :: 0 <= i < |queue| && queue[i] == Latest(queue)[s] && forall j :: i < j < |queue| ==> queue[j].sessionId != s
  {
    if queue != [] {
      var init, last := queue[..|queue| - 1], queue[|queue| - 1];
      LatestIsLast(init, s);
      if last.sessionId == s {
        assert queue[|init|] == last;
      } else if s in Latest(init) {
        var i :| 0 <= i < |init| && init[i] == Latest(init)[s] && forall j :: i < j < |init| ==> init[j].sessionId != s;
        assert queue[i] == Latest(queue)[s];
      }
    }
  }

  /** The drain's overwrite keeps the newest packet: the one whose number the session is
      remembered by, and furthest along the unwrapped line of its registration. */
  lemma DrainKeepsNewest<M>(ops: seq<LaneOp<M>>, s: SessionId)
    requires s in Latest(LaneAfter(ops).queue)
    ensures s in LaneAfter(ops).last && Latest(LaneAfter(ops).queue)[s].sequence == LaneAfter(ops).last[s]
    ensures Log(ops, s) != [] && LaneAfter(ops).last[s] == Log(ops, s)[|Log(ops, s)| - 1]
    ensures forall i :: 0 <= i < |Log(ops, s)| - 1 ==>
      Unwrapped(Log(ops, s), i) < Unwrapped(Log(ops, s), |Log(ops, s)| - 1)
  {
    hide LaneAfter, Log, Latest, Records, Unwrapped;
    QueuedInOrder(ops, s);
    LatestIsLast(LaneAfter(ops).queue, s);
    LastIsRemembered(LaneAfter(ops), s, Log(ops, s));
    LastIsFurthest(Log(ops, s));
  }

  lemma LastIsRemembered<M>(lane: Lane<M>, s: SessionId, log: seq<UInt32>)
    requires Records(lane, s, log) && Sequences(lane.queue, s) != []
    ensures Chain(log) && log != [] && s in lane.last && lane.last[s] == log[|log| - 1]
    ensures Sequences(lane.queue, s)[|Sequences(lane.queue, s)| - 1] == log[|log| - 1]
  {
    hide Chain, Sequences;
  }

  // ---------------------------------------------------------------- popping

  function FirstOf<T>(queue: seq<T>): Option<T> {
    if queue == [] then None else Some(queue[0])
  }

  function RestOf<T>(queue: seq<T>): seq<T> {
    if queue == [] then [] else queue[1..]
  }

  /** How many turns a loop of pops has left, the one at hand included. */
  ghost function TurnsLeft<T>(next: Option<T>, queue: seq<T>, taken: nat): nat {
    if next.None? then 0 else 1 + if taken <= |queue| then |queue| - taken else 0
  }
}
