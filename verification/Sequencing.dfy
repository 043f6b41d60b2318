/** Wrap-around sequence numbers: the acceptance test of src/DungeonUdpSession.cpp and its
    client twin client/scripts/ServerTickTracker.cs. */
module Sequencing {
  import opened Common
  import opened Packet

  const TWO_32 := 0x1_0000_0000
  const HALF_RANGE := 0x8000_0000

  /** How far one has to count up from `from` to reach `to`, wrapping at 2^32. */
  function Forward(from: UInt32, to: UInt32): UInt32 {
    if to >= from then to - from else to - from + TWO_32
  }

  predicate IsNewerSequence(candidate: UInt32, previous: UInt32) {
    var distance := Forward(previous, candidate);
    distance != 0 && distance < HALF_RANGE
  }

  /** Of two different numbers exactly one is newer, unless they are half a turn apart. */
  lemma NewerIsAntisymmetric(a: UInt32, b: UInt32)
    ensures !(IsNewerSequence(a, b) && IsNewerSequence(b, a))
    ensures !IsNewerSequence(a, b) && !IsNewerSequence(b, a) <==> a == b || Forward(a, b) == HALF_RANGE
  {
  }

  predicate Accepts(last: Option<UInt32>, sequence: UInt32) {
    last.None? || IsNewerSequence(sequence, last.value)
  }

  /** The numbers accepted out of a stream of arrivals, after `last` was accepted. */
  function Accepted(last: Option<UInt32>, arrivals: seq<UInt32>): seq<UInt32>
    decreases |arrivals|
  {
    if arrivals == [] then []
    else if Accepts(last, arrivals[0]) then [arrivals[0]] + Accepted(Some(arrivals[0]), arrivals[1..])
    else Accepted(last, arrivals[1..])
  }

  /** Each number is newer than the one before it. */
  ghost predicate Chain(accepted: seq<UInt32>) {
    forall i, j :: 0 <= i < j < |accepted| && j == i + 1 ==> IsNewerSequence(accepted[j], accepted[i])
  }

  lemma ChainAppend(accepted: seq<UInt32>, sequence: UInt32)
    requires Chain(accepted)
    requires accepted != [] ==> IsNewerSequence(sequence, accepted[|accepted| - 1])
    ensures Chain(accepted + [sequence])
  {
  }

  lemma {:induction false} AcceptedIsChain(last: Option<UInt32>, arrivals: seq<UInt32>)
    ensures Chain(Accepted(last, arrivals))
    ensures last.Some? ==> Chain([last.value] + Accepted(last, arrivals))
    decreases |arrivals|
  {
    if arrivals == [] {
    } else if Accepts(last, arrivals[0]) {
      AcceptedIsChain(Some(arrivals[0]), arrivals[1..]);
    } else {
      AcceptedIsChain(last, arrivals[1..]);
    }
  }

  /** Position of the i-th accepted number on an unbounded line: the first one at its own
      value, each later one its forward distance further on. */
  function Unwrapped(accepted: seq<UInt32>, i: nat): nat
    requires i < |accepted|
  {
    if i == 0 then accepted[0]
    else Unwrapped(accepted, i - 1) + Forward(accepted[i - 1], accepted[i])
  }

  /** How often the accepted numbers have passed zero. */
  function Laps(accepted: seq<UInt32>, i: nat): nat
    requires i < |accepted|
  {
    if i == 0 then 0
    else Laps(accepted, i - 1) + (if accepted[i] < accepted[i - 1] then 1 else 0)
  }

  /** The line is the circle rolled out: position = laps * 2^32 + number. */
  lemma {:induction false} UnwrappedIsCongruent(accepted: seq<UInt32>, i: nat)
    requires i < |accepted|
    ensures Unwrapped(accepted, i) == Laps(accepted, i) * 0x1_0000_0000 + accepted[i]
  {
    if i > 0 {
      UnwrappedIsCongruent(accepted, i - 1);
    }
  }

  lemma {:induction false} UnwrappedIncreases(accepted: seq<UInt32>, i: nat, j: nat)
    requires Chain(accepted) && i < j < |accepted|
    ensures Unwrapped(accepted, i) < Unwrapped(accepted, j)
    decreases j
  {
    assert IsNewerSequence(accepted[j], accepted[j - 1]);
    if i < j - 1 {
      UnwrappedIncreases(accepted, i, j - 1);
    }
  }

  lemma LastIsFurthest(accepted: seq<UInt32>)
    requires Chain(accepted)
    ensures forall i :: 0 <= i < |accepted| - 1 ==> Unwrapped(accepted, i) < Unwrapped(accepted, |accepted| - 1)
  {
    forall i | 0 <= i < |accepted| - 1
      ensures Unwrapped(accepted, i) < Unwrapped(accepted, |accepted| - 1)
    {
      UnwrappedIncreases(accepted, i, |accepted| - 1);
    }
  }

  /** Numbers accepted less than a whole turn apart are different, and the later one is
      newer exactly while the advance stays below half a turn. */
  lemma WithinOneTurn(accepted: seq<UInt32>, i: nat, j: nat)
    requires Chain(accepted) && i < j < |accepted|
    ensures
      var advance := Unwrapped(accepted, j) - Unwrapped(accepted, i);
      0 < advance && (advance < TWO_32 ==>
        && accepted[j] != accepted[i]
        && (IsNewerSequence(accepted[j], accepted[i]) <==> advance < HALF_RANGE))
  {
    UnwrappedIncreases(accepted, i, j);
    UnwrappedIsCongruent(accepted, i);
    UnwrappedIsCongruent(accepted, j);
    OneTurn(Laps(accepted, j) - Laps(accepted, i), accepted[i], accepted[j]);
  }

  /** A number comes back exactly after whole turns. */
  lemma RepeatsAfterWholeTurns(accepted: seq<UInt32>, i: nat, j: nat)
    requires i < |accepted| && j < |accepted|
    ensures accepted[i] == accepted[j] <==> (Unwrapped(accepted, j) - Unwrapped(accepted, i)) % TWO_32 == 0
  {
    hide Unwrapped, Laps;
    UnwrappedIsCongruent(accepted, i);
    UnwrappedIsCongruent(accepted, j);
    assert Unwrapped(accepted, j) - Unwrapped(accepted, i) ==
      (Laps(accepted, j) - Laps(accepted, i)) * 0x1_0000_0000 + accepted[j] - accepted[i];
    WholeTurns(Laps(accepted, j) - Laps(accepted, i), accepted[i], accepted[j]);
  }

  lemma WholeTurns(laps: int, from: UInt32, to: UInt32)
    ensures from == to <==> (laps * 0x1_0000_0000 + to - from) % TWO_32 == 0
  {
    var n, q := laps * 0x1_0000_0000 + to - from, (laps * 0x1_0000_0000 + to - from) / 0x1_0000_0000;
    assert n == q * 0x1_0000_0000 + n % 0x1_0000_0000;
    assert n % 0x1_0000_0000 == 0 ==> (q - laps) * 0x1_0000_0000 == to - from;
    assert from == to ==> (q - laps) * 0x1_0000_0000 + n % 0x1_0000_0000 == 0;
  }

  lemma OneTurn(laps: int, from: UInt32, to: UInt32)
    ensures 0 < laps * 0x1_0000_0000 + to - from < TWO_32 ==> laps * 0x1_0000_0000 + to - from == Forward(from, to)
  {
  }

  /** Beyond that the promise ends: three steps of less than half a turn each go all the way
      round, and the first number is accepted a second time. */
  lemma AWholeTurnRepeats()
    ensures
      var arrivals := [0, 0x7FFF_FFFF, 0xFFFF_FFFE, 0];
      Accepted(None, arrivals) == arrivals && arrivals[3] == arrivals[0]
  {
    assert Accepted(Some(0xFFFF_FFFE), [0]) == [0];
    assert Accepted(Some(0x7FFF_FFFF), [0xFFFF_FFFE, 0]) == [0xFFFF_FFFE, 0];
    assert Accepted(Some(0), [0x7FFF_FFFF, 0xFFFF_FFFE, 0]) == [0x7FFF_FFFF, 0xFFFF_FFFE, 0];
  }

  /** The client's tracker of server ticks. */
  class ServerTickTracker {
    var hasAcceptedTick: bool
    var lastAcceptedTick: UInt32

    ghost function Last(): Option<UInt32> reads this {
      if hasAcceptedTick then Some(lastAcceptedTick) else None
    }

    constructor ()
      ensures Last() == None
    {
      hasAcceptedTick, lastAcceptedTick := false, 0;
    }

    method TryAccept(serverTick: UInt32) returns (accepted: bool)
      modifies this
      ensures accepted <==> Accepts(old(Last()), serverTick)
      ensures Last() == if accepted then Some(serverTick) else old(Last())
    {
      if !hasAcceptedTick {
        hasAcceptedTick, lastAcceptedTick := true, serverTick;
        return true;
      }
      var forwardDistance := Forward(lastAcceptedTick, serverTick);
      if forwardDistance == 0 || forwardDistance >= HALF_RANGE {
        return false;
      }
      lastAcceptedTick := serverTick;
      accepted := true;
    }
  }
}
