/** The deadlines of src/DungeonTickService.cpp: a tick every 33333 microseconds, with at most two
    of them to catch up with. */
module TickClock {
  import opened Common

  const DUNGEON_TICKS_PER_SECOND := 30
  const MAX_DUNGEON_CATCH_UP_TICKS := 2

  /** In microseconds; the division truncates. */
  const TICK_INTERVAL: Time := 1_000_000 / DUNGEON_TICKS_PER_SECOND

  datatype Clock = Clock(next: Time, processed: nat, missed: nat)

  /** How many deadlines from `next` on lie at or before `now`. */
  function Overdue(next: Time, now: Time): nat {
    if next > now then 0 else (now - next) / TICK_INTERVAL + 1
  }

  /** Deadline k, counted from `next`, is at or before `now` exactly for k below Overdue. */
  lemma OverdueCounts(next: Time, now: Time, k: nat)
    ensures k < Overdue(next, now) <==> next + k * TICK_INTERVAL <= now
  {
    if next <= now {
      var q, r := (now - next) / TICK_INTERVAL, (now - next) % TICK_INTERVAL;
      assert now - next == q * TICK_INTERVAL + r && 0 <= r < TICK_INTERVAL;
      Multiples(k, q);
    }
  }

  lemma Multiples(k: int, q: int)
    ensures k <= q ==> k * TICK_INTERVAL <= q * TICK_INTERVAL
    ensures k > q ==> k * TICK_INTERVAL >= q * TICK_INTERVAL + TICK_INTERVAL
  {
  }

  /** The deadline after a processed tick: the next one in the grid, or, when more than two lie at
      or before `now`, the second to last of those. */
  function Advanced(c: Clock, now: Time): Clock {
    var next := c.next + TICK_INTERVAL;
    var overdue := Overdue(next, now);
    if overdue <= MAX_DUNGEON_CATCH_UP_TICKS then c.(next := next)
    else
      var skipped := overdue - MAX_DUNGEON_CATCH_UP_TICKS;
      c.(next := next + TICK_INTERVAL * skipped, missed := c.missed + skipped)
  }

  /** After every tick at most two deadlines wait at or before now; the missed ones are exactly
      those that were overdue and are not kept; and a deadline is dropped only when more than two
      were overdue, in which case exactly two are kept. */
  lemma AtMostTwoToCatchUp(c: Clock, now: Time)
    ensures
      var overdue := Overdue(c.next + TICK_INTERVAL, now);
      var c' := Advanced(c, now);
      && Overdue(c'.next, now) <= 2
      && c'.missed - c.missed == overdue - Overdue(c'.next, now)
      && (c'.missed > c.missed <==> overdue > 2)
      && (c'.missed > c.missed ==> Overdue(c'.next, now) == 2)
      && (forall k: nat :: k <= 2 ==>
            (k < Overdue(c'.next, now) <==> c'.next + k * TICK_INTERVAL <= now))
  {
    var next := c.next + TICK_INTERVAL;
    var overdue := Overdue(next, now);
    var c' := Advanced(c, now);
    if overdue > MAX_DUNGEON_CATCH_UP_TICKS {
      OverdueShifts(next, now, overdue - MAX_DUNGEON_CATCH_UP_TICKS);
    }
    forall k: nat | k <= 2
      ensures k < Overdue(c'.next, now) <==> c'.next + k * TICK_INTERVAL <= now
    {
      OverdueCounts(c'.next, now, k);
    }
  }

  lemma OverdueShifts(next: Time, now: Time, k: nat)
    requires k <= Overdue(next, now)
    ensures Overdue(next + TICK_INTERVAL * k, now) == Overdue(next, now) - k
  {
    var shifted := next + TICK_INTERVAL * k;
    OverdueCounts(next, now, Overdue(next, now));
    if k < Overdue(next, now) {
      var j := Overdue(next, now) - k;
      OverdueCounts(shifted, now, j);
      OverdueCounts(shifted, now, j - 1);
      OverdueCounts(next, now, Overdue(next, now) - 1);
      assert shifted + j * TICK_INTERVAL == next + Overdue(next, now) * TICK_INTERVAL;
    }
  }

  // ---------------------------------------------------------------- no drift

  /** One handled tick: it is counted, and the deadline moves on. */
  function Ticked(c: Clock, now: Time): Clock {
    Advanced(c.(processed := c.processed + 1), now)
  }

  function AfterTicks(c: Clock, readings: seq<Time>): Clock {
    if readings == [] then c else Ticked(AfterTicks(c, readings[..|readings| - 1]), readings[|readings| - 1])
  }

  lemma OneTick(c: Clock, now: Time)
    ensures
      var c' := Ticked(c, now);
      && c'.processed == c.processed + 1 && c'.missed >= c.missed
      && c'.next == c.next + TICK_INTERVAL * (1 + (c'.missed - c.missed))
  {
    hide Overdue;
  }

  /** However late the ticks run, the deadlines of one Start stay on its grid: the next one is
      the start plus one interval for each tick processed or missed since, and one more. */
  lemma {:induction false} NoDrift(start: Time, processed: nat, missed: nat, readings: seq<Time>)
    ensures
      var c := AfterTicks(Clock(start + TICK_INTERVAL, processed, missed), readings);
      && c.processed == processed + |readings| && c.missed >= missed
      && c.next == start + TICK_INTERVAL * (1 + (c.processed - processed) + (c.missed - missed))
  {
    hide Ticked;
    if readings != [] {
      NoDrift(start, processed, missed, readings[..|readings| - 1]);
      OneTick(AfterTicks(Clock(start + TICK_INTERVAL, processed, missed), readings[..|readings| - 1]), readings[|readings| - 1]);
    }
  }
}
