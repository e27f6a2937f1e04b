/**
 * The credit engine shared by paths, bundles and GBS queues
 * (DaaS/PoCPhase3/tm10/tmBundle.c:69-180).
 *
 * A credit is a signed 64-bit balance that may go into debt, and the
 * unsigned 64-bit TSC reading of its last refill. A refill adds the TSC
 * ticks elapsed since then, times the owner's number of timeslots, and
 * caps the balance at ceiling = timeslotTsc * timeslotsPerSeq. The three C
 * refill functions differ only in which record they update; each is an
 * application of Refill (see Sched.Shaper).
 */
module Credit {
  import opened TmDefs

  /** INT64_CEILING (1E18): the raw increment is clamped to this value first. */
  const INT64_CEILING: int := 1_000_000_000_000_000_000

  const S64_LIMIT: int := 0x8000_0000_0000_0000

  predicate IsS64(x: int) { -S64_LIMIT <= x < S64_LIMIT }

  /** Conversion of a mathematical integer to int64_t: two's-complement wrap-around. */
  function Wrap64(x: int): (r: int)
    ensures IsS64(r)
    ensures (x - r) % U64_LIMIT == 0
    ensures IsS64(x) ==> r == x
  {
    var m := x % U64_LIMIT;
    if m >= S64_LIMIT then m - U64_LIMIT else m
  }

  /** creditths: the largest balance an owner can hold. */
  function Ceiling(timeslotTsc: nat, timeslotsPerSeq: nat): (c: nat)
    requires IsU32(timeslotTsc) && IsU16(timeslotsPerSeq)
    ensures c < 0x1_0000_0000_0000
    ensures 2 * c < INT64_CEILING
  {
    LemmaCeilingBound(timeslotTsc, timeslotsPerSeq);
    timeslotTsc * timeslotsPerSeq
  }

  lemma LemmaCeilingBound(a: nat, b: nat)
    requires a < U32_LIMIT && b < U16_LIMIT
    ensures a * b < 0x1_0000_0000_0000
  {
    MulMonotone(b, U16_LIMIT, a);
    MulMonotone(a, U32_LIMIT, U16_LIMIT);
  }

  lemma {:induction false} MulMonotone(x: nat, y: nat, k: nat)
    requires x <= y
    ensures x * k <= y * k
    decreases k
  {
    if k > 0 {
      MulMonotone(x, y, k - 1);
      assert x * k == x * (k - 1) + x;
      assert y * k == y * (k - 1) + y;
    }
  }

  /**
   * gbsCredit before clamping: (int64_t)(rtscCurr - lastRtsc) * numTimeslots,
   * an unsigned 64-bit difference reinterpreted as signed, then multiplied in
   * 64 bits. Signed overflow is undefined in C; the model takes the wrap-around
   * of the machine.
   */
  function RawIncrement(now: nat, lastRtsc: nat, numTimeslots: int): (r: int)
    ensures IsS64(r)
  {
    Wrap64(Wrap64((now - lastRtsc) % U64_LIMIT) * numTimeslots)
  }

  /** The increment after the comparison with INT64_CEILING. */
  function ClampedIncrement(raw: int): (r: int)
    ensures r <= INT64_CEILING
    ensures raw < INT64_CEILING ==> r == raw
  {
    if raw >= INT64_CEILING then INT64_CEILING else raw
  }

  /** Whether a refill discards the balance and restarts from the ceiling. */
  predicate ResetsToCeiling(inc: int, ceiling: int)
  {
    inc > 2 * ceiling || inc < 0
  }

  /** increase{Path,Bundle,Queue}Credit: the new credit after a refill at TSC `now`. */
  function Refill(c: CreditState, timeslotTsc: nat, timeslotsPerSeq: nat, numTimeslots: int, now: nat)
    : (r: CreditState)
    requires IsS64(c.value) && IsU64(c.lastRtsc) && IsU64(now)
    requires IsU32(timeslotTsc) && IsU16(timeslotsPerSeq)
    ensures IsS64(r.value) && IsU64(r.lastRtsc)
    ensures r.value <= Ceiling(timeslotTsc, timeslotsPerSeq)
    ensures r.lastRtsc == now
  {
    var ceiling := Ceiling(timeslotTsc, timeslotsPerSeq);
    var inc := ClampedIncrement(RawIncrement(now, c.lastRtsc, numTimeslots));
    var value :=
      if ResetsToCeiling(inc, ceiling) then ceiling
      else
        var sum := Wrap64(c.value + inc);
        if sum > ceiling then ceiling else sum;
    CreditState(value, now)
  }

  /** An increment below zero or above twice the ceiling (including the clamped 1E18) resets the balance. */
  lemma RefillResets(c: CreditState, timeslotTsc: nat, timeslotsPerSeq: nat, numTimeslots: int, now: nat)
    requires IsS64(c.value) && IsU64(c.lastRtsc) && IsU64(now)
    requires IsU32(timeslotTsc) && IsU16(timeslotsPerSeq)
    requires var raw := RawIncrement(now, c.lastRtsc, numTimeslots);
      raw < 0 || raw > 2 * Ceiling(timeslotTsc, timeslotsPerSeq)
    ensures Refill(c, timeslotTsc, timeslotsPerSeq, numTimeslots, now).value == Ceiling(timeslotTsc, timeslotsPerSeq)
  {
  }

  /** Otherwise the increment is added and the sum is capped at the ceiling. */
  lemma RefillAccumulates(c: CreditState, timeslotTsc: nat, timeslotsPerSeq: nat, numTimeslots: int, now: nat)
    requires IsS64(c.value) && IsU64(c.lastRtsc) && IsU64(now)
    requires IsU32(timeslotTsc) && IsU16(timeslotsPerSeq)
    requires c.value <= Ceiling(timeslotTsc, timeslotsPerSeq)
    requires var raw := RawIncrement(now, c.lastRtsc, numTimeslots);
      0 <= raw <= 2 * Ceiling(timeslotTsc, timeslotsPerSeq)
    ensures var raw := RawIncrement(now, c.lastRtsc, numTimeslots);
      var ceiling := Ceiling(timeslotTsc, timeslotsPerSeq);
      Refill(c, timeslotTsc, timeslotsPerSeq, numTimeslots, now).value ==
        if c.value + raw > ceiling then ceiling else c.value + raw
  {
  }

  /** With no elapsed ticks a balance within the ceiling is left unchanged. */
  lemma RefillZeroElapsed(c: CreditState, timeslotTsc: nat, timeslotsPerSeq: nat, numTimeslots: int)
    requires IsS64(c.value) && IsU64(c.lastRtsc)
    requires IsU32(timeslotTsc) && IsU16(timeslotsPerSeq)
    requires c.value <= Ceiling(timeslotTsc, timeslotsPerSeq)
    ensures Refill(c, timeslotTsc, timeslotsPerSeq, numTimeslots, c.lastRtsc) == c
  {
    assert RawIncrement(c.lastRtsc, c.lastRtsc, numTimeslots) == 0;
  }

  /** A refill never lowers a balance that is within the ceiling. */
  lemma RefillMonotone(c: CreditState, timeslotTsc: nat, timeslotsPerSeq: nat, numTimeslots: int, now: nat)
    requires IsS64(c.value) && IsU64(c.lastRtsc) && IsU64(now)
    requires IsU32(timeslotTsc) && IsU16(timeslotsPerSeq)
    requires c.value <= Ceiling(timeslotTsc, timeslotsPerSeq)
    ensures c.value <= Refill(c, timeslotTsc, timeslotsPerSeq, numTimeslots, now).value
  {
  }

  /** The comparison with 1E18 never decides the outcome: a clamped increment always resets. */
  lemma ClampImpliesReset(raw: int, timeslotTsc: nat, timeslotsPerSeq: nat)
    requires IsU32(timeslotTsc) && IsU16(timeslotsPerSeq)
    requires raw >= INT64_CEILING
    ensures ResetsToCeiling(ClampedIncrement(raw), Ceiling(timeslotTsc, timeslotsPerSeq))
    ensures ResetsToCeiling(raw, Ceiling(timeslotTsc, timeslotsPerSeq))
  {
  }

  /**
   * decreasePathCredit / decreaseBundleCredit: subtract timeslotsPerSeq * txtimeTsc.
   * The product is unsigned 64-bit; the balance has no floor.
   */
  function DebitTxTime(c: CreditState, timeslotsPerSeq: nat, txtimeTsc: nat): (r: CreditState)
    requires IsS64(c.value)
    ensures IsS64(r.value) && r.lastRtsc == c.lastRtsc
    ensures timeslotsPerSeq * txtimeTsc < U64_LIMIT && IsS64(c.value - timeslotsPerSeq * txtimeTsc) ==>
      r.value == c.value - timeslotsPerSeq * txtimeTsc
  {
    c.(value := Wrap64(c.value - (timeslotsPerSeq * txtimeTsc) % U64_LIMIT))
  }

  /**
   * decreaseQueueCredit: subtract timeslotsPerSeq * timeslotTsc, a 32-bit
   * unsigned product, whatever the size of the packet sent.
   */
  function DebitTimeslot(c: CreditState, timeslotsPerSeq: nat, timeslotTsc: nat): (r: CreditState)
    requires IsS64(c.value)
    ensures IsS64(r.value) && r.lastRtsc == c.lastRtsc
    ensures timeslotsPerSeq * timeslotTsc < U32_LIMIT && IsS64(c.value - timeslotsPerSeq * timeslotTsc) ==>
      r.value == c.value - timeslotsPerSeq * timeslotTsc
  {
    c.(value := Wrap64(c.value - (timeslotsPerSeq * timeslotTsc) % U32_LIMIT))
  }

  /** A refill just after a debit of at most the ceiling brings a non-negative balance back. */
  lemma RefillAfterDebitRecovers(c: CreditState, timeslotTsc: nat, timeslotsPerSeq: nat, numTimeslots: int,
                                 now: nat)
    requires IsS64(c.value) && IsU64(c.lastRtsc) && IsU64(now)
    requires IsU32(timeslotTsc) && IsU16(timeslotsPerSeq)
    requires 0 <= c.value <= Ceiling(timeslotTsc, timeslotsPerSeq)
    requires 0 <= RawIncrement(now, c.lastRtsc, numTimeslots)
    ensures 0 <= Refill(c, timeslotTsc, timeslotsPerSeq, numTimeslots, now).value
  {
  }
}
