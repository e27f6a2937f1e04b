/**
 * Bundle round-robin (DaaS/PoCPhase3/tm10/tmBundle.c:14-67).
 *
 * Each bundle is an ordered list of member GBS queues. The cursor table
 * lastQueueServed holds, per bundle id, the position (not the queue id) of
 * the member served last, or NO_QUEUE before the first service. The table is
 * a single global keyed by bundle id only, so both configuration
 * generations share it.
 */
module Bundle {
  import opened TmDefs

  /** NO_QUEUE (DaaS/PoCPhase3/tm10/tmBundle.h:16). */
  const NO_QUEUE: nat := 0xFFFF

  /** The member position served after cursor `last` in a bundle of numQueues members. */
  function NextIndex(last: nat, numQueues: nat): (i: nat)
    ensures i < numQueues || i == 0
  {
    var qidx := if last == NO_QUEUE then 0 else last + 1;
    if qidx >= numQueues then 0 else qidx
  }

  /** From a cursor before the last member the next position is the following one. */
  lemma NextIndexSucceeds(last: nat, numQueues: nat)
    requires last + 1 < numQueues && last != NO_QUEUE
    ensures NextIndex(last, numQueues) == last + 1
  {
  }

  /** A fresh cursor, or one at or beyond the last member (a bundle may shrink on reload), restarts at 0. */
  lemma NextIndexRestarts(last: nat, numQueues: nat)
    requires last == NO_QUEUE || last + 1 >= numQueues
    ensures NextIndex(last, numQueues) == 0
  {
  }

  /** The positions of k successive services starting from cursor `last`. */
  function Services(last: nat, numQueues: nat, k: nat): (s: seq<nat>)
    ensures |s| == k
    decreases k
  {
    if k == 0 then []
    else
      var i := NextIndex(last, numQueues);
      [i] + Services(i, numQueues, k - 1)
  }

  /** x reduced once modulo n. */
  function WrapOnce(x: nat, n: nat): nat
  {
    if x < n then x else x - n
  }

  /** The j-th of up to numQueues successive services is j positions after the first, wrapping once. */
  lemma {:induction false} ServicesAt(last: nat, numQueues: nat, k: nat, j: nat)
    requires 0 < numQueues <= NO_QUEUE && j < k <= numQueues
    ensures Services(last, numQueues, k)[j] == WrapOnce(NextIndex(last, numQueues) + j, numQueues)
    decreases j
  {
    var i := NextIndex(last, numQueues);
    if j > 0 {
      assert Services(last, numQueues, k)[j] == Services(i, numQueues, k - 1)[j - 1];
      ServicesAt(i, numQueues, k - 1, j - 1);
    }
  }

  /** The cursor left behind by a run of services s that started at `last`. */
  function LastServed(last: nat, s: seq<nat>): nat
  {
    if s == [] then last else s[|s| - 1]
  }

  /** One more service continues from where the previous ones left the cursor. */
  lemma {:induction false} ServicesSnoc(last: nat, numQueues: nat, k: nat)
    ensures Services(last, numQueues, k + 1) ==
            Services(last, numQueues, k) + [NextIndex(LastServed(last, Services(last, numQueues, k)), numQueues)]
    decreases k
  {
    if k > 0 {
      var i := NextIndex(last, numQueues);
      ServicesSnoc(i, numQueues, k - 1);
      assert LastServed(i, Services(i, numQueues, k - 1)) == LastServed(last, Services(last, numQueues, k));
    }
  }

  /**
   * numQueues successive services visit every member position exactly once,
   * whatever the cursor was before.
   */
  lemma RoundRobinFair(last: nat, numQueues: nat)
    requires 0 < numQueues <= QUEUES_PER_BUNDLE_MAX
    ensures var s := Services(last, numQueues, numQueues);
      && (forall j :: 0 <= j < numQueues ==> s[j] < numQueues)
      && (forall p :: 0 <= p < numQueues ==> p in s)
      && (forall j1, j2 :: 0 <= j1 < j2 < numQueues ==> s[j1] != s[j2])
  {
    var s := Services(last, numQueues, numQueues);
    var f := NextIndex(last, numQueues);
    forall j | 0 <= j < numQueues
      ensures s[j] == WrapOnce(f + j, numQueues)
    {
      ServicesAt(last, numQueues, numQueues, j);
    }
    forall p | 0 <= p < numQueues
      ensures p in s
    {
      var j := if p >= f then p - f else p + numQueues - f;
      assert s[j] == p;
    }
  }

  /** The lastQueueServed table and its two operations. */
  class RoundRobin {
    /** lastQueueServed[NUM_GBSQUEUES_MAX], uint16_t entries. */
    const lastQueueServed: array<nat>

    ghost predicate Valid()
      reads this, lastQueueServed
    {
      lastQueueServed.Length == NUM_GBSQUEUES_MAX &&
      forall b :: 0 <= b < NUM_GBSQUEUES_MAX ==> IsU16(lastQueueServed[b])
    }

    /** The table as static storage leaves it: all zero (initBundles is never called). */
    constructor ()
      ensures Valid() && fresh(lastQueueServed)
      ensures lastQueueServed[..] == seq(NUM_GBSQUEUES_MAX, _ => 0)
    {
      lastQueueServed := new nat[NUM_GBSQUEUES_MAX](_ => 0);
    }

    /** initBundles: mark every bundle as never served. */
    method InitBundles()
      requires Valid()
      modifies lastQueueServed
      ensures Valid()
      ensures lastQueueServed[..] == seq(NUM_GBSQUEUES_MAX, _ => NO_QUEUE)
    {
      var i := 0;
      while i < NUM_GBSQUEUES_MAX
        invariant 0 <= i <= NUM_GBSQUEUES_MAX
        invariant forall b :: 0 <= b < i ==> lastQueueServed[b] == NO_QUEUE
        invariant forall b :: i <= b < NUM_GBSQUEUES_MAX ==> IsU16(lastQueueServed[b])
      {
        lastQueueServed[i] := NO_QUEUE;
        i := i + 1;
      }
    }

    /**
     * getNextQueueToServed: advance the bundle's cursor and return the queue
     * id at the new position. Only the bundle's own entry changes.
     */
    method GetNextQueueToServed(bc: BundleConf) returns (qid: nat)
      requires Valid() && BundleShaped(bc) && bc.bid < NUM_GBSQUEUES_MAX
      modifies lastQueueServed
      ensures Valid()
      ensures lastQueueServed[..] ==
        old(lastQueueServed[..])[bc.bid := NextIndex(old(lastQueueServed[bc.bid]), bc.numQueues)]
      ensures qid == bc.queues[lastQueueServed[bc.bid]]
    {
      var last := lastQueueServed[bc.bid];
      var qidx: nat;
      if last == NO_QUEUE {
        qidx := 0;
      } else {
        qidx := last + 1;
      }
      if qidx >= bc.numQueues {
        qidx := 0;
      }
      lastQueueServed[bc.bid] := qidx;
      qid := bc.queues[qidx];
    }
  }

  /**
   * bundleQueuesAreEmpty: whether every member ring is empty; true for a
   * bundle without members. `rings` are the GBS rings indexed by queue id.
   */
  method BundleQueuesAreEmpty<T>(bc: BundleConf, rings: seq<seq<T>>) returns (isEmpty: bool)
    requires BundleShaped(bc)
    requires forall i :: 0 <= i < bc.numQueues ==> bc.queues[i] < |rings|
    ensures isEmpty <==> forall i :: 0 <= i < bc.numQueues ==> |rings[bc.queues[i]]| == 0
  {
    isEmpty := true;
    var i := 0;
    while i < bc.numQueues
      invariant 0 <= i <= bc.numQueues
      invariant isEmpty <==> forall k :: 0 <= k < i ==> |rings[bc.queues[k]]| == 0
    {
      var qid := bc.queues[i];
      if |rings[qid]| != 0 {
        isEmpty := false;
        break;
      }
      i := i + 1;
    }
  }
}
