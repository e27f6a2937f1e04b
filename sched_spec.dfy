/**
 * One iteration of the DCB_Q dequeue loop (DaaS/PoCPhase3/tm10/tmSched.c:915-1488),
 * stated on values.
 *
 * Shaper holds everything an iteration reads and writes; Params holds the
 * configuration it only reads; Locals holds the three values the loop
 * captures once, before its first iteration (tmSched.c:906-908). An
 * iteration is the composition SlotUpdate; Select; (Scan if Eligible);
 * (Ebs if nothing was dequeued); Flip. The imperative loop in module Sched
 * is proved to compute exactly Step.
 *
 * Rings are bounded FIFOs. The GBS rings are kept outside the two
 * configuration generations (see README, Findings).
 */
module SchedSpec {
  import opened TmDefs
  import opened Credit
  import opened Bundle

  // ---------------------------------------------------------------------
  // Packets and rings
  // ---------------------------------------------------------------------

  /** An mbuf: only its bytes matter here; pkt_len is their number. */
  datatype Packet = Packet(frame: seq<bv8>)

  function PktLen(p: Packet): nat
  {
    |p.frame|
  }

  /** A ring created with APP_RING_SIZE (262144) slots holds one entry fewer. */
  const RING_CAPACITY: nat := 262143

  /** Total number of packets held in a list of rings. */
  function SumLens(rings: seq<seq<Packet>>): nat
  {
    if rings == [] then 0 else SumLens(rings[..|rings| - 1]) + |rings[|rings| - 1]|
  }

  /** Replacing one ring changes the total by the difference of the two lengths. */
  lemma {:induction false} SumLensUpdate(rings: seq<seq<Packet>>, i: nat, r: seq<Packet>)
    requires i < |rings|
    ensures SumLens(rings[i := r]) + |rings[i]| == SumLens(rings) + |r|
    decreases |rings|
  {
    var n := |rings| - 1;
    var u := rings[i := r];
    assert u[..n] == if i == n then rings[..n] else rings[..n][i := r];
    if i < n {
      SumLensUpdate(rings[..n], i, r);
    }
  }

  // ---------------------------------------------------------------------
  // State, configuration and loop-local values
  // ---------------------------------------------------------------------

  predicate ValidCredit(c: CreditState)
  {
    IsS64(c.value) && IsU64(c.lastRtsc)
  }

  /** A table with one row of n entries per configuration generation. */
  predicate Grid<T>(t: seq<seq<T>>, n: nat)
  {
    |t| == NUM_GENERATIONS && forall g :: 0 <= g < NUM_GENERATIONS ==> |t[g]| == n
  }

  /** A bundle record the parser can produce: shaped, member ids, path and own id below 16. */
  predicate ValidBundle(bc: BundleConf)
  {
    BundleShaped(bc) && bc.bid < NUM_GBSQUEUES_MAX && bc.pathId < NUM_GBSQUEUES_MAX &&
    forall i :: 0 <= i < QUEUES_PER_BUNDLE_MAX ==> bc.queues[i] < NUM_GBSQUEUES_MAX
  }

  predicate IsCreditTable(t: seq<seq<CreditState>>)
  {
    Grid(t, NUM_GBSQUEUES_MAX) &&
    forall g, i :: 0 <= g < NUM_GENERATIONS && 0 <= i < NUM_GBSQUEUES_MAX ==> ValidCredit(t[g][i])
  }

  predicate IsQueueTable(t: seq<seq<QueueState>>)
  {
    Grid(t, NUM_GBSQUEUES_MAX) &&
    forall g, i :: 0 <= g < NUM_GENERATIONS && 0 <= i < NUM_GBSQUEUES_MAX ==> ValidCredit(t[g][i].queueCredit)
  }

  predicate IsPssTable(t: seq<seq<nat>>)
  {
    Grid(t, NUM_TIMESLOTS_MAX) &&
    forall g, s :: 0 <= g < NUM_GENERATIONS && 0 <= s < NUM_TIMESLOTS_MAX ==> t[g][s] < NUM_GBSQUEUES_MAX
  }

  predicate IsBundleTable(t: seq<seq<BundleConf>>)
  {
    Grid(t, NUM_GBSQUEUES_MAX) &&
    forall g, b :: 0 <= g < NUM_GENERATIONS && 0 <= b < NUM_GBSQUEUES_MAX ==> ValidBundle(t[g][b])
  }

  /** gbsPath and gbsBundle: per generation, 16 credit records within their C types. */
  type CreditTable = t: seq<seq<CreditState>> | IsCreditTable(t)
    witness seq(NUM_GENERATIONS, _ => seq(NUM_GBSQUEUES_MAX, _ => ZERO_CREDIT))

  /** gbsQueue: per generation, 16 GBS queue records. */
  type QueueTable = t: seq<seq<QueueState>> | IsQueueTable(t)
    witness seq(NUM_GENERATIONS, _ => seq(NUM_GBSQUEUES_MAX, _ => ZERO_QUEUE))

  /** pss: per generation, NUM_TIMESLOTS_MAX bundle ids, each naming one of the 16 bundles. */
  type PssTable = t: seq<seq<nat>> | IsPssTable(t)
    witness seq(NUM_GENERATIONS, _ => seq(NUM_TIMESLOTS_MAX, _ => 0))

  /** pathConf: per generation, 16 path records. */
  type PathTable = t: seq<seq<PathConf>> | Grid(t, NUM_GBSQUEUES_MAX)
    witness seq(NUM_GENERATIONS, _ => seq(NUM_GBSQUEUES_MAX, _ => ZERO_PATH))

  /** bundleConf: per generation, 16 bundle records the parser can produce. */
  type BundleTable = t: seq<seq<BundleConf>> | IsBundleTable(t)
    witness seq(NUM_GENERATIONS, _ => seq(NUM_GBSQUEUES_MAX, _ => ZERO_BUNDLE))

  /** streamCfg: per generation, NUM_STREAMS_MAX + 1 stream records. */
  type StreamTable = t: seq<seq<StreamCfg>> | Grid(t, NUM_STREAMS_MAX + 1)
    witness seq(NUM_GENERATIONS, _ => seq(NUM_STREAMS_MAX + 1, _ => ZERO_STREAM))

  /** The GBS rings, one per GBS queue id. */
  type GbsRings = r: seq<seq<Packet>> | |r| == TM_NUM_RX_RINGS witness seq(TM_NUM_RX_RINGS, _ => [])

  /** The EBS rings, one per traffic class. */
  type EbsRings = r: seq<seq<Packet>> | |r| == TM_NUM_CLASSES witness seq(TM_NUM_CLASSES, _ => [])

  /** DequeueThreadStats fields the loop updates, plus SchedState.txPktsTotal. */
  datatype Counters = Counters(
    timeslots: nat,
    timeslotsSkipped: nat,
    timeslotsSkippedMax: nat,
    schedSequences: nat,
    txRingDrops: nat,
    txPkts: nat,
    txBytes: nat,
    txSchedBytes: nat,
    txGBSPkts: nat,
    txEBSPkts: nat,
    txPktsTotal: nat)

  const ZERO_COUNTERS: Counters := Counters(0, 0, 0, 0, 0, 0, 0, 0, 0, 0, 0)

  /**
   * What an iteration reads and writes: SchedConf.confId/newConfig, the
   * SchedState fields of the loop, the per-generation credit records, the
   * round-robin cursors (lastQueueServed) and the rings.
   */
  datatype Shaper = Shaper(
    confId: nat,
    newConfig: bool,
    timeslotsTotal: nat,
    schedSeqTotal: nat,
    schedSeqTotalPrev: nat,
    timeslotIdx: nat,
    timeslotIdxPrev: nat,
    gbsPath: CreditTable,
    gbsBundle: CreditTable,
    gbsQueue: QueueTable,
    cursors: seq<nat>,
    gbsRings: GbsRings,
    ebsRings: EbsRings,
    txRing: seq<Packet>,
    stats: Counters)

  /** The SchedConf fields an iteration only reads. */
  datatype Params = Params(
    timeslotTsc: U32,
    timeslotsPerSeq: U16,
    linkSpeedBpMTsc: nat,
    pss: PssTable,
    pathConf: PathTable,
    bundleConf: BundleTable,
    streamCfg: StreamTable)

  /** timeslotTsc, timeslotsPerSeq and overrideths as the loop captured them. */
  datatype Locals = Locals(timeslotTsc: nat, timeslotsPerSeq: nat, overrideths: int)

  /**
   * The captured values: the override threshold is computed in 32-bit
   * unsigned arithmetic, product first, then divided by PATH_OVERRIDE_FACTOR.
   */
  function CaptureLocals(timeslotTsc: nat, timeslotsPerSeq: nat): (l: Locals)
    ensures l.timeslotTsc == timeslotTsc && l.timeslotsPerSeq == timeslotsPerSeq
    ensures 0 <= l.overrideths < U32_LIMIT / PATH_OVERRIDE_FACTOR
  {
    Locals(timeslotTsc, timeslotsPerSeq, ToU32(timeslotTsc * timeslotsPerSeq) / PATH_OVERRIDE_FACTOR)
  }

  const PATH_OVERRIDE_FACTOR: nat := 4

  predicate ValidParams(p: Params)
  {
    p.linkSpeedBpMTsc > 0
  }

  /** The loop divides by both captured values and indexes pss below timeslotsPerSeq. */
  predicate ValidLocals(l: Locals)
  {
    0 < l.timeslotTsc < U32_LIMIT && 0 < l.timeslotsPerSeq <= NUM_TIMESLOTS_MAX
  }

  /** Captured values the loop can run with. */
  type LoopLocals = l: Locals | ValidLocals(l) witness Locals(1, 1, 0)

  predicate ValidShaper(w: Shaper, l: LoopLocals)
  {
    w.confId < NUM_GENERATIONS &&
    w.timeslotIdx < l.timeslotsPerSeq && w.timeslotIdxPrev < l.timeslotsPerSeq &&
    |w.cursors| == NUM_GBSQUEUES_MAX && (forall b :: 0 <= b < NUM_GBSQUEUES_MAX ==> IsU16(w.cursors[b]))
  }

  /** Every packet the model has seen is in a ring or counted as a tx-ring drop. */
  function Packets(w: Shaper): nat
  {
    SumLens(w.gbsRings) + SumLens(w.ebsRings) + |w.txRing| + w.stats.txRingDrops
  }

  // ---------------------------------------------------------------------
  // Credit updates on the state (instances of Credit.Refill and the debits)
  // ---------------------------------------------------------------------

  function RefillPath(w: Shaper, p: Params, l: LoopLocals, g: nat, path: nat, now: U64): (r: Shaper)
    requires ValidParams(p) && ValidShaper(w, l) && g < NUM_GENERATIONS && path < NUM_GBSQUEUES_MAX
    ensures ValidShaper(r, l) && r == w.(gbsPath := r.gbsPath)
  {
    var c := Refill(w.gbsPath[g][path], p.timeslotTsc, p.timeslotsPerSeq, p.pathConf[g][path].numTimeslots, now);
    w.(gbsPath := w.gbsPath[g := w.gbsPath[g][path := c]])
  }

  function RefillBundle(w: Shaper, p: Params, l: LoopLocals, g: nat, bid: nat, now: U64): (r: Shaper)
    requires ValidParams(p) && ValidShaper(w, l) && g < NUM_GENERATIONS && bid < NUM_GBSQUEUES_MAX
    ensures ValidShaper(r, l) && r == w.(gbsBundle := r.gbsBundle)
  {
    var c := Refill(w.gbsBundle[g][bid], p.timeslotTsc, p.timeslotsPerSeq, p.bundleConf[g][bid].numTimeslots, now);
    w.(gbsBundle := w.gbsBundle[g := w.gbsBundle[g][bid := c]])
  }

  /** The queue is refilled with its bundle's slot count (tmSched.c:1140). */
  function RefillQueue(w: Shaper, p: Params, l: LoopLocals, g: nat, qid: nat, numTimeslots: int, now: U64): (r: Shaper)
    requires ValidParams(p) && ValidShaper(w, l) && g < NUM_GENERATIONS && qid < NUM_GBSQUEUES_MAX
    ensures ValidShaper(r, l) && r == w.(gbsQueue := r.gbsQueue)
  {
    var q := w.gbsQueue[g][qid];
    var c := Refill(q.queueCredit, p.timeslotTsc, p.timeslotsPerSeq, numTimeslots, now);
    w.(gbsQueue := w.gbsQueue[g := w.gbsQueue[g][qid := q.(queueCredit := c)]])
  }

  // ---------------------------------------------------------------------
  // Phase 1: timeslot index and skipped-slot accounting (tmSched.c:931-973)
  // ---------------------------------------------------------------------

  /** The slot index of time `now`. */
  function SlotIndex(l: LoopLocals, now: U64): (i: nat)
    ensures i < l.timeslotsPerSeq
  {
    (now / l.timeslotTsc) % l.timeslotsPerSeq
  }

  /** Forward distance from slot `prev` to slot `idx` around the sequence (timeslotDiff). */
  function SlotDistance(idx: nat, prev: nat, n: nat): (d: nat)
    requires idx < n && prev < n
    ensures d < n
    ensures (prev + d == idx) || (prev + d == idx + n)
  {
    if idx < prev then n + idx - prev else idx - prev
  }

  /** A slot change: count it, count a skip and the longest skip, and a new sequence. */
  function NewTimeslot(w: Shaper, l: LoopLocals): (r: Shaper)
    requires ValidShaper(w, l)
    ensures ValidShaper(r, l)
    ensures r == w.(timeslotIdxPrev := w.timeslotIdx, schedSeqTotalPrev := r.schedSeqTotalPrev, stats := r.stats)
  {
    var diff := SlotDistance(w.timeslotIdx, w.timeslotIdxPrev, l.timeslotsPerSeq);
    var s := w.stats;
    var s1 := s.(timeslots := s.timeslots + 1,
                 timeslotsSkipped := if diff > 1 then s.timeslotsSkipped + 1 else s.timeslotsSkipped,
                 timeslotsSkippedMax := if diff > s.timeslotsSkippedMax then diff else s.timeslotsSkippedMax);
    if w.schedSeqTotal != w.schedSeqTotalPrev then
      w.(timeslotIdxPrev := w.timeslotIdx, schedSeqTotalPrev := w.schedSeqTotal, stats := s1.(schedSequences := s1.schedSequences + 1))
    else
      w.(timeslotIdxPrev := w.timeslotIdx, stats := s1)
  }

  function SlotUpdate(w: Shaper, l: LoopLocals, now: U64): (r: Shaper)
    requires ValidShaper(w, l)
    ensures ValidShaper(r, l)
    ensures r.timeslotIdx == SlotIndex(l, now)
    ensures r.gbsRings == w.gbsRings && r.ebsRings == w.ebsRings && r.txRing == w.txRing
    ensures r.stats.txRingDrops == w.stats.txRingDrops && r.confId == w.confId && r.newConfig == w.newConfig
  {
    var total: nat := now / l.timeslotTsc;
    var idx := SlotIndex(l, now);
    var w1 := w.(timeslotsTotal := total, schedSeqTotal := total / l.timeslotsPerSeq, timeslotIdx := idx);
    if idx == w.timeslotIdxPrev then w1 else NewTimeslot(w1, l)
  }

  // ---------------------------------------------------------------------
  // Phase 2: relinquish and advance (tmSched.c:975-1115)
  // ---------------------------------------------------------------------

  /** The bundle scheduled in the current slot of the active generation. */
  function SlotBundle(w: Shaper, p: Params, l: LoopLocals): (bid: nat)
    requires ValidParams(p) && ValidShaper(w, l)
    ensures bid < NUM_GBSQUEUES_MAX
  {
    p.pss[w.confId][w.timeslotIdx]
  }

  function SlotBundleConf(w: Shaper, p: Params, l: LoopLocals): (bc: BundleConf)
    requires ValidParams(p) && ValidShaper(w, l)
    ensures ValidBundle(bc)
  {
    p.bundleConf[w.confId][SlotBundle(w, p, l)]
  }

  /** bundleQueuesAreEmpty on the (generation-independent) GBS rings. */
  predicate MembersEmpty(bc: BundleConf, rings: seq<seq<Packet>>)
    requires ValidBundle(bc) && |rings| == TM_NUM_RX_RINGS
  {
    forall i :: 0 <= i < bc.numQueues ==> |rings[bc.queues[i]]| == 0
  }

  /** The relinquish test for a scheduled bundle (tmSched.c:1006-1009). */
  predicate Relinquishes(w: Shaper, p: Params, l: LoopLocals)
    requires ValidParams(p) && ValidShaper(w, l)
  {
    var bc := SlotBundleConf(w, p, l);
    var credit := w.gbsBundle[w.confId][SlotBundle(w, p, l)].value;
    credit < 0 ||
    (bc.pathId > 0 && credit < l.overrideths && w.gbsPath[w.confId][bc.pathId].value < 0) ||
    MembersEmpty(bc, w.gbsRings)
  }

  /** The slot after slot i of a sequence of n slots. */
  function NextSlot(i: nat, n: nat): (j: nat)
    requires i < n
    ensures j < n && j == (i + 1) % n
  {
    if i + 1 == n then
      assert (i + 1) % n == (i + 1 - n) % n;
      0
    else
      assert (i + 1) % n == i + 1;
      i + 1
  }

  /** Move to the next slot, wrapping at the captured sequence length and counting a sequence. */
  function Advance(w: Shaper, l: LoopLocals): (r: Shaper)
    requires ValidShaper(w, l)
    ensures ValidShaper(r, l)
    ensures r.timeslotIdx == NextSlot(w.timeslotIdx, l.timeslotsPerSeq)
    ensures r == w.(timeslotIdx := r.timeslotIdx, timeslotIdxPrev := r.timeslotIdxPrev,
                    schedSeqTotalPrev := r.schedSeqTotalPrev, stats := r.stats)
  {
    var s := w.stats.(timeslots := w.stats.timeslots + 1);
    if w.timeslotIdx + 1 >= l.timeslotsPerSeq then
      w.(timeslotIdxPrev := w.timeslotIdx, timeslotIdx := w.timeslotIdx + 1 - l.timeslotsPerSeq,
         schedSeqTotalPrev := w.schedSeqTotal, stats := s.(schedSequences := s.schedSequences + 1))
    else
      w.(timeslotIdxPrev := w.timeslotIdx, timeslotIdx := w.timeslotIdx + 1, stats := s)
  }

  /** After an advance, the new slot's bundle is refilled, then its path. */
  function AdvanceAndRefill(w: Shaper, p: Params, l: LoopLocals, now: U64): (r: Shaper)
    requires ValidParams(p) && ValidShaper(w, l)
    ensures ValidShaper(r, l)
    ensures r.timeslotIdx == NextSlot(w.timeslotIdx, l.timeslotsPerSeq)
    ensures r.gbsRings == w.gbsRings && r.ebsRings == w.ebsRings && r.txRing == w.txRing
    ensures r.stats.txRingDrops == w.stats.txRingDrops && r.confId == w.confId && r.newConfig == w.newConfig
  {
    RefillAdvanced(Advance(w, l), p, l, now)
  }

  /** The refill after an advance: the new slot's bundle, if any, then its path, if any. */
  function RefillAdvanced(w: Shaper, p: Params, l: LoopLocals, now: U64): (r: Shaper)
    requires ValidParams(p) && ValidShaper(w, l)
    ensures ValidShaper(r, l) && r == w.(gbsPath := r.gbsPath, gbsBundle := r.gbsBundle)
  {
    var bid := SlotBundle(w, p, l);
    var path := SlotBundleConf(w, p, l).pathId;
    if bid == 0 then w
    else
      var w2 := RefillBundle(w, p, l, w.confId, bid, now);
      if path > 0 then RefillPath(w2, p, l, w2.confId, path, now) else w2
  }

  /** A scheduled bundle's path (if it has one) is refilled, then the bundle itself. */
  function RefillSlot(w: Shaper, p: Params, l: LoopLocals, now: U64): (r: Shaper)
    requires ValidParams(p) && ValidShaper(w, l)
    ensures ValidShaper(r, l) && r == w.(gbsPath := r.gbsPath, gbsBundle := r.gbsBundle)
  {
    var bid := SlotBundle(w, p, l);
    var path := SlotBundleConf(w, p, l).pathId;
    var w1 := if path > 0 then RefillPath(w, p, l, w.confId, path, now) else w;
    RefillBundle(w1, p, l, w1.confId, bid, now)
  }

  /** A scheduled bundle refills its credits, then relinquishes the slot or keeps it. */
  function Select(w: Shaper, p: Params, l: LoopLocals, now: U64): (r: Shaper)
    requires ValidParams(p) && ValidShaper(w, l)
    ensures ValidShaper(r, l)
    ensures r.timeslotIdx == w.timeslotIdx || r.timeslotIdx == NextSlot(w.timeslotIdx, l.timeslotsPerSeq)
    ensures SlotBundle(w, p, l) == 0 ==> r.timeslotIdx == NextSlot(w.timeslotIdx, l.timeslotsPerSeq)
    ensures r.gbsRings == w.gbsRings && r.ebsRings == w.ebsRings && r.txRing == w.txRing
    ensures r.stats.txRingDrops == w.stats.txRingDrops && r.confId == w.confId && r.newConfig == w.newConfig
  {
    if SlotBundle(w, p, l) == 0 then AdvanceAndRefill(w, p, l, now)
    else
      var w2 := RefillSlot(w, p, l, now);
      if Relinquishes(w2, p, l) then AdvanceAndRefill(w2, p, l, now) else w2
  }

  // ---------------------------------------------------------------------
  // Phase 3: eligibility and the member scan (tmSched.c:1118-1303)
  // ---------------------------------------------------------------------

  /** The bundle of the (possibly new) slot may be served. */
  predicate Eligible(w: Shaper, p: Params, l: LoopLocals)
    requires ValidParams(p) && ValidShaper(w, l)
  {
    var bid := SlotBundle(w, p, l);
    var path := SlotBundleConf(w, p, l).pathId;
    var credit := w.gbsBundle[w.confId][bid].value;
    bid > 0 && credit >= 0 && (path == 0 || w.gbsPath[w.confId][path].value >= 0 || credit >= l.overrideths)
  }

  /** Wire time of a packet in TSC ticks: frame, PHY overhead and telemetry, in bits, per link speed. */
  function TxTimeTsc(pktLen: nat, linkSpeedBpMTsc: nat): (t: nat)
    requires linkSpeedBpMTsc > 0
  {
    ((pktLen + ETHER_PHY_FRAME_OVERHEAD + TELEMETRY_DATA_LEN) * 8 * 1_000_000) / linkSpeedBpMTsc
  }

  /**
   * A longer packet never takes fewer ticks, and at a link speed of at most
   * 320 million bits per million ticks (320 Gbit/s on a 1 GHz TSC) every
   * packet, even an empty one, costs its path and bundle at least one tick.
   */
  lemma TxTimeTscGrows(a: nat, b: nat, linkSpeedBpMTsc: nat)
    requires linkSpeedBpMTsc > 0 && a <= b
    ensures TxTimeTsc(a, linkSpeedBpMTsc) <= TxTimeTsc(b, linkSpeedBpMTsc)
    ensures linkSpeedBpMTsc <= (ETHER_PHY_FRAME_OVERHEAD + TELEMETRY_DATA_LEN) * 8 * 1_000_000 ==>
      TxTimeTsc(a, linkSpeedBpMTsc) >= 1
  {
    var x := (a + ETHER_PHY_FRAME_OVERHEAD + TELEMETRY_DATA_LEN) * 8 * 1_000_000;
    var y := (b + ETHER_PHY_FRAME_OVERHEAD + TELEMETRY_DATA_LEN) * 8 * 1_000_000;
    DivMonotone(x, y, linkSpeedBpMTsc);
    if linkSpeedBpMTsc <= (ETHER_PHY_FRAME_OVERHEAD + TELEMETRY_DATA_LEN) * 8 * 1_000_000 {
      DivMonotone(linkSpeedBpMTsc, x, linkSpeedBpMTsc);
    }
  }

  lemma {:induction false} DivMonotone(x: nat, y: nat, d: nat)
    requires d > 0 && x <= y
    ensures x / d <= y / d
  {
    var qx, qy := x / d, y / d;
    if qx > qy {
      MulMonotone(qy + 1, qx, d);
    }
  }

  /** Bytes a sent packet occupies on the wire, as txSchedBytes counts them. */
  function SchedBytes(p: Packet): nat
  {
    PktLen(p) + ETHER_PHY_FRAME_OVERHEAD + TELEMETRY_DATA_LEN
  }

  /** Hand a dequeued packet to the tx ring; a full ring drops it. */
  function Transmit(w: Shaper, pkt: Packet, ebs: bool): (r: Shaper)
    ensures r == w.(txRing := r.txRing, stats := r.stats)
    ensures Packets(r) == Packets(w) + 1
  {
    var s := w.stats;
    if |w.txRing| < RING_CAPACITY then
      var s1 := s.(txPktsTotal := s.txPktsTotal + 1, txPkts := s.txPkts + 1, txBytes := s.txBytes + PktLen(pkt),
                   txSchedBytes := s.txSchedBytes + SchedBytes(pkt));
      w.(txRing := w.txRing + [pkt],
         stats := if ebs then s1.(txEBSPkts := s1.txEBSPkts + 1) else s1.(txGBSPkts := s1.txGBSPkts + 1))
    else
      w.(stats := s.(txRingDrops := s.txRingDrops + 1))
  }

  /** Remove the head of GBS ring qid. */
  function PopGbs(w: Shaper, qid: nat): (r: Shaper)
    requires qid < |w.gbsRings| && |w.gbsRings[qid]| > 0
    ensures r == w.(gbsRings := r.gbsRings) && |r.gbsRings| == |w.gbsRings|
    ensures Packets(r) + 1 == Packets(w)
  {
    SumLensUpdate(w.gbsRings, qid, w.gbsRings[qid][1..]);
    w.(gbsRings := w.gbsRings[qid := w.gbsRings[qid][1..]])
  }

  /** Debits for a GBS packet: bundle and path by wire time, latency-dominated queue by one slot. */
  function DebitAll(w: Shaper, p: Params, l: LoopLocals, bid: nat, path: nat, qid: nat, lat: bool, txtime: nat): (r: Shaper)
    requires ValidParams(p) && ValidShaper(w, l)
    requires bid < NUM_GBSQUEUES_MAX && path < NUM_GBSQUEUES_MAX && qid < NUM_GBSQUEUES_MAX
    ensures ValidShaper(r, l) && r == w.(gbsPath := r.gbsPath, gbsBundle := r.gbsBundle, gbsQueue := r.gbsQueue)
  {
    var g := w.confId;
    var w1 := w.(gbsBundle := w.gbsBundle[g := w.gbsBundle[g][bid := DebitTxTime(w.gbsBundle[g][bid], p.timeslotsPerSeq, txtime)]]);
    var w2 := if path > 0 then
                w1.(gbsPath := w1.gbsPath[g := w1.gbsPath[g][path := DebitTxTime(w1.gbsPath[g][path], p.timeslotsPerSeq, txtime)]])
              else w1;
    if lat then
      var q := w2.gbsQueue[g][qid];
      w2.(gbsQueue := w2.gbsQueue[g := w2.gbsQueue[g][qid := q.(queueCredit := DebitTimeslot(q.queueCredit, p.timeslotsPerSeq, p.timeslotTsc))]])
    else w2
  }

  /** The outcome of visiting one member: the new state and whether a packet was dequeued. */
  datatype Visit = Visit(w: Shaper, dequeued: bool)

  /** Dequeue the head of GBS ring qid, debit the credits and hand the packet to the tx ring. */
  function ServeMember(w: Shaper, p: Params, l: LoopLocals, bid: nat, path: nat, qid: nat, lat: bool): (r: Shaper)
    requires ValidParams(p) && ValidShaper(w, l)
    requires bid < NUM_GBSQUEUES_MAX && path < NUM_GBSQUEUES_MAX && qid < NUM_GBSQUEUES_MAX && |w.gbsRings[qid]| > 0
    ensures ValidShaper(r, l) && Packets(r) == Packets(w)
    ensures r.confId == w.confId && r.timeslotIdx == w.timeslotIdx && r.newConfig == w.newConfig
    ensures r.ebsRings == w.ebsRings && r.cursors == w.cursors
  {
    var pkt := w.gbsRings[qid][0];
    var w1 := PopGbs(w, qid);
    var w2 := DebitAll(w1, p, l, bid, path, qid, lat, TxTimeTsc(PktLen(pkt), p.linkSpeedBpMTsc));
    Transmit(w2, pkt, false)
  }

  /** getNextQueueToServed on the state: the bundle's cursor moves to the next position. */
  function AdvanceCursor(w: Shaper, l: LoopLocals, bc: BundleConf): (r: Shaper)
    requires ValidShaper(w, l) && ValidBundle(bc)
    ensures ValidShaper(r, l) && r == w.(cursors := r.cursors)
    ensures r.cursors == w.cursors[bc.bid := NextIndex(w.cursors[bc.bid], bc.numQueues)]
  {
    w.(cursors := w.cursors[bc.bid := NextIndex(w.cursors[bc.bid], bc.numQueues)])
  }

  /** The queue id the scan visits next: the member at the bundle's next cursor position. */
  function NextMember(w: Shaper, l: LoopLocals, bc: BundleConf): (qid: nat)
    requires ValidShaper(w, l) && ValidBundle(bc)
    ensures qid < NUM_GBSQUEUES_MAX
  {
    bc.queues[NextIndex(w.cursors[bc.bid], bc.numQueues)]
  }

  /** After the cursor moved to qid: refill a latency-dominated queue, gate it, then serve it or not. */
  function VisitMember(w: Shaper, p: Params, l: LoopLocals, bid: nat, bc: BundleConf, qid: nat, now: U64): (v: Visit)
    requires ValidParams(p) && ValidShaper(w, l)
    requires bid < NUM_GBSQUEUES_MAX && ValidBundle(bc) && qid < NUM_GBSQUEUES_MAX
    ensures ValidShaper(v.w, l)
    ensures v.w.confId == w.confId && v.w.timeslotIdx == w.timeslotIdx
    ensures v.w.newConfig == w.newConfig && v.w.ebsRings == w.ebsRings
    ensures Packets(v.w) == Packets(w) && v.w.cursors == w.cursors
  {
    var g := w.confId;
    var lat := p.streamCfg[g][qid].dominance == StreamTypeLatDominate;
    var w2 := if lat then RefillQueue(w, p, l, g, qid, bc.numTimeslots, now) else w;
    if lat && w2.gbsQueue[g][qid].queueCredit.value < 0 then Visit(w2, false)
    else if |w2.gbsRings[qid]| == 0 then Visit(w2, false)
    else Visit(ServeMember(w2, p, l, bid, bc.pathId, qid, lat), true)
  }

  /** One pass of the scan loop body: advance the cursor, gate, dequeue, debit, transmit. */
  function ScanStep(w: Shaper, p: Params, l: LoopLocals, now: U64): (v: Visit)
    requires ValidParams(p) && ValidShaper(w, l)
    ensures ValidShaper(v.w, l)
    ensures v.w.confId == w.confId && v.w.timeslotIdx == w.timeslotIdx
    ensures v.w.newConfig == w.newConfig && v.w.ebsRings == w.ebsRings
    ensures Packets(v.w) == Packets(w)
    ensures v.w.cursors == AdvanceCursor(w, l, SlotBundleConf(w, p, l)).cursors
  {
    var bc := SlotBundleConf(w, p, l);
    VisitMember(AdvanceCursor(w, l, bc), p, l, SlotBundle(w, p, l), bc, NextMember(w, l, bc), now)
  }

  /** The first k passes of the scan loop, as a left fold; `dequeued` is pktType == GBS. */
  function ScanN(w: Shaper, p: Params, l: LoopLocals, now: U64, k: nat): (v: Visit)
    requires ValidParams(p) && ValidShaper(w, l)
    ensures ValidShaper(v.w, l)
    ensures v.w.confId == w.confId && v.w.timeslotIdx == w.timeslotIdx
    ensures v.w.newConfig == w.newConfig && v.w.ebsRings == w.ebsRings
    ensures Packets(v.w) == Packets(w)
    decreases k
  {
    if k == 0 then Visit(w, false)
    else
      var prev := ScanN(w, p, l, now, k - 1);
      var last := ScanStep(prev.w, p, l, now);
      Visit(last.w, prev.dequeued || last.dequeued)
  }

  /** The scan visits each of the bundle's numQueues positions once. */
  function Scan(w: Shaper, p: Params, l: LoopLocals, now: U64): (v: Visit)
    requires ValidParams(p) && ValidShaper(w, l)
    ensures ValidShaper(v.w, l)
  {
    ScanN(w, p, l, now, SlotBundleConf(w, p, l).numQueues)
  }

  // ---------------------------------------------------------------------
  // Phase 4: EBS fallback (tmSched.c:1325-1471)
  // ---------------------------------------------------------------------

  /** The highest class below k whose ring is non-empty, or -1. */
  function TopNonEmpty(rings: seq<seq<Packet>>, k: nat): (c: int)
    requires k <= |rings|
    ensures -1 <= c < k
    ensures c >= 0 ==> |rings[c]| > 0
    ensures forall j :: c < j < k ==> |rings[j]| == 0
  {
    if k == 0 then -1
    else if |rings[k - 1]| > 0 then k - 1
    else TopNonEmpty(rings, k - 1)
  }

  /** Serve at most one EBS packet, from the highest non-empty class. */
  function Ebs(w: Shaper, l: LoopLocals): (r: Shaper)
    requires ValidShaper(w, l)
    ensures ValidShaper(r, l)
    ensures r.timeslotIdx == w.timeslotIdx && r.gbsRings == w.gbsRings
    ensures Packets(r) == Packets(w)
  {
    var c := TopNonEmpty(w.ebsRings, TM_NUM_CLASSES);
    if c < 0 then w
    else
      SumLensUpdate(w.ebsRings, c, w.ebsRings[c][1..]);
      Transmit(w.(ebsRings := w.ebsRings[c := w.ebsRings[c][1..]]), w.ebsRings[c][0], true)
  }

  // ---------------------------------------------------------------------
  // Phase 5: configuration flip (tmSched.c:1482-1487)
  // ---------------------------------------------------------------------

  function Flip(w: Shaper): Shaper
  {
    if w.newConfig then w.(confId := if w.confId == 0 then 1 else 0, newConfig := false) else w
  }

  // ---------------------------------------------------------------------
  // The whole iteration
  // ---------------------------------------------------------------------

  /** The state before the scan: slot computed and (possibly) relinquished. */
  function Selected(w: Shaper, p: Params, l: LoopLocals, now: U64): (r: Shaper)
    requires ValidParams(p) && ValidShaper(w, l)
    ensures ValidShaper(r, l)
    ensures r.gbsRings == w.gbsRings && r.ebsRings == w.ebsRings && r.txRing == w.txRing
    ensures r.stats.txRingDrops == w.stats.txRingDrops && r.confId == w.confId && r.newConfig == w.newConfig
  {
    Select(SlotUpdate(w, l, now), p, l, now)
  }

  /** The state after the GBS phase and whether it dequeued a packet. */
  function Served(w: Shaper, p: Params, l: LoopLocals, now: U64): (v: Visit)
    requires ValidParams(p) && ValidShaper(w, l)
    ensures ValidShaper(v.w, l)
    ensures var w2 := Selected(w, p, l, now);
      v.w.timeslotIdx == w2.timeslotIdx && v.w.confId == w2.confId && v.w.newConfig == w2.newConfig &&
      v.w.ebsRings == w2.ebsRings && Packets(v.w) == Packets(w2)
  {
    var w2 := Selected(w, p, l, now);
    if Eligible(w2, p, l) then Scan(w2, p, l, now) else Visit(w2, false)
  }

  function Step(w: Shaper, p: Params, l: LoopLocals, now: U64): (r: Shaper)
    requires ValidParams(p) && ValidShaper(w, l)
    ensures ValidShaper(r, l)
    ensures r.timeslotIdx == Served(w, p, l, now).w.timeslotIdx
  {
    var v := Served(w, p, l, now);
    Flip(if v.dequeued then v.w else Ebs(v.w, l))
  }
}
