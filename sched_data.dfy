/**
 * The scheduler's configuration and state records as mutable objects
 * (SchedConf and SchedState, DaaS/PoCPhase3/tm10/tmDefs.h:236-276, :377-410),
 * the credit updates of DaaS/PoCPhase3/tm10/tmBundle.c:69-180 as methods on
 * them, and the enqueue path SchedRxEnqueuePkt.
 *
 * Per-generation tables are sequences of two sequences indexed by a
 * generation (confId). A ring is a sequence of packets, its head first.
 */
module SchedData {
  import opened TmDefs
  import opened PktDefs
  import opened Credit
  import opened Classifier
  import opened SchedSpec
  import opened RxSpec

  /**
   * SchedConf, plus the program-wide globals the parser rewrites and the
   * receive path reads (vlanid_table, schedClassifierType and
   * ecn_mark_threshold). These exist once, not once per generation.
   */
  class SchedConf {
    var confId: nat
    var newConfig: bool
    var lastUpdateTime: int
    var schedMode: SchedMode
    var timeslotsPerSeq: U16
    var maxPktSize: U16
    var timeslotTsc: U32
    var linkSpeedBpMTsc: nat
    var queuesNum: U16
    var baseStreamId: U16
    var classifierType: U16
    var ecnThreshold: U32
    var pss: PssTable
    var pathConf: PathTable
    var bundleConf: BundleTable
    var numStreams: int
    var streamsBaseNum: int
    var streamCfg: StreamTable
    /** Global vlanid_table[4096]. */
    var vlanTable: VlanTable
    /** Global schedClassifierType, read by the classifier. */
    var schedClassifierType: nat
    /** Global ecn_mark_threshold, read by maybe_mark_ecn. */
    var ecnMarkThreshold: nat

    /** A SchedConf as static storage leaves it: all zero. */
    constructor ()
      ensures confId == 0 && !newConfig
      ensures pss == seq(NUM_GENERATIONS, _ => seq(NUM_TIMESLOTS_MAX, _ => 0))
      ensures bundleConf == seq(NUM_GENERATIONS, _ => seq(NUM_GBSQUEUES_MAX, _ => ZERO_BUNDLE))
      ensures pathConf == seq(NUM_GENERATIONS, _ => seq(NUM_GBSQUEUES_MAX, _ => ZERO_PATH))
      ensures vlanTable == seq(VLAN_TABLE_SIZE, _ => ZERO_VLAN_ENTRY)
      ensures queuesNum == 0 && timeslotsPerSeq == 0 && numStreams == 0 && streamsBaseNum == 0
    {
      confId := 0;
      newConfig := false;
      lastUpdateTime := 0;
      schedMode := SchedModeUnknown;
      timeslotsPerSeq := 0;
      maxPktSize := 0;
      timeslotTsc := 0;
      linkSpeedBpMTsc := 0;
      queuesNum := 0;
      baseStreamId := 0;
      classifierType := 0;
      ecnThreshold := 0;
      pss := seq(NUM_GENERATIONS, _ => seq(NUM_TIMESLOTS_MAX, _ => 0));
      pathConf := seq(NUM_GENERATIONS, _ => seq(NUM_GBSQUEUES_MAX, _ => ZERO_PATH));
      bundleConf := seq(NUM_GENERATIONS, _ => seq(NUM_GBSQUEUES_MAX, _ => ZERO_BUNDLE));
      numStreams := 0;
      streamsBaseNum := 0;
      streamCfg := seq(NUM_GENERATIONS, _ => seq(NUM_STREAMS_MAX + 1, _ => ZERO_STREAM));
      vlanTable := seq(VLAN_TABLE_SIZE, _ => ZERO_VLAN_ENTRY);
      schedClassifierType := 0;
      ecnMarkThreshold := 0;
    }
  }

  /**
   * SchedState: the loop's slot bookkeeping, the per-generation credit
   * records, the rings and the counters. gbsRings[q] is the ring of
   * gbsQueue[0][q]; ebsRings[c] the ring of ebsQueue[c].
   */
  class SchedState {
    var timeslotsTotal: nat
    var schedSeqTotal: nat
    var schedSeqTotalPrev: nat
    var timeslotIdx: nat
    var timeslotIdxPrev: nat
    var gbsPath: CreditTable
    var gbsBundle: CreditTable
    var gbsQueue: QueueTable
    var gbsRings: GbsRings
    var ebsRings: EbsRings
    var txRing: seq<Packet>
    var stats: Counters
    var enqStats: EnqStats

    /** What the enqueue thread reads and writes. */
    ghost function RxV(): RxView
      reads this
    {
      RxView(gbsRings, ebsRings, enqStats)
    }

    /** A SchedState as static storage leaves it, with its rings created empty (CreateFifoRings). */
    constructor ()
      ensures fresh(this)
      ensures timeslotIdx == 0 && timeslotIdxPrev == 0 && schedSeqTotalPrev == 0
      ensures gbsPath == seq(NUM_GENERATIONS, _ => seq(NUM_GBSQUEUES_MAX, _ => ZERO_CREDIT))
      ensures gbsBundle == gbsPath
      ensures gbsQueue == seq(NUM_GENERATIONS, _ => seq(NUM_GBSQUEUES_MAX, _ => ZERO_QUEUE))
      ensures gbsRings == seq(TM_NUM_RX_RINGS, _ => []) && ebsRings == seq(TM_NUM_CLASSES, _ => []) && txRing == []
      ensures stats == ZERO_COUNTERS && enqStats == ZERO_ENQ_STATS
    {
      timeslotsTotal := 0;
      schedSeqTotal := 0;
      schedSeqTotalPrev := 0;
      timeslotIdx := 0;
      timeslotIdxPrev := 0;
      gbsPath := seq(NUM_GENERATIONS, _ => seq(NUM_GBSQUEUES_MAX, _ => ZERO_CREDIT));
      gbsBundle := seq(NUM_GENERATIONS, _ => seq(NUM_GBSQUEUES_MAX, _ => ZERO_CREDIT));
      gbsQueue := seq(NUM_GENERATIONS, _ => seq(NUM_GBSQUEUES_MAX, _ => ZERO_QUEUE));
      gbsRings := seq(TM_NUM_RX_RINGS, _ => []);
      ebsRings := seq(TM_NUM_CLASSES, _ => []);
      txRing := [];
      stats := ZERO_COUNTERS;
      enqStats := ZERO_ENQ_STATS;
    }
  }

  // ---------------------------------------------------------------------
  // Credit engine (DaaS/PoCPhase3/tm10/tmBundle.c:69-180)
  // ---------------------------------------------------------------------

  /** The body shared by the three increase*Credit functions, step by step as the C code runs it. */
  method IncreaseCredit(c: CreditState, timeslotTsc: nat, timeslotsPerSeq: nat, numTimeslots: int, rtscCurr: nat)
    returns (r: CreditState)
    requires ValidCredit(c) && IsU64(rtscCurr) && IsU32(timeslotTsc) && IsU16(timeslotsPerSeq)
    ensures r == Refill(c, timeslotTsc, timeslotsPerSeq, numTimeslots, rtscCurr)
  {
    var creditths := timeslotTsc * timeslotsPerSeq;
    var gbsCredit := Wrap64(Wrap64((rtscCurr - c.lastRtsc) % U64_LIMIT) * numTimeslots);
    if gbsCredit >= INT64_CEILING {
      gbsCredit := INT64_CEILING;
    }
    var value := c.value;
    if gbsCredit > 2 * creditths || gbsCredit < 0 {
      value := creditths;
    } else {
      value := Wrap64(value + gbsCredit);
      if value > creditths {
        value := creditths;
      }
    }
    r := CreditState(value, rtscCurr);
  }

  /** The preconditions the credit methods share: the entry exists and the time bases fit their C types. */
  ghost predicate CreditArgs(sc: SchedConf, t: seq<seq<CreditState>>, g: nat, i: nat, now: nat)
    reads sc
  {
    IsU32(sc.timeslotTsc) && IsU16(sc.timeslotsPerSeq) && IsU64(now) &&
    g < |t| && i < |t[g]| && ValidCredit(t[g][i])
  }

  /** increasePathCredit: only the path's own credit record changes. */
  method IncreasePathCredit(sc: SchedConf, ss: SchedState, g: nat, path: nat, numTimeslots: int, rtscCurr: nat)
    requires CreditArgs(sc, ss.gbsPath, g, path, rtscCurr)
    modifies ss`gbsPath
    ensures ss.gbsPath == old(ss.gbsPath[g := ss.gbsPath[g][path :=
      Refill(ss.gbsPath[g][path], sc.timeslotTsc, sc.timeslotsPerSeq, numTimeslots, rtscCurr)]])
  {
    var c := IncreaseCredit(ss.gbsPath[g][path], sc.timeslotTsc, sc.timeslotsPerSeq, numTimeslots, rtscCurr);
    ss.gbsPath := ss.gbsPath[g := ss.gbsPath[g][path := c]];
  }

  /** increaseBundleCredit: only the bundle's own credit record changes. */
  method IncreaseBundleCredit(sc: SchedConf, ss: SchedState, g: nat, bid: nat, numTimeslots: int, rtscCurr: nat)
    requires CreditArgs(sc, ss.gbsBundle, g, bid, rtscCurr)
    modifies ss`gbsBundle
    ensures ss.gbsBundle == old(ss.gbsBundle[g := ss.gbsBundle[g][bid :=
      Refill(ss.gbsBundle[g][bid], sc.timeslotTsc, sc.timeslotsPerSeq, numTimeslots, rtscCurr)]])
  {
    var c := IncreaseCredit(ss.gbsBundle[g][bid], sc.timeslotTsc, sc.timeslotsPerSeq, numTimeslots, rtscCurr);
    ss.gbsBundle := ss.gbsBundle[g := ss.gbsBundle[g][bid := c]];
  }

  /** increaseQueueCredit: only the queue's credit changes; its type and id are kept. */
  method IncreaseQueueCredit(sc: SchedConf, ss: SchedState, g: nat, qid: nat, numTimeslots: int, rtscCurr: nat)
    requires IsU32(sc.timeslotTsc) && IsU16(sc.timeslotsPerSeq) && IsU64(rtscCurr)
    requires g < |ss.gbsQueue| && qid < |ss.gbsQueue[g]| && ValidCredit(ss.gbsQueue[g][qid].queueCredit)
    modifies ss`gbsQueue
    ensures ss.gbsQueue == old(ss.gbsQueue[g := ss.gbsQueue[g][qid := ss.gbsQueue[g][qid].(queueCredit :=
      Refill(ss.gbsQueue[g][qid].queueCredit, sc.timeslotTsc, sc.timeslotsPerSeq, numTimeslots, rtscCurr))]])
  {
    var q := ss.gbsQueue[g][qid];
    var c := IncreaseCredit(q.queueCredit, sc.timeslotTsc, sc.timeslotsPerSeq, numTimeslots, rtscCurr);
    ss.gbsQueue := ss.gbsQueue[g := ss.gbsQueue[g][qid := q.(queueCredit := c)]];
  }

  /** decreasePathCredit: subtract the packet's wire time once per slot of the sequence. */
  method DecreasePathCredit(sc: SchedConf, ss: SchedState, g: nat, path: nat, txtimeTsc: nat)
    requires g < |ss.gbsPath| && path < |ss.gbsPath[g]| && IsS64(ss.gbsPath[g][path].value)
    modifies ss`gbsPath
    ensures ss.gbsPath == old(ss.gbsPath[g := ss.gbsPath[g][path :=
      DebitTxTime(ss.gbsPath[g][path], sc.timeslotsPerSeq, txtimeTsc)]])
  {
    var c := ss.gbsPath[g][path];
    c := c.(value := Wrap64(c.value - (sc.timeslotsPerSeq * txtimeTsc) % U64_LIMIT));
    ss.gbsPath := ss.gbsPath[g := ss.gbsPath[g][path := c]];
  }

  /** decreaseBundleCredit. */
  method DecreaseBundleCredit(sc: SchedConf, ss: SchedState, g: nat, bid: nat, txtimeTsc: nat)
    requires g < |ss.gbsBundle| && bid < |ss.gbsBundle[g]| && IsS64(ss.gbsBundle[g][bid].value)
    modifies ss`gbsBundle
    ensures ss.gbsBundle == old(ss.gbsBundle[g := ss.gbsBundle[g][bid :=
      DebitTxTime(ss.gbsBundle[g][bid], sc.timeslotsPerSeq, txtimeTsc)]])
  {
    var c := ss.gbsBundle[g][bid];
    c := c.(value := Wrap64(c.value - (sc.timeslotsPerSeq * txtimeTsc) % U64_LIMIT));
    ss.gbsBundle := ss.gbsBundle[g := ss.gbsBundle[g][bid := c]];
  }

  /** decreaseQueueCredit: one slot's worth of credit, whatever the packet's size. */
  method DecreaseQueueCredit(sc: SchedConf, ss: SchedState, g: nat, qid: nat)
    requires g < |ss.gbsQueue| && qid < |ss.gbsQueue[g]| && IsS64(ss.gbsQueue[g][qid].queueCredit.value)
    modifies ss`gbsQueue
    ensures ss.gbsQueue == old(ss.gbsQueue[g := ss.gbsQueue[g][qid := ss.gbsQueue[g][qid].(queueCredit :=
      DebitTimeslot(ss.gbsQueue[g][qid].queueCredit, sc.timeslotsPerSeq, sc.timeslotTsc))]])
  {
    var q := ss.gbsQueue[g][qid];
    var c := q.queueCredit.(value := Wrap64(q.queueCredit.value - (sc.timeslotsPerSeq * sc.timeslotTsc) % U32_LIMIT));
    ss.gbsQueue := ss.gbsQueue[g := ss.gbsQueue[g][qid := q.(queueCredit := c)]];
  }

  // ---------------------------------------------------------------------
  // Enqueue path (DaaS/PoCPhase3/tm10/tmSched.c:54-71, :611-660)
  // ---------------------------------------------------------------------

  /** SchedRxEnqueuePkt followed by maybe_mark_ecn on the ring it entered. */
  method SchedRxEnqueuePkt(sc: SchedConf, ss: SchedState, qid: bv16, mbuf: Packet)
    requires ValidRx(ss.RxV()) && WellFormed(mbuf) && qid <= QID_TOP_EBS
    modifies ss`gbsRings, ss`ebsRings, ss`enqStats
    ensures ss.RxV() == Enqueue(old(ss.RxV()), qid, mbuf, sc.ecnMarkThreshold)
  {
    var gbs := qid < NUM_GBSQUEUES_MAX as bv16;
    if gbs && qid == 0 {
      ss.enqStats := ss.enqStats.(rxRingDrops := ss.enqStats.rxRingDrops + 1);
      return;
    }
    var k := if gbs then qid as nat else (qid - 16) as nat;
    ss.enqStats := ss.enqStats.(rxBytes := ss.enqStats.rxBytes + PktLen(mbuf),
                                rxFrameBytes := ss.enqStats.rxFrameBytes + PktLen(mbuf) + ETHER_PHY_FRAME_OVERHEAD);
    var ring := if gbs then ss.gbsRings[k] else ss.ebsRings[k];
    if |ring| >= RING_CAPACITY {
      ss.enqStats := ss.enqStats.(rxRingDrops := ss.enqStats.rxRingDrops + 1);
      return;
    }
    ring := ring + [MaybeMarkEcn(mbuf, |ring| + 1, sc.ecnMarkThreshold)];
    if gbs {
      ss.gbsRings := ss.gbsRings[k := ring];
    } else {
      ss.ebsRings := ss.ebsRings[k := ring];
    }
  }

  /** One received mbuf: classify (SchedRxClassifyAndUpdatePkt), then enqueue. */
  method ReceivePkt(sc: SchedConf, ss: SchedState, mbuf: Packet) returns (qid: bv16)
    requires ValidRx(ss.RxV()) && WellFormed(mbuf)
    modifies ss`gbsRings, ss`ebsRings, ss`enqStats
    ensures qid == Classify(mbuf.frame, sc.schedClassifierType, sc.vlanTable)
    ensures ss.RxV() == Receive(old(ss.RxV()), mbuf, sc.schedClassifierType, sc.vlanTable, sc.ecnMarkThreshold)
  {
    qid := Classify(mbuf.frame, sc.schedClassifierType, sc.vlanTable);
    SchedRxEnqueuePkt(sc, ss, qid, mbuf);
  }
}
