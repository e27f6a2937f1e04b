/**
 * Receive side of the scheduler, on values: SchedRxEnqueuePkt and
 * maybe_mark_ecn (DaaS/PoCPhase3/tm10/tmSched.c:54-71, :611-660), and a
 * received frame's path through the classifier into a ring.
 */
module RxSpec {
  import opened TmDefs
  import opened PktHdrs
  import opened PktDefs
  import opened Classifier
  import opened SchedSpec

  /** EnqueueThreadStats fields the enqueue path updates. */
  datatype EnqStats = EnqStats(rxBytes: nat, rxFrameBytes: nat, rxRingDrops: nat)

  const ZERO_ENQ_STATS: EnqStats := EnqStats(0, 0, 0)

  /** The rings and enqueue counters: what SchedRxEnqueuePkt reads and writes. */
  datatype RxView = RxView(gbsRings: seq<seq<Packet>>, ebsRings: seq<seq<Packet>>, stats: EnqStats)

  predicate ValidRx(v: RxView)
  {
    |v.gbsRings| == TM_NUM_RX_RINGS && |v.ebsRings| == TM_NUM_CLASSES
  }

  /** Frames long enough for the classifier's and the marker's reads. */
  predicate WellFormed(p: Packet)
  {
    |p.frame| >= CLASSIFIED_FRAME_MIN
  }

  /** Packets queued in the rings plus packets dropped on enqueue. */
  function RxPackets(v: RxView): nat
  {
    SumLens(v.gbsRings) + SumLens(v.ebsRings) + v.stats.rxRingDrops
  }

  /** Offset of the IPv4 type-of-service byte. */
  function TosOffset(frame: seq<bv8>): (i: nat)
    requires |frame| >= CLASSIFIED_FRAME_MIN
    ensures i < |frame|
  {
    Ipv4HdrOffset(IsVlanPkt(frame)) + 1
  }

  /**
   * maybe_mark_ecn: once the ring holds at least `threshold` packets (0
   * disables marking), an ECT(0) or ECT(1) packet is re-marked CE (section 5
   * of RFC 3168). The header checksum is recomputed by a library call and is
   * not modelled.
   */
  function MaybeMarkEcn(p: Packet, count: nat, threshold: nat): (r: Packet)
    requires WellFormed(p)
    ensures |r.frame| == |p.frame|
  {
    if threshold == 0 || count < threshold then p
    else
      var i := TosOffset(p.frame);
      var ecn := p.frame[i] & 0x03;
      if ecn == 0x01 || ecn == 0x02 then Packet(p.frame[i := p.frame[i] | 0x03]) else p
  }

  /**
   * SchedRxEnqueuePkt: queue 0 drops; 1..15 are GBS rings; 16..23 are the EBS
   * classes. Byte counters count every packet routed to a ring, even one the
   * full ring then drops.
   */
  function Enqueue(v: RxView, qid: bv16, p: Packet, threshold: nat): (r: RxView)
    requires ValidRx(v) && WellFormed(p) && qid <= QID_TOP_EBS
    ensures ValidRx(r)
    ensures qid == 0 ==> r == v.(stats := v.stats.(rxRingDrops := v.stats.rxRingDrops + 1))
    ensures qid != 0 ==> r.stats.rxBytes == v.stats.rxBytes + PktLen(p)
    ensures qid != 0 ==> r.stats.rxFrameBytes == v.stats.rxFrameBytes + PktLen(p) + ETHER_PHY_FRAME_OVERHEAD
    ensures 0 < qid < 16 ==> r.ebsRings == v.ebsRings && r.gbsRings == v.gbsRings[qid as int := r.gbsRings[qid as int]]
    ensures qid >= 16 ==> r.gbsRings == v.gbsRings && r.ebsRings == v.ebsRings[(qid - 16) as int := r.ebsRings[(qid - 16) as int]]
  {
    if qid < 16 && qid == 0 then v.(stats := v.stats.(rxRingDrops := v.stats.rxRingDrops + 1))
    else
      var counted := v.stats.(rxBytes := v.stats.rxBytes + PktLen(p),
                              rxFrameBytes := v.stats.rxFrameBytes + PktLen(p) + ETHER_PHY_FRAME_OVERHEAD);
      var gbs := qid < 16;
      var k := if gbs then qid as int else (qid - 16) as int;
      var ring := if gbs then v.gbsRings[k] else v.ebsRings[k];
      if |ring| >= RING_CAPACITY then v.(stats := counted.(rxRingDrops := counted.rxRingDrops + 1))
      else
        var ring' := ring + [MaybeMarkEcn(p, |ring| + 1, threshold)];
        if gbs then v.(gbsRings := v.gbsRings[k := ring'], stats := counted)
        else v.(ebsRings := v.ebsRings[k := ring'], stats := counted)
  }

  /** Every received packet ends up in exactly one ring or in the drop count. */
  lemma EnqueueConserves(v: RxView, qid: bv16, p: Packet, threshold: nat)
    requires ValidRx(v) && WellFormed(p) && qid <= QID_TOP_EBS
    ensures RxPackets(Enqueue(v, qid, p, threshold)) == RxPackets(v) + 1
  {
    if qid != 0 {
      var gbs := qid < 16;
      var k := if gbs then qid as int else (qid - 16) as int;
      var ring := if gbs then v.gbsRings[k] else v.ebsRings[k];
      if |ring| < RING_CAPACITY {
        var ring' := ring + [MaybeMarkEcn(p, |ring| + 1, threshold)];
        if gbs {
          SumLensUpdate(v.gbsRings, k, ring');
        } else {
          SumLensUpdate(v.ebsRings, k, ring');
        }
      }
    }
  }

  /** A routed packet that fits is appended, possibly re-marked, at the tail of its ring. */
  lemma EnqueueAppends(v: RxView, qid: bv16, p: Packet, threshold: nat)
    requires ValidRx(v) && WellFormed(p) && 0 < qid <= QID_TOP_EBS
    ensures var r := Enqueue(v, qid, p, threshold);
      var gbs := qid < 16;
      var k := if gbs then qid as int else (qid - 16) as int;
      var ring := if gbs then v.gbsRings[k] else v.ebsRings[k];
      var ring' := if gbs then r.gbsRings[k] else r.ebsRings[k];
      && (|ring| < RING_CAPACITY ==> ring' == ring + [MaybeMarkEcn(p, |ring| + 1, threshold)] &&
                                     r.stats.rxRingDrops == v.stats.rxRingDrops)
      && (|ring| >= RING_CAPACITY ==> ring' == ring && r.stats.rxRingDrops == v.stats.rxRingDrops + 1)
  {
  }

  /**
   * Marking only ever turns ECT(0) or ECT(1) into CE: the DSCP bits and every
   * other byte are kept, and Not-ECT and CE packets are left alone.
   */
  lemma MarkEcnSetsCe(p: Packet, count: nat, threshold: nat)
    requires WellFormed(p)
    ensures var r := MaybeMarkEcn(p, count, threshold);
      var i := TosOffset(p.frame);
      var ecn := p.frame[i] & 0x03;
      && (forall j :: 0 <= j < |p.frame| && j != i ==> r.frame[j] == p.frame[j])
      && r.frame[i] >> 2 == p.frame[i] >> 2
      && (r.frame[i] & 0x03 == if threshold != 0 && count >= threshold && (ecn == 1 || ecn == 2) then 0x03 else ecn)
  {
  }

  /** A received frame: classify it, then enqueue it (what the enqueue thread does per mbuf). */
  function Receive(v: RxView, p: Packet, classifierType: nat, vlanTable: seq<VlanLookupEntry>, threshold: nat): (r: RxView)
    requires ValidRx(v) && WellFormed(p) && ValidVlanTable(vlanTable) && GbsQidsOnly(vlanTable)
    ensures ValidRx(r) && RxPackets(r) == RxPackets(v) + 1
  {
    var qid := Classify(p.frame, classifierType, vlanTable);
    EnqueueConserves(v, qid, p, threshold);
    Enqueue(v, qid, p, threshold)
  }
}
