/**
 * The DCB_Q dequeue loop (SchedDequeueThreadDCB_Q,
 * DaaS/PoCPhase3/tm10/tmSched.c:898-1489) as an object over SchedConf,
 * SchedState and the round-robin cursor table. Each phase of an iteration
 * is a method proved to compute its SchedSpec function, and Step is proved
 * to compute SchedSpec.Step.
 */
module Sched {
  import opened TmDefs
  import opened Credit
  import opened Bundle
  import opened SchedSpec
  import opened SchedData

  class DequeueThread {
    const sc: SchedConf
    const ss: SchedState
    const rr: RoundRobin
    /** timeslotTsc, timeslotsPerSeq and overrideths, read once before the loop. */
    const locals: LoopLocals

    /** The state an iteration reads and writes. */
    ghost function W(): Shaper
      reads this, sc`confId, sc`newConfig, ss, rr, rr.lastQueueServed
    {
      Shaper(sc.confId, sc.newConfig, ss.timeslotsTotal, ss.schedSeqTotal, ss.schedSeqTotalPrev,
             ss.timeslotIdx, ss.timeslotIdxPrev, ss.gbsPath, ss.gbsBundle, ss.gbsQueue,
             rr.lastQueueServed[..], ss.gbsRings, ss.ebsRings, ss.txRing, ss.stats)
    }

    /** The configuration an iteration only reads. */
    ghost function P(): Params
      reads this, sc`timeslotTsc, sc`timeslotsPerSeq, sc`linkSpeedBpMTsc, sc`pss, sc`pathConf, sc`bundleConf, sc`streamCfg
    {
      Params(sc.timeslotTsc, sc.timeslotsPerSeq, sc.linkSpeedBpMTsc, sc.pss, sc.pathConf, sc.bundleConf,
             sc.streamCfg)
    }

    /** What no iteration changes: the configuration and the cursor table's size. */
    ghost predicate ConfValid()
      reads this, sc`timeslotTsc, sc`timeslotsPerSeq, sc`linkSpeedBpMTsc, sc`pss, sc`pathConf, sc`bundleConf, sc`streamCfg, rr
    {
      ValidParams(P()) && rr.lastQueueServed.Length == NUM_GBSQUEUES_MAX
    }

    ghost predicate Valid()
      reads this, sc, ss, rr, rr.lastQueueServed
    {
      ConfValid() && ValidShaper(W(), locals)
    }

    /** The loop's prologue: capture the slot length, the sequence length and the override threshold. */
    constructor (sc: SchedConf, ss: SchedState, rr: RoundRobin)
      requires 0 < sc.timeslotTsc < U32_LIMIT && 0 < sc.timeslotsPerSeq <= NUM_TIMESLOTS_MAX
      ensures this.sc == sc && this.ss == ss && this.rr == rr
      ensures locals == CaptureLocals(sc.timeslotTsc, sc.timeslotsPerSeq)
    {
      this.sc := sc;
      this.ss := ss;
      this.rr := rr;
      var tsc := sc.timeslotTsc;
      var tps := sc.timeslotsPerSeq;
      locals := Locals(tsc, tps, ((tsc * tps) % U32_LIMIT) / PATH_OVERRIDE_FACTOR);
    }

    /** Phase 1: the slot of time rtscCurr and the skipped-slot counters (tmSched.c:931-973). */
    method UpdateSlot(rtscCurr: U64)
      requires Valid()
      modifies ss`timeslotsTotal, ss`schedSeqTotal, ss`schedSeqTotalPrev, ss`timeslotIdx, ss`timeslotIdxPrev, ss`stats
      ensures W() == SlotUpdate(old(W()), locals, rtscCurr) && Valid()
    {
      var total: nat := rtscCurr / locals.timeslotTsc;
      ss.timeslotsTotal := total;
      ss.schedSeqTotal := total / locals.timeslotsPerSeq;
      ss.timeslotIdx := total % locals.timeslotsPerSeq;
      if ss.timeslotIdx != ss.timeslotIdxPrev {
        CountNewTimeslot();
      }
    }

    method CountNewTimeslot()
      requires Valid()
      modifies ss`schedSeqTotalPrev, ss`timeslotIdxPrev, ss`stats
      ensures W() == NewTimeslot(old(W()), locals) && Valid()
    {
      var tps := locals.timeslotsPerSeq;
      var s := ss.stats.(timeslots := ss.stats.timeslots + 1);
      var timeslotDiff: nat;
      if ss.timeslotIdx < ss.timeslotIdxPrev {
        timeslotDiff := tps + ss.timeslotIdx - ss.timeslotIdxPrev;
      } else {
        timeslotDiff := ss.timeslotIdx - ss.timeslotIdxPrev;
      }
      if timeslotDiff > 1 {
        s := s.(timeslotsSkipped := s.timeslotsSkipped + 1);
      }
      if timeslotDiff > s.timeslotsSkippedMax {
        s := s.(timeslotsSkippedMax := timeslotDiff);
      }
      ss.timeslotIdxPrev := ss.timeslotIdx;
      if ss.schedSeqTotal != ss.schedSeqTotalPrev {
        s := s.(schedSequences := s.schedSequences + 1);
        ss.schedSeqTotalPrev := ss.schedSeqTotal;
      }
      ss.stats := s;
    }

    /** Move the selection to the next slot and refill the bundle there, then its path (tmSched.c:1036-1068). */
    method AdvanceSlot(rtscCurr: U64)
      requires Valid()
      modifies ss`schedSeqTotalPrev, ss`timeslotIdx, ss`timeslotIdxPrev, ss`stats, ss`gbsPath, ss`gbsBundle
      ensures W() == AdvanceAndRefill(old(W()), P(), locals, rtscCurr) && Valid()
    {
      MoveToNextSlot();
      RefillNextSlot(rtscCurr);
    }

    /** The index step of an advance: one slot on, wrapping into a new sequence. */
    method MoveToNextSlot()
      requires Valid()
      modifies ss`schedSeqTotalPrev, ss`timeslotIdx, ss`timeslotIdxPrev, ss`stats
      ensures W() == Advance(old(W()), locals) && Valid()
    {
      ghost var w0 := W();
      var tps := locals.timeslotsPerSeq;
      ss.timeslotIdxPrev := ss.timeslotIdx;
      ss.timeslotIdx := ss.timeslotIdx + 1;
      ss.stats := ss.stats.(timeslots := ss.stats.timeslots + 1);
      if ss.timeslotIdx >= tps {
        ss.timeslotIdx := ss.timeslotIdx - tps;
        ss.stats := ss.stats.(schedSequences := ss.stats.schedSequences + 1);
        ss.schedSeqTotalPrev := ss.schedSeqTotal;
      }
      assert rr.lastQueueServed[..] == w0.cursors;
    }

    /** The refill step of an advance: the new slot's bundle, then its path. */
    method RefillNextSlot(rtscCurr: U64)
      requires Valid()
      modifies ss`gbsPath, ss`gbsBundle
      ensures W() == RefillAdvanced(old(W()), P(), locals, rtscCurr) && Valid()
    {
      ghost var w0 := W();
      var g := sc.confId;
      var bid := sc.pss[g][ss.timeslotIdx];
      var bc := sc.bundleConf[g][bid];
      var path := bc.pathId;
      if bid > 0 {
        IncreaseBundleCredit(sc, ss, g, bid, bc.numTimeslots, rtscCurr);
        if path > 0 {
          IncreasePathCredit(sc, ss, g, path, sc.pathConf[g][path].numTimeslots, rtscCurr);
        }
      }
      assert rr.lastQueueServed[..] == w0.cursors;
    }

    /** A scheduled bundle's path credit is refilled first, then the bundle's (tmSched.c:993-1002). */
    method RefillScheduled(rtscCurr: U64)
      requires Valid()
      modifies ss`gbsPath, ss`gbsBundle
      ensures W() == RefillSlot(old(W()), P(), locals, rtscCurr) && Valid()
    {
      ghost var w0 := W();
      var g := sc.confId;
      var bid := sc.pss[g][ss.timeslotIdx];
      var bc := sc.bundleConf[g][bid];
      if bc.pathId > 0 {
        IncreasePathCredit(sc, ss, g, bc.pathId, sc.pathConf[g][bc.pathId].numTimeslots, rtscCurr);
      }
      IncreaseBundleCredit(sc, ss, g, bid, bc.numTimeslots, rtscCurr);
      assert rr.lastQueueServed[..] == w0.cursors;
    }

    /**
     * Phase 2: refill the scheduled bundle and its path, and relinquish the
     * slot when the bundle cannot use it (tmSched.c:975-1115).
     */
    method SelectSlot(rtscCurr: U64)
      requires Valid()
      modifies ss`schedSeqTotalPrev, ss`timeslotIdx, ss`timeslotIdxPrev, ss`stats, ss`gbsPath, ss`gbsBundle
      ensures W() == Select(old(W()), P(), locals, rtscCurr) && Valid()
    {
      var g := sc.confId;
      var bid := sc.pss[g][ss.timeslotIdx];
      if bid > 0 {
        RefillScheduled(rtscCurr);
        var bc := sc.bundleConf[g][bid];
        var queuesAreEmpty := BundleQueuesAreEmpty(bc, ss.gbsRings);
        var credit := ss.gbsBundle[g][bid].value;
        if credit < 0 || (bc.pathId > 0 && credit < locals.overrideths && ss.gbsPath[g][bc.pathId].value < 0) || queuesAreEmpty {
          AdvanceSlot(rtscCurr);
        }
      } else {
        AdvanceSlot(rtscCurr);
      }
    }

    /** Hand a dequeued packet to the tx ring, or count it as a tx-ring drop (tmSched.c:1238-1270, :1408-1448). */
    method TxEnqueue(mbuf: Packet, ebs: bool)
      modifies ss`txRing, ss`stats
      ensures ss.txRing == Transmit(old(W()), mbuf, ebs).txRing && ss.stats == Transmit(old(W()), mbuf, ebs).stats
    {
      if |ss.txRing| < RING_CAPACITY {
        ss.txRing := ss.txRing + [mbuf];
        var sps := ss.stats.(txPktsTotal := ss.stats.txPktsTotal + 1, txPkts := ss.stats.txPkts + 1,
                             txBytes := ss.stats.txBytes + PktLen(mbuf),
                             txSchedBytes := ss.stats.txSchedBytes + PktLen(mbuf) + ETHER_PHY_FRAME_OVERHEAD + TELEMETRY_DATA_LEN);
        if ebs {
          sps := sps.(txEBSPkts := sps.txEBSPkts + 1);
        } else {
          sps := sps.(txGBSPkts := sps.txGBSPkts + 1);
        }
        ss.stats := sps;
      } else {
        ss.stats := ss.stats.(txRingDrops := ss.stats.txRingDrops + 1);
      }
    }

    /** The three debits of a dequeued GBS packet (tmSched.c:1167-1191). */
    method DebitCredits(bid: nat, path: nat, qid: nat, lat: bool, txtimeTsc: nat)
      requires Valid() && bid < NUM_GBSQUEUES_MAX && path < NUM_GBSQUEUES_MAX && qid < NUM_GBSQUEUES_MAX
      modifies ss`gbsQueue, ss`gbsBundle, ss`gbsPath
      ensures W() == DebitAll(old(W()), P(), locals, bid, path, qid, lat, txtimeTsc) && Valid()
    {
      ghost var w0 := W();
      var g := sc.confId;
      DecreaseBundleCredit(sc, ss, g, bid, txtimeTsc);
      if path > 0 {
        DecreasePathCredit(sc, ss, g, path, txtimeTsc);
      }
      if lat {
        DecreaseQueueCredit(sc, ss, g, qid);
      }
      assert rr.lastQueueServed[..] == w0.cursors;
    }

    /** Dequeue the head of GBS ring qid, debit the credits by its wire time and transmit it (tmSched.c:1152-1270). */
    method ServeQueue(bid: nat, path: nat, qid: nat, lat: bool)
      requires Valid() && bid < NUM_GBSQUEUES_MAX && path < NUM_GBSQUEUES_MAX && qid < NUM_GBSQUEUES_MAX
      requires |ss.gbsRings[qid]| > 0
      modifies ss`gbsQueue, ss`gbsRings, ss`gbsBundle, ss`gbsPath, ss`txRing, ss`stats
      ensures W() == ServeMember(old(W()), P(), locals, bid, path, qid, lat) && Valid()
    {
      ghost var w0 := W();
      var mbuf := ss.gbsRings[qid][0];
      ss.gbsRings := ss.gbsRings[qid := ss.gbsRings[qid][1..]];
      assert rr.lastQueueServed[..] == w0.cursors;
      ghost var w1 := W();
      assert w1 == PopGbs(w0, qid);
      DebitCredits(bid, path, qid, lat, TxTimeTsc(PktLen(mbuf), sc.linkSpeedBpMTsc));
      ghost var w2 := W();
      TxEnqueue(mbuf, false);
      assert rr.lastQueueServed[..] == w2.cursors;
    }

    /** Refill a latency-dominated member, then serve it when its credit and ring allow (tmSched.c:1136-1302). */
    method VisitQueue(bid: nat, bc: BundleConf, qid: nat, rtscCurr: U64) returns (dequeued: bool)
      requires Valid() && bid < NUM_GBSQUEUES_MAX && ValidBundle(bc) && qid < NUM_GBSQUEUES_MAX
      modifies ss`gbsQueue, ss`gbsRings, ss`gbsBundle, ss`gbsPath, ss`txRing, ss`stats
      ensures Visit(W(), dequeued) == VisitMember(old(W()), P(), locals, bid, bc, qid, rtscCurr) && Valid()
    {
      ghost var w0 := W();
      var g := sc.confId;
      var lat := sc.streamCfg[g][qid].dominance == StreamTypeLatDominate;
      if lat {
        IncreaseQueueCredit(sc, ss, g, qid, bc.numTimeslots, rtscCurr);
        assert rr.lastQueueServed[..] == w0.cursors;
        assert W() == RefillQueue(w0, P(), locals, g, qid, bc.numTimeslots, rtscCurr);
      }
      if lat && ss.gbsQueue[g][qid].queueCredit.value < 0 {
        dequeued := false;
      } else if |ss.gbsRings[qid]| == 0 {
        dequeued := false;
      } else {
        ServeQueue(bid, bc.pathId, qid, lat);
        dequeued := true;
      }
    }

    /** One pass of the member scan: move the bundle's cursor, then visit that member (tmSched.c:1134-1303). */
    method ScanMember(rtscCurr: U64) returns (dequeued: bool)
      requires Valid()
      modifies rr.lastQueueServed, ss`gbsQueue, ss`gbsRings, ss`gbsBundle, ss`gbsPath, ss`txRing, ss`stats
      ensures Visit(W(), dequeued) == ScanStep(old(W()), P(), locals, rtscCurr) && Valid()
    {
      ghost var w0 := W();
      var g := sc.confId;
      var bid := sc.pss[g][ss.timeslotIdx];
      var bc := sc.bundleConf[g][bid];
      var gbsQueueId := rr.GetNextQueueToServed(bc);
      assert W() == AdvanceCursor(w0, locals, bc);
      dequeued := VisitQueue(bid, bc, gbsQueueId, rtscCurr);
    }

    /** After i passes of the scan that started in w0 under p0, with `dequeued` the passes' outcome. */
    ghost predicate Scanned(w0: Shaper, p0: Params, rtscCurr: U64, i: nat, dequeued: bool)
      reads this, sc, ss, rr, rr.lastQueueServed
    {
      Valid() && P() == p0 && ValidShaper(w0, locals) && Visit(W(), dequeued) == ScanN(w0, p0, locals, rtscCurr, i)
    }

    /** Pass i + 1 of the member scan, given the outcome of the first i. */
    method ScanNext(ghost w0: Shaper, ghost p0: Params, ghost i: nat, rtscCurr: U64, dequeued: bool) returns (dequeued': bool)
      requires Scanned(w0, p0, rtscCurr, i, dequeued)
      modifies rr.lastQueueServed, ss`gbsQueue, ss`gbsRings, ss`gbsBundle, ss`gbsPath, ss`txRing, ss`stats
      ensures Scanned(w0, p0, rtscCurr, i + 1, dequeued')
    {
      var d := ScanMember(rtscCurr);
      dequeued' := dequeued || d;
    }

    /** Phase 3: visit each member position of the selected bundle once, without stopping early. */
    method ScanBundle(rtscCurr: U64) returns (dequeued: bool)
      requires Valid()
      modifies rr.lastQueueServed, ss`gbsQueue, ss`gbsRings, ss`gbsBundle, ss`gbsPath, ss`txRing, ss`stats
      ensures Visit(W(), dequeued) == Scan(old(W()), P(), locals, rtscCurr) && Valid()
    {
      ghost var w0 := W();
      ghost var p0 := P();
      var bc := sc.bundleConf[sc.confId][sc.pss[sc.confId][ss.timeslotIdx]];
      assert bc == SlotBundleConf(w0, p0, locals);
      dequeued := false;
      var i := 0;
      while i < bc.numQueues
        invariant 0 <= i <= bc.numQueues && Scanned(w0, p0, rtscCurr, i, dequeued)
      {
        dequeued := ScanNext(w0, p0, i, rtscCurr, dequeued);
        i := i + 1;
      }
    }

    /** Phase 4: one packet from the highest-numbered non-empty EBS class (tmSched.c:1325-1471). */
    method ServeEbs()
      requires Valid()
      modifies ss`ebsRings, ss`txRing, ss`stats
      ensures W() == Ebs(old(W()), locals) && Valid()
    {
      ghost var w0 := W();
      var ii: int := TM_NUM_CLASSES - 1;
      var served := false;
      while ii >= 0
        invariant -1 <= ii < TM_NUM_CLASSES && Valid()
        invariant !served ==> W() == w0 && forall j :: ii < j < TM_NUM_CLASSES ==> |w0.ebsRings[j]| == 0
        invariant served ==> ii == -1 && W() == Ebs(w0, locals)
      {
        if |ss.ebsRings[ii]| != 0 {
          TopNonEmptyIs(w0.ebsRings, TM_NUM_CLASSES, ii);
          var mbuf := ss.ebsRings[ii][0];
          ss.ebsRings := ss.ebsRings[ii := ss.ebsRings[ii][1..]];
          TxEnqueue(mbuf, true);
          assert rr.lastQueueServed[..] == w0.cursors;
          served := true;
          ii := 0;
        }
        ii := ii - 1;
      }
      if !served {
        TopNonEmptyNone(w0.ebsRings, TM_NUM_CLASSES);
      }
    }

    /** Phase 5: install a pending configuration (tmSched.c:1482-1487). */
    method FlipConfig()
      requires Valid()
      modifies sc`confId, sc`newConfig
      ensures W() == Flip(old(W())) && Valid()
    {
      if sc.newConfig {
        sc.confId := if sc.confId == 0 then 1 else 0;
        sc.newConfig := false;
      }
      assert rr.lastQueueServed[..] == old(rr.lastQueueServed[..]);
    }

    /** The eligibility test, then the member scan when it passes (tmSched.c:1118-1303). */
    method ServeGbs(rtscCurr: U64) returns (dequeued: bool)
      requires Valid()
      modifies rr.lastQueueServed, ss`gbsQueue, ss`gbsRings, ss`gbsBundle, ss`gbsPath, ss`txRing, ss`stats
      ensures Visit(W(), dequeued) ==
        (if Eligible(old(W()), P(), locals) then Scan(old(W()), P(), locals, rtscCurr) else Visit(old(W()), false))
      ensures Valid()
    {
      var g := sc.confId;
      var bid := sc.pss[g][ss.timeslotIdx];
      var path := sc.bundleConf[g][bid].pathId;
      var credit := ss.gbsBundle[g][bid].value;
      dequeued := false;
      if bid > 0 && credit >= 0 && (path == 0 || ss.gbsPath[g][path].value >= 0 || credit >= locals.overrideths) {
        dequeued := ScanBundle(rtscCurr);
      }
    }

    /** The GBS phase that started in w0 under p0 has ended with outcome `dequeued`. */
    ghost predicate GbsServed(w0: Shaper, p0: Params, rtscCurr: U64, dequeued: bool)
      reads this, sc, ss, rr, rr.lastQueueServed
    {
      Valid() && P() == p0 && ValidShaper(w0, locals) && Visit(W(), dequeued) == Served(w0, p0, locals, rtscCurr)
    }

    /** Phases 1 to 3: the slot update, the relinquish decision and the GBS scan. */
    method ScheduleGbs(rtscCurr: U64) returns (dequeued: bool)
      requires Valid()
      modifies rr.lastQueueServed
      modifies ss`timeslotsTotal, ss`schedSeqTotal, ss`schedSeqTotalPrev, ss`timeslotIdx, ss`timeslotIdxPrev
      modifies ss`gbsPath, ss`gbsBundle, ss`gbsQueue, ss`gbsRings, ss`txRing, ss`stats
      ensures GbsServed(old(W()), P(), rtscCurr, dequeued)
    {
      UpdateSlot(rtscCurr);
      SelectSlot(rtscCurr);
      dequeued := ServeGbs(rtscCurr);
    }

    /** Phases 4 and 5: the EBS fallback when the GBS phase dequeued nothing, then the flip. */
    method FinishStep(ghost w0: Shaper, ghost p0: Params, rtscCurr: U64, dequeued: bool)
      requires GbsServed(w0, p0, rtscCurr, dequeued)
      modifies sc`confId, sc`newConfig, ss`ebsRings, ss`txRing, ss`stats
      ensures W() == SchedSpec.Step(w0, p0, locals, rtscCurr) && P() == p0 && Valid()
    {
      if !dequeued {
        ServeEbs();
      }
      FlipConfig();
    }

    /** One iteration of the DCB_Q loop at TSC reading rtscCurr. */
    method Step(rtscCurr: U64)
      requires Valid()
      modifies sc`confId, sc`newConfig, rr.lastQueueServed
      modifies ss`timeslotsTotal, ss`schedSeqTotal, ss`schedSeqTotalPrev, ss`timeslotIdx, ss`timeslotIdxPrev
      modifies ss`gbsPath, ss`gbsBundle, ss`gbsQueue, ss`gbsRings, ss`ebsRings, ss`txRing, ss`stats
      ensures W() == SchedSpec.Step(old(W()), P(), locals, rtscCurr) && Valid()
    {
      ghost var w0 := W();
      var dequeued := ScheduleGbs(rtscCurr);
      FinishStep(w0, P(), rtscCurr, dequeued);
    }
  }

  /** The highest non-empty class is the one below which the search stops. */
  lemma {:induction false} TopNonEmptyIs(rings: seq<seq<Packet>>, k: nat, c: nat)
    requires c < k <= |rings| && |rings[c]| > 0
    requires forall j :: c < j < k ==> |rings[j]| == 0
    ensures TopNonEmpty(rings, k) == c
    decreases k
  {
    if k - 1 != c {
      TopNonEmptyIs(rings, k - 1, c);
    }
  }

  /** With every class empty nothing is found. */
  lemma TopNonEmptyNone(rings: seq<seq<Packet>>, k: nat)
    requires k <= |rings| && forall j :: 0 <= j < k ==> |rings[j]| == 0
    ensures TopNonEmpty(rings, k) == -1
  {
  }
}
