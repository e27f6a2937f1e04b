/**
 * Properties of one dequeue-loop iteration (DaaS/PoCPhase3/tm10/tmSched.c:915-1488),
 * proved about the value-level statement in SchedSpec.
 */
module SchedProps {
  import opened TmDefs
  import opened Credit
  import opened Bundle
  import opened SchedSpec

  /** No iteration creates or loses a packet: it only moves one between rings or counts it as a drop. */
  lemma StepConservesPackets(w: Shaper, p: Params, l: LoopLocals, now: U64)
    requires ValidParams(p) && ValidShaper(w, l)
    ensures Packets(Step(w, p, l, now)) == Packets(w)
  {
    var w2 := Selected(w, p, l, now);
    assert Packets(w2) == Packets(w);
    var v := Served(w, p, l, now);
    assert Packets(v.w) == Packets(w);
  }

  /** confId changes only at the end of an iteration, only when newConfig is set, and newConfig is then clear. */
  lemma StepFlipsGeneration(w: Shaper, p: Params, l: LoopLocals, now: U64)
    requires ValidParams(p) && ValidShaper(w, l)
    ensures var r := Step(w, p, l, now);
      && r.confId == (if w.newConfig then 1 - w.confId else w.confId)
      && !r.newConfig
  {
    var v := Served(w, p, l, now);
    assert v.w.confId == w.confId && v.w.newConfig == w.newConfig;
  }

  /**
   * The iteration serves the slot of `now` or the one after it, never a
   * later one: the index advances at most once, and always when the slot
   * of `now` is empty (bundle 0).
   */
  lemma StepAdvancesAtMostOnce(w: Shaper, p: Params, l: LoopLocals, now: U64)
    requires ValidParams(p) && ValidShaper(w, l)
    ensures var i := Step(w, p, l, now).timeslotIdx;
      i == SlotIndex(l, now) || i == NextSlot(SlotIndex(l, now), l.timeslotsPerSeq)
    ensures SlotBundle(SlotUpdate(w, l, now), p, l) == 0 ==>
      Step(w, p, l, now).timeslotIdx == NextSlot(SlotIndex(l, now), l.timeslotsPerSeq)
  {
    var w1 := SlotUpdate(w, l, now);
    assert Selected(w, p, l, now) == Select(w1, p, l, now);
  }

  /** A scheduled bundle that did not relinquish its slot is eligible for service. */
  lemma KeptSlotIsEligible(w: Shaper, p: Params, l: LoopLocals)
    requires ValidParams(p) && ValidShaper(w, l)
    requires SlotBundle(w, p, l) > 0 && !Relinquishes(w, p, l)
    ensures Eligible(w, p, l)
  {
  }

  /** An ineligible bundle moves no GBS packet. */
  lemma IneligibleServesNoGbs(w: Shaper, p: Params, l: LoopLocals, now: U64)
    requires ValidParams(p) && ValidShaper(w, l)
    requires !Eligible(Selected(w, p, l, now), p, l)
    ensures Step(w, p, l, now).gbsRings == w.gbsRings
    ensures !Served(w, p, l, now).dequeued
  {
  }

  /**
   * EBS rings are consulted only when the GBS phase dequeued nothing, and then
   * exactly one packet leaves the highest non-empty class, if there is one.
   */
  lemma EbsOnlyWithoutGbs(w: Shaper, p: Params, l: LoopLocals, now: U64)
    requires ValidParams(p) && ValidShaper(w, l)
    ensures var v := Served(w, p, l, now);
      var e := w.ebsRings;
      var c := TopNonEmpty(e, TM_NUM_CLASSES);
      Step(w, p, l, now).ebsRings ==
        if v.dequeued || c < 0 then e else e[c := e[c][1..]]
  {
    var w2 := Selected(w, p, l, now);
    var v := Served(w, p, l, now);
    assert v.w.ebsRings == w.ebsRings;
  }

  /** One pass of the scan dequeues exactly when its member passes the gate and has data. */
  lemma ScanStepServes(w: Shaper, p: Params, l: LoopLocals, now: U64)
    requires ValidParams(p) && ValidShaper(w, l)
    ensures var bc := SlotBundleConf(w, p, l);
      var qid := NextMember(w, l, bc);
      var lat := p.streamCfg[w.confId][qid].dominance == StreamTypeLatDominate;
      var credit := Refill(w.gbsQueue[w.confId][qid].queueCredit, p.timeslotTsc, p.timeslotsPerSeq, bc.numTimeslots, now);
      var v := ScanStep(w, p, l, now);
      && (v.dequeued <==> (!lat || credit.value >= 0) && |w.gbsRings[qid]| > 0)
      && v.w.gbsRings == if v.dequeued then w.gbsRings[qid := w.gbsRings[qid][1..]] else w.gbsRings
  {
  }

  /** The member positions the first k passes of the scan visit, in order. */
  function ScanPositions(w: Shaper, p: Params, l: LoopLocals, now: U64, k: nat): (s: seq<nat>)
    requires ValidParams(p) && ValidShaper(w, l)
    ensures |s| == k
  {
    if k == 0 then [] else ScanPositions(w, p, l, now, k - 1) + [ScanN(w, p, l, now, k).w.cursors[SlotBundleConf(w, p, l).bid]]
  }

  /** The scan's positions are the round-robin services starting from the bundle's cursor. */
  lemma {:induction false} ScanPositionsAreServices(w: Shaper, p: Params, l: LoopLocals, now: U64, k: nat)
    requires ValidParams(p) && ValidShaper(w, l)
    ensures var bc := SlotBundleConf(w, p, l);
      ScanPositions(w, p, l, now, k) == Services(w.cursors[bc.bid], bc.numQueues, k)
  {
    var bc := SlotBundleConf(w, p, l);
    var last := w.cursors[bc.bid];
    if k > 0 {
      ScanPositionsAreServices(w, p, l, now, k - 1);
      ServicesSnoc(last, bc.numQueues, k - 1);
      var prev := ScanN(w, p, l, now, k - 1).w;
      assert SlotBundleConf(prev, p, l) == bc;
      assert prev.cursors[bc.bid] == LastServed(last, ScanPositions(w, p, l, now, k - 1));
      var next := NextIndex(prev.cursors[bc.bid], bc.numQueues);
      assert ScanN(w, p, l, now, k).w.cursors == ScanStep(prev, p, l, now).w.cursors;
      assert ScanPositions(w, p, l, now, k) == ScanPositions(w, p, l, now, k - 1) + [next];
    }
  }

  /**
   * The scan of an eligible bundle with n members advances its cursor exactly
   * n times and visits every member position exactly once.
   */
  lemma ScanVisitsEveryPositionOnce(w: Shaper, p: Params, l: LoopLocals, now: U64)
    requires ValidParams(p) && ValidShaper(w, l)
    requires SlotBundleConf(w, p, l).numQueues > 0
    ensures var n := SlotBundleConf(w, p, l).numQueues;
      var s := ScanPositions(w, p, l, now, n);
      && (forall j :: 0 <= j < n ==> s[j] < n)
      && (forall pos :: 0 <= pos < n ==> pos in s)
      && (forall j1, j2 :: 0 <= j1 < j2 < n ==> s[j1] != s[j2])
  {
    var bc := SlotBundleConf(w, p, l);
    ScanPositionsAreServices(w, p, l, now, bc.numQueues);
    RoundRobinFair(w.cursors[bc.bid], bc.numQueues);
  }
}
