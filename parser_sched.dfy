/**
 * The scheduler configuration file parser (DaaS/PoCPhase3/tm10/parserCfgSched.c):
 * the four row handlers, which write one generation of SchedConf in place,
 * and the section driver that feeds them the file's lines.
 *
 * Each handler is a method on SchedConf proved against a function on
 * ScfView, the part of SchedConf (and of the program-wide globals) that the
 * parser reads and writes; the row functions take the tab-separated fields
 * the handler's strtok loop collects, and the lemmas state their properties.
 */
module ParserSched {
  import opened TmDefs
  import opened Classifier
  import opened SchedSpec
  import opened SchedData
  import opened ParserLib

  const TAB: set<char> := {'\t'}

  /** scfSectMap: the section names, in lookup order. */
  const SCF_SECTIONS: seq<string> := ["[CONFIG_DESCRIPTION]", "[CONFIG_TOPLVL]", "[GBS_TIMESLOT_QUEUE_MAP]",
                                      "[GBS_SCHEDULING_RATE]", "[GBS_BUNDLE_MAPPING]"]
  const SECT_DESCRIPTION: nat := 0
  const SECT_TOPLVL: nat := 1
  const SECT_PSS: nat := 2
  const SECT_RATE: nat := 3

  const TL_TOKENS: nat := 7
  const TSQ_TOKENS: nat := 2
  const SR_TOKENS: nat := 3
  const BM_TOKENS: nat := 2
  const BM_TOKENS_SRCMAC: nat := 4
  const VLAN_ID_MAX: int := 4095

  /** A configuration generation (confId). */
  type Gen = g: nat | g < NUM_GENERATIONS

  /** The VLAN table as the top-level row clears it. */
  function ZeroVlanTable(): (t: VlanTable)
    ensures forall i :: 0 <= i < |t| ==> t[i] == ZERO_VLAN_ENTRY
  {
    seq(VLAN_TABLE_SIZE, _ => ZERO_VLAN_ENTRY)
  }

  /** What the parser reads and writes of SchedConf and of the globals. */
  datatype ScfView = ScfView(
    schedMode: SchedMode,
    queuesNum: U16,
    timeslotsPerSeq: U16,
    maxPktSize: U16,
    baseStreamId: U16,
    classifierType: U16,
    ecnThreshold: U32,
    pss: PssTable,
    pathConf: PathTable,
    bundleConf: BundleTable,
    vlanTable: VlanTable,
    schedClassifierType: nat,
    ecnMarkThreshold: nat)

  ghost function ScfOf(sc: SchedConf): ScfView
    reads sc
  {
    ScfView(sc.schedMode, sc.queuesNum, sc.timeslotsPerSeq, sc.maxPktSize, sc.baseStreamId, sc.classifierType,
            sc.ecnThreshold, sc.pss, sc.pathConf, sc.bundleConf, sc.vlanTable, sc.schedClassifierType,
            sc.ecnMarkThreshold)
  }

  /** A handler's return value, and the configuration it leaves when it returns at all. */
  ghost predicate Handled(sc: SchedConf, st: RowStep<ScfView>, res: RowResult)
    reads sc
  {
    res == st.res && (res == RowOk || res == RowFailed ==> ScfOf(sc) == st.v)
  }

  // ---------------------------------------------------------------------
  // Table updates
  // ---------------------------------------------------------------------

  function SetPss(t: PssTable, g: Gen, slot: nat, bid: nat): (r: PssTable)
    requires slot < NUM_TIMESLOTS_MAX && bid < NUM_GBSQUEUES_MAX
    ensures |r| == |t| && r[g] == t[g][slot := bid] && r[1 - g] == t[1 - g]
  {
    var row: seq<nat> := t[g][slot := bid];
    t[g := row]
  }

  function SetBundle(t: BundleTable, g: Gen, b: nat, bc: BundleConf): (r: BundleTable)
    requires b < NUM_GBSQUEUES_MAX && ValidBundle(bc)
    ensures r == t[g := t[g][b := bc]]
  {
    t[g := t[g][b := bc]]
  }

  /** A second store into the same bundle record replaces the first. */
  lemma SetBundleTwice(t: BundleTable, g: Gen, b: nat, bc: BundleConf, bc': BundleConf)
    requires b < NUM_GBSQUEUES_MAX && ValidBundle(bc) && ValidBundle(bc')
    ensures SetBundle(SetBundle(t, g, b, bc), g, b, bc') == SetBundle(t, g, b, bc')
  {
    assert SetBundle(t, g, b, bc)[g][b := bc'] == t[g][b := bc'];
  }

  function SetVlan(t: VlanTable, vlanId: nat, e: VlanLookupEntry): (r: VlanTable)
    requires vlanId < VLAN_TABLE_SIZE && |e.macaddr1| == MAC_ADDR_LEN && |e.macaddr2| == MAC_ADDR_LEN
    requires e.qid1 < 16 && e.qid2 < 16
    ensures r == t[vlanId := e]
  {
    t[vlanId := e]
  }

  function SetPath(t: PathTable, g: Gen, path: nat, pc: PathConf): (r: PathTable)
    requires path < NUM_GBSQUEUES_MAX
    ensures r == t[g := t[g][path := pc]]
  {
    t[g := t[g][path := pc]]
  }

  // ---------------------------------------------------------------------
  // [CONFIG_TOPLVL] (DaaS/PoCPhase3/tm10/parserCfgSched.c:31-84)
  // ---------------------------------------------------------------------

  /** The scheduling algorithm a mode name selects. */
  function SchedModeOf(name: string): Option<SchedMode>
  {
    if name == "DCB_Q" then Some(SchedModeDcbQ)
    else if name == "RR" then Some(SchedModeSrr)
    else if name == "L2FWD" then Some(SchedModeL2fwd)
    else None
  }

  /**
   * The configuration a complete top-level row sets: five 16-bit fields,
   * the 32-bit ECN threshold, the classifier type (also stored in the
   * global the receive path reads), the global ECN mark threshold (the
   * floating-point conversion of the same field) and a cleared VLAN table.
   */
  function TopLvlFields(v: ScfView, mode: SchedMode, ts: seq<string>, conv: Conv): (r: ScfView)
    requires |ts| >= TL_TOKENS
    ensures r.vlanTable == ZeroVlanTable() && r.schedClassifierType == r.classifierType
    ensures r.pss == v.pss && r.bundleConf == v.bundleConf && r.pathConf == v.pathConf
  {
    ScfView(mode, ToU16(conv.atoi(ts[1])), ToU16(conv.atoi(ts[2])), ToU16(conv.atoi(ts[3])),
            ToU16(conv.atoi(ts[4])), ToU16(conv.atoi(ts[5])), ToU32(conv.atoi(ts[6])),
            v.pss, v.pathConf, v.bundleConf, ZeroVlanTable(), ToU16(conv.atoi(ts[5])), conv.ecnMarkPkts(ts[6]))
  }

  /**
   * The top-level row, given the at most seven fields parser_opt_str_vals
   * stores: fewer than seven fail, an unknown mode exits.
   */
  function TopLvlRow(v: ScfView, ts: seq<string>, conv: Conv): (r: RowStep<ScfView>)
    ensures r.res == RowFailed <==> |ts| != TL_TOKENS
    ensures r.res == RowFailed ==> r.v == v
    ensures r.res == RowExit <==> |ts| == TL_TOKENS && SchedModeOf(ts[0]).None?
    ensures r.res != RowUndefined
    ensures r.res == RowOk ==>
      r.v.vlanTable == ZeroVlanTable() && r.v.schedClassifierType == r.v.classifierType &&
      r.v.pss == v.pss && r.v.bundleConf == v.bundleConf && r.v.pathConf == v.pathConf
  {
    if |ts| != TL_TOKENS then RowStep(RowFailed, v)
    else match SchedModeOf(ts[0])
      case None => RowStep(RowExit, v)
      case Some(mode) => RowStep(RowOk, TopLvlFields(v, mode, ts, conv))
  }

  /**
   * A tab-separated row of seven fields, with or without further fields,
   * sets the configuration to the conversions of the seven; the further
   * fields are ignored.
   */
  lemma TopLvlOfRow(v: ScfView, fields: seq<string>, extra: seq<string>, conv: Conv)
    requires |fields| == TL_TOKENS && forall i :: 0 <= i < |fields + extra| ==> Token((fields + extra)[i], TAB)
    requires SchedModeOf(fields[0]).Some?
    ensures var r := TopLvlRow(v, Fields(Join(fields + extra, '\t'), TAB, TL_TOKENS), conv);
      && r.res == RowOk
      && r.v.schedMode == SchedModeOf(fields[0]).value
      && r.v.queuesNum == conv.atoi(fields[1]) % U16_LIMIT
      && r.v.timeslotsPerSeq == conv.atoi(fields[2]) % U16_LIMIT
      && r.v.maxPktSize == conv.atoi(fields[3]) % U16_LIMIT
      && r.v.baseStreamId == conv.atoi(fields[4]) % U16_LIMIT
      && r.v.classifierType == r.v.schedClassifierType == conv.atoi(fields[5]) % U16_LIMIT
      && r.v.ecnThreshold == conv.atoi(fields[6]) % U32_LIMIT
  {
    FieldsOfJoin(fields, extra, TAB, '\t', TL_TOKENS);
  }

  /** The stores of a complete top-level row. */
  method StoreTopLvl(sc: SchedConf, mode: SchedMode, ts: seq<string>, conv: Conv)
    requires |ts| == TL_TOKENS
    modifies sc`schedMode, sc`queuesNum, sc`timeslotsPerSeq, sc`maxPktSize, sc`baseStreamId, sc`classifierType
    modifies sc`schedClassifierType, sc`ecnThreshold, sc`ecnMarkThreshold, sc`vlanTable
    ensures ScfOf(sc) == TopLvlFields(old(ScfOf(sc)), mode, ts, conv)
  {
    sc.schedMode := mode;
    sc.queuesNum := ToU16(conv.atoi(ts[1]));
    sc.timeslotsPerSeq := ToU16(conv.atoi(ts[2]));
    sc.maxPktSize := ToU16(conv.atoi(ts[3]));
    sc.baseStreamId := ToU16(conv.atoi(ts[4]));
    sc.classifierType := ToU16(conv.atoi(ts[5]));
    sc.schedClassifierType := sc.classifierType;
    sc.ecnThreshold := ToU32(conv.atoi(ts[6]));
    sc.ecnMarkThreshold := sc.ecnThreshold;
    sc.ecnMarkThreshold := conv.ecnMarkPkts(ts[6]);
    sc.vlanTable := ZeroVlanTable();
  }

  method TopLvlHandler(sc: SchedConf, text: string, conv: Conv) returns (res: RowResult)
    modifies sc`schedMode, sc`queuesNum, sc`timeslotsPerSeq, sc`maxPktSize, sc`baseStreamId, sc`classifierType
    modifies sc`schedClassifierType, sc`ecnThreshold, sc`ecnMarkThreshold, sc`vlanTable
    ensures Handled(sc, TopLvlRow(old(ScfOf(sc)), Fields(text, TAB, TL_TOKENS), conv), res)
  {
    var ts := SplitFields(text, TAB, TL_TOKENS);
    var n := |ts|;
    if n != TL_TOKENS {
      return RowFailed;
    }
    var mode;
    if ts[0] == "DCB_Q" {
      mode := SchedModeDcbQ;
    } else if ts[0] == "RR" {
      mode := SchedModeSrr;
    } else if ts[0] == "L2FWD" {
      mode := SchedModeL2fwd;
    } else {
      return RowExit;
    }
    StoreTopLvl(sc, mode, ts, conv);
    return RowOk;
  }

  // ---------------------------------------------------------------------
  // [GBS_TIMESLOT_QUEUE_MAP] (DaaS/PoCPhase3/tm10/parserCfgSched.c:86-116)
  // ---------------------------------------------------------------------

  /** What the PSS row decides: read a token that was never stored, reject, or store bid at slot. */
  datatype PssDecision = PssUndefined | PssReject | PssStore(slot: int, bid: U16)

  /**
   * The PSS row's checks as written, on the at most two fields its strtok
   * loop stores: the first field must equal the row's index in its section
   * and the 16-bit bundle id must be below queuesNum. Neither value is
   * checked against the size of the table it indexes.
   */
  function PssDecisionAsWritten(queuesNum: U16, rowId: nat, ts: seq<string>, conv: Conv): (d: PssDecision)
    ensures d.PssUndefined? <==> |ts| == 0 || (conv.atoi(ts[0]) == rowId && |ts| == 1)
    ensures d.PssStore? ==> |ts| == 2 || |ts| > 2
    ensures d.PssStore? ==> d.slot == rowId && d.bid < queuesNum && d.bid == ToU16(conv.atoi(ts[1]))
    ensures d.PssReject? ==> conv.atoi(ts[0]) != rowId || ToU16(conv.atoi(ts[1])) >= queuesNum
  {
    if |ts| < 1 then PssUndefined
    else
      var slot := conv.atoi(ts[0]);
      if slot != rowId then PssReject
      else if |ts| < 2 then PssUndefined
      else
        var bid := ToU16(conv.atoi(ts[1]));
        if bid >= queuesNum then PssReject else PssStore(slot, bid)
  }

  /**
   * queuesNum comes from the top-level row unbounded, and rows are counted
   * without limit: with queuesNum 17 the row "0<TAB>16" is accepted for
   * bundle 16, and row 40000 "40000<TAB>0" for slot 40000, both one past
   * the end of bundleConf and pss.
   */
  lemma PssStoresOutOfBoundsAsWritten(conv: Conv)
    requires conv.atoi("0") == 0 && conv.atoi("16") == 16 && conv.atoi("40000") == 40000
    ensures PssDecisionAsWritten(17, 0, ["0", "16"], conv) == PssStore(0, NUM_GBSQUEUES_MAX)
    ensures PssDecisionAsWritten(1, NUM_TIMESLOTS_MAX, ["40000", "0"], conv) == PssStore(NUM_TIMESLOTS_MAX, 0)
  {
  }

  /**
   * The PSS row with the table bounds it evidently assumes: a store outside
   * the 40000 slots or the 16 bundles is rejected like the other bad rows.
   * An accepted row maps the slot to the bundle, names the bundle and adds
   * one slot to its count, and changes nothing else.
   */
  function PssRow(v: ScfView, g: Gen, rowId: nat, ts: seq<string>, conv: Conv): (r: RowStep<ScfView>)
    ensures r.res != RowOk ==> r.v == v
    ensures r.res == RowUndefined <==> PssDecisionAsWritten(v.queuesNum, rowId, ts, conv).PssUndefined?
    ensures r.res == RowOk <==>
      var d := PssDecisionAsWritten(v.queuesNum, rowId, ts, conv);
      d.PssStore? && d.slot < NUM_TIMESLOTS_MAX && d.bid < NUM_GBSQUEUES_MAX
    ensures r.res == RowOk ==>
      var bid := PssDecisionAsWritten(v.queuesNum, rowId, ts, conv).bid;
      var bc := v.bundleConf[g][bid];
      && r.v.pss[g] == v.pss[g][rowId := bid] && r.v.pss[1 - g] == v.pss[1 - g]
      && r.v.bundleConf == v.bundleConf[g := v.bundleConf[g][bid := bc.(bid := bid, numTimeslots := bc.numTimeslots + 1)]]
      && r.v == v.(pss := r.v.pss, bundleConf := r.v.bundleConf)
  {
    match PssDecisionAsWritten(v.queuesNum, rowId, ts, conv)
    case PssUndefined => RowStep(RowUndefined, v)
    case PssReject => RowStep(RowFailed, v)
    case PssStore(slot, bid) =>
      if slot >= NUM_TIMESLOTS_MAX || bid >= NUM_GBSQUEUES_MAX then RowStep(RowFailed, v)
      else
        var bc := v.bundleConf[g][bid];
        RowStep(RowOk, v.(pss := SetPss(v.pss, g, slot, bid),
                          bundleConf := SetBundle(v.bundleConf, g, bid, bc.(bid := bid, numTimeslots := bc.numTimeslots + 1))))
  }

  /** Where the checks as written stay within the tables, the corrected row decides as they do. */
  lemma PssRowAgreesInBounds(v: ScfView, g: Gen, rowId: nat, ts: seq<string>, conv: Conv)
    requires v.queuesNum <= NUM_GBSQUEUES_MAX && rowId < NUM_TIMESLOTS_MAX
    ensures var d := PssDecisionAsWritten(v.queuesNum, rowId, ts, conv);
      (PssRow(v, g, rowId, ts, conv).res == RowOk <==> d.PssStore?) &&
      (PssRow(v, g, rowId, ts, conv).res == RowFailed <==> d.PssReject?)
  {
  }

  method PssHandler(sc: SchedConf, g: Gen, rowId: nat, text: string, conv: Conv) returns (res: RowResult)
    modifies sc`pss, sc`bundleConf
    ensures Handled(sc, PssRow(old(ScfOf(sc)), g, rowId, Fields(text, TAB, TSQ_TOKENS), conv), res)
  {
    var ts := SplitFields(text, TAB, TSQ_TOKENS);
    var n := |ts|;
    if n < 1 {
      return RowUndefined;
    }
    var slot := conv.atoi(ts[0]);
    if slot != rowId {
      return RowFailed;
    }
    if n < 2 {
      return RowUndefined;
    }
    var bid := ToU16(conv.atoi(ts[1]));
    if bid >= sc.queuesNum || bid >= NUM_GBSQUEUES_MAX || slot >= NUM_TIMESLOTS_MAX {
      return RowFailed;
    }
    sc.pss := SetPss(sc.pss, g, slot, bid);
    var bc := sc.bundleConf[g][bid];
    sc.bundleConf := SetBundle(sc.bundleConf, g, bid, bc.(bid := bid, numTimeslots := bc.numTimeslots + 1));
    return RowOk;
  }

  /** Number of slots below k that a pss row maps to bundle b. */
  function CountSlots(row: seq<nat>, b: nat, k: nat): (n: nat)
    requires k <= |row|
    ensures n <= k
  {
    if k == 0 then 0 else CountSlots(row, b, k - 1) + (if row[k - 1] == b then 1 else 0)
  }

  /** Slots at or above k do not affect the count below k. */
  lemma {:induction false} CountSlotsPrefix(row: seq<nat>, row': seq<nat>, b: nat, k: nat)
    requires k <= |row| && k <= |row'| && forall i :: 0 <= i < k ==> row[i] == row'[i]
    ensures CountSlots(row, b, k) == CountSlots(row', b, k)
  {
    if k > 0 {
      CountSlotsPrefix(row, row', b, k - 1);
    }
  }

  /** Every bundle's numTimeslots counts the slots among the first k that map to it. */
  ghost predicate SlotsCounted(v: ScfView, g: Gen, k: nat)
  {
    k <= NUM_TIMESLOTS_MAX &&
    forall b :: 0 <= b < NUM_GBSQUEUES_MAX ==> v.bundleConf[g][b].numTimeslots == CountSlots(v.pss[g], b, k)
  }

  /**
   * An accepted PSS row keeps each bundle's numTimeslots equal to the number
   * of the section's slots that map to it.
   */
  lemma {:induction false} PssRowCountsSlots(v: ScfView, g: Gen, rowId: nat, ts: seq<string>, conv: Conv)
    requires SlotsCounted(v, g, rowId) && PssRow(v, g, rowId, ts, conv).res == RowOk
    ensures SlotsCounted(PssRow(v, g, rowId, ts, conv).v, g, rowId + 1)
  {
    var r := PssRow(v, g, rowId, ts, conv).v;
    var bid := PssDecisionAsWritten(v.queuesNum, rowId, ts, conv).bid;
    var row, row' := v.pss[g], r.pss[g];
    forall b | 0 <= b < NUM_GBSQUEUES_MAX
      ensures r.bundleConf[g][b].numTimeslots == CountSlots(row', b, rowId + 1)
    {
      CountSlotsPrefix(row, row', b, rowId);
    }
  }

  // ---------------------------------------------------------------------
  // [GBS_SCHEDULING_RATE] (DaaS/PoCPhase3/tm10/parserCfgSched.c:118-168)
  // ---------------------------------------------------------------------

  /**
   * The rate row, on the at most three fields its strtok loop stores: a
   * 16-bit bundle id below 16, a 32-bit rate no higher than the configured
   * link speed and a 16-bit path id below 16. The bundle's rate is written
   * before the path id is checked. An accepted row adds the rate (in 32-bit
   * arithmetic) and the bundle's slot count into its path.
   */
  function RateRow(v: ScfView, g: Gen, ts: seq<string>, conv: Conv): (r: RowStep<ScfView>)
    ensures r.v == v.(bundleConf := r.v.bundleConf, pathConf := r.v.pathConf)
    ensures r.res != RowOk ==> r.v.pathConf == v.pathConf
    ensures r.res == RowOk <==>
      |ts| >= SR_TOKENS && ToU16(conv.atoi(ts[0])) < NUM_GBSQUEUES_MAX &&
      ToU32(conv.atoi(ts[1])) <= conv.linkSpeedMbps && ToU16(conv.atoi(ts[2])) < NUM_GBSQUEUES_MAX
    ensures r.res == RowOk ==>
      var bid, rate, path := ToU16(conv.atoi(ts[0])), ToU32(conv.atoi(ts[1])), ToU16(conv.atoi(ts[2]));
      var bc, pc := v.bundleConf[g][bid], v.pathConf[g][path];
      && r.v.bundleConf == v.bundleConf[g := v.bundleConf[g][bid := bc.(schedRate := rate, pathId := path)]]
      && r.v.pathConf == v.pathConf[g := v.pathConf[g][path :=
           PathConf(pc.numTimeslots + bc.numTimeslots, ToU32(pc.schedRate + rate))]]
  {
    if |ts| < 1 then RowStep(RowUndefined, v)
    else
      var bid := ToU16(conv.atoi(ts[0]));
      if bid >= NUM_GBSQUEUES_MAX then RowStep(RowFailed, v)
      else if |ts| < 2 then RowStep(RowUndefined, v)
      else
        var rate := ToU32(conv.atoi(ts[1]));
        if rate > conv.linkSpeedMbps then RowStep(RowFailed, v)
        else
          var bc := v.bundleConf[g][bid];
          var v1 := v.(bundleConf := SetBundle(v.bundleConf, g, bid, bc.(schedRate := rate)));
          if |ts| < 3 then RowStep(RowUndefined, v1)
          else
            var path := ToU16(conv.atoi(ts[2]));
            if path >= NUM_GBSQUEUES_MAX then RowStep(RowFailed, v1)
            else
              var pc := v.pathConf[g][path];
              RowStep(RowOk, v.(bundleConf := SetBundle(v.bundleConf, g, bid, bc.(schedRate := rate, pathId := path)),
                                pathConf := SetPath(v.pathConf, g, path,
                                                    PathConf(pc.numTimeslots + bc.numTimeslots, ToU32(pc.schedRate + rate)))))
  }

  /**
   * A row whose path id is out of range still leaves its rate in the
   * bundle: the failure is reported after the store.
   */
  lemma RateRowBadPathKeepsRate(v: ScfView, g: Gen, ts: seq<string>, conv: Conv)
    requires |ts| >= SR_TOKENS && ToU16(conv.atoi(ts[0])) < NUM_GBSQUEUES_MAX
    requires ToU32(conv.atoi(ts[1])) <= conv.linkSpeedMbps && ToU16(conv.atoi(ts[2])) >= NUM_GBSQUEUES_MAX
    ensures var r := RateRow(v, g, ts, conv);
      r.res == RowFailed && r.v.bundleConf[g][ToU16(conv.atoi(ts[0]))].schedRate == ToU32(conv.atoi(ts[1]))
  {
  }

  /** The stores of an accepted rate row: the bundle's path, and the path's rate and slot count. */
  method StoreRate(sc: SchedConf, g: Gen, bid: nat, rate: U32, path: nat)
    requires bid < NUM_GBSQUEUES_MAX && path < NUM_GBSQUEUES_MAX
    modifies sc`bundleConf, sc`pathConf
    ensures var bc, pc := old(sc.bundleConf[g][bid]), old(sc.pathConf[g][path]);
      && sc.bundleConf == old(SetBundle(sc.bundleConf, g, bid, bc.(pathId := path)))
      && sc.pathConf == old(SetPath(sc.pathConf, g, path, PathConf(pc.numTimeslots + bc.numTimeslots, ToU32(pc.schedRate + rate))))
  {
    var bc := sc.bundleConf[g][bid];
    sc.bundleConf := SetBundle(sc.bundleConf, g, bid, bc.(pathId := path));
    var pc := sc.pathConf[g][path];
    sc.pathConf := SetPath(sc.pathConf, g, path, PathConf(pc.numTimeslots + bc.numTimeslots, ToU32(pc.schedRate + rate)));
  }

  method RateHandler(sc: SchedConf, g: Gen, text: string, conv: Conv) returns (res: RowResult)
    modifies sc`bundleConf, sc`pathConf
    ensures Handled(sc, RateRow(old(ScfOf(sc)), g, Fields(text, TAB, SR_TOKENS), conv), res)
  {
    var ts := SplitFields(text, TAB, SR_TOKENS);
    var n := |ts|;
    if n < 1 {
      return RowUndefined;
    }
    var bid := ToU16(conv.atoi(ts[0]));
    if bid >= NUM_GBSQUEUES_MAX {
      return RowFailed;
    }
    if n < 2 {
      return RowUndefined;
    }
    var schedRate := ToU32(conv.atoi(ts[1]));
    if schedRate > conv.linkSpeedMbps {
      return RowFailed;
    }
    var bc := sc.bundleConf[g][bid];
    sc.bundleConf := SetBundle(sc.bundleConf, g, bid, bc.(schedRate := schedRate));
    if n < 3 {
      return RowUndefined;
    }
    var pathid := ToU16(conv.atoi(ts[2]));
    if pathid >= NUM_GBSQUEUES_MAX {
      return RowFailed;
    }
    StoreRate(sc, g, bid, schedRate, pathid);
    SetBundleTwice(old(sc.bundleConf), g, bid, bc.(schedRate := schedRate), bc.(schedRate := schedRate, pathId := pathid));
    return RowOk;
  }

  // ---------------------------------------------------------------------
  // [GBS_BUNDLE_MAPPING] (DaaS/PoCPhase3/tm10/parserCfgSched.c:170-259)
  // ---------------------------------------------------------------------

  /** bmTokens: the mapping row has two more fields under the VLAN+MAC classifier. */
  function MapTokens(v: ScfView): nat
  {
    if v.schedClassifierType == VLANID_SRCMAC_CLASSIFIER then BM_TOKENS_SRCMAC else BM_TOKENS
  }

  /**
   * The VLAN table entry after a mapping row: the address goes to slot 1
   * (with the queue and the VLAN id) while qid1 is 0, and to slot 2
   * otherwise.
   */
  function MapVlanEntry(e: VlanLookupEntry, vlanId: nat, qid: nat, mac: MacAddr): (r: VlanLookupEntry)
    requires qid < NUM_GBSQUEUES_MAX
    ensures |e.macaddr1| == MAC_ADDR_LEN && |e.macaddr2| == MAC_ADDR_LEN ==>
      |r.macaddr1| == MAC_ADDR_LEN && |r.macaddr2| == MAC_ADDR_LEN
    ensures e.qid1 < 16 && e.qid2 < 16 ==> r.qid1 < 16 && r.qid2 < 16
  {
    if e.qid1 == 0 then e.(macaddr1 := mac, qid1 := qid as bv16, vlanId := vlanId)
    else e.(macaddr2 := mac, qid2 := qid as bv16)
  }

  /**
   * The mapping row, on the at most MapTokens fields its strtok loop
   * stores: bundle and queue ids in 0..15 and room in the bundle, else it
   * fails. With the VLAN+MAC classifier a VLAN id outside 0..4095 or a
   * malformed MAC address ends the process.
   */
  function MapRow(v: ScfView, g: Gen, ts: seq<string>, conv: Conv): (r: RowStep<ScfView>)
    ensures r.v == v.(bundleConf := r.v.bundleConf, vlanTable := r.v.vlanTable)
    ensures r.res != RowOk ==> r.v == v
    ensures r.res == RowOk ==>
      |ts| >= 2 && 0 <= conv.atoi(ts[0]) < NUM_GBSQUEUES_MAX && 0 <= conv.atoi(ts[1]) < NUM_GBSQUEUES_MAX &&
      v.bundleConf[g][conv.atoi(ts[0])].numQueues < QUEUES_PER_BUNDLE_MAX
    ensures r.res == RowOk ==>
      var bid, qid := conv.atoi(ts[0]), conv.atoi(ts[1]);
      var bc := v.bundleConf[g][bid];
      && r.v.bundleConf == v.bundleConf[g := v.bundleConf[g][bid :=
           bc.(queues := bc.queues[bc.numQueues := qid], numQueues := bc.numQueues + 1)]]
      && (v.schedClassifierType != VLANID_SRCMAC_CLASSIFIER ==> r.v.vlanTable == v.vlanTable)
    ensures r.res == RowFailed <==>
      |ts| >= 1 && (conv.atoi(ts[0]) < 0 || conv.atoi(ts[0]) >= NUM_GBSQUEUES_MAX ||
        (|ts| >= 2 && (conv.atoi(ts[1]) < 0 || conv.atoi(ts[1]) >= NUM_GBSQUEUES_MAX ||
                       v.bundleConf[g][conv.atoi(ts[0])].numQueues == QUEUES_PER_BUNDLE_MAX)))
  {
    var ts := ts;
    if |ts| < 1 then RowStep(RowUndefined, v)
    else
      var bid := conv.atoi(ts[0]);
      if bid < 0 || bid >= NUM_GBSQUEUES_MAX then RowStep(RowFailed, v)
      else if |ts| < 2 then RowStep(RowUndefined, v)
      else
        var qid := conv.atoi(ts[1]);
        var bc := v.bundleConf[g][bid];
        if qid < 0 || qid >= NUM_GBSQUEUES_MAX then RowStep(RowFailed, v)
        else if bc.numQueues == QUEUES_PER_BUNDLE_MAX then RowStep(RowFailed, v)
        else
          var bc' := bc.(queues := bc.queues[bc.numQueues := qid], numQueues := bc.numQueues + 1);
          if v.schedClassifierType != VLANID_SRCMAC_CLASSIFIER then
            RowStep(RowOk, v.(bundleConf := SetBundle(v.bundleConf, g, bid, bc')))
          else if |ts| < 3 then RowStep(RowUndefined, v)
          else
            var vlanId := conv.atoi(ts[2]);
            if vlanId < 0 || vlanId > VLAN_ID_MAX then RowStep(RowExit, v)
            else if |ts| < 4 then RowStep(RowUndefined, v)
            else match conv.macAddr(ts[3])
              case None => RowStep(RowExit, v)
              case Some(mac) =>
                var e := MapVlanEntry(v.vlanTable[vlanId], vlanId, qid, mac);
                RowStep(RowOk, v.(bundleConf := SetBundle(v.bundleConf, g, bid, bc'),
                                  vlanTable := SetVlan(v.vlanTable, vlanId, e)))
  }

  /** An accepted mapping row appends its queue to the bundle's members and keeps the earlier ones. */
  lemma MapRowAppends(v: ScfView, g: Gen, ts: seq<string>, conv: Conv)
    requires MapRow(v, g, ts, conv).res == RowOk
    ensures var bid := conv.atoi(ts[0]);
      var bc, bc' := v.bundleConf[g][bid], MapRow(v, g, ts, conv).v.bundleConf[g][bid];
      bc'.queues[..bc'.numQueues] == bc.queues[..bc.numQueues] + [conv.atoi(ts[1])]
  {
    var bid := conv.atoi(ts[0]);
    var bc, bc' := v.bundleConf[g][bid], MapRow(v, g, ts, conv).v.bundleConf[g][bid];
    assert bc'.queues[..bc.numQueues] == bc.queues[..bc.numQueues];
  }

  /**
   * The VLAN table under the VLAN+MAC classifier: the first address mapped
   * for a VLAN id fills slot 1 and a second one slot 2; when the first
   * mapping was for queue 0, the second address overwrites slot 1.
   */
  lemma MapVlanSlots(e: VlanLookupEntry, vlanId: nat, qid: nat, mac: MacAddr, qid': nat, mac': MacAddr)
    requires qid < NUM_GBSQUEUES_MAX && qid' < NUM_GBSQUEUES_MAX && e.qid1 == 0
    ensures var e1 := MapVlanEntry(e, vlanId, qid, mac);
      var e2 := MapVlanEntry(e1, vlanId, qid', mac');
      && e1.macaddr1 == mac && e1.qid1 == qid as bv16 && e1.vlanId == vlanId && e1.macaddr2 == e.macaddr2
      && (qid != 0 ==> e2.macaddr1 == mac && e2.macaddr2 == mac' && e2.qid2 == qid' as bv16)
      && (qid == 0 ==> e2.macaddr1 == mac' && e2.macaddr2 == e.macaddr2)
  {
  }

  method MapHandler(sc: SchedConf, g: Gen, text: string, conv: Conv) returns (res: RowResult)
    modifies sc`bundleConf, sc`vlanTable
    ensures Handled(sc, MapRow(old(ScfOf(sc)), g, Fields(text, TAB, MapTokens(old(ScfOf(sc)))), conv), res)
  {
    var bmTokens := BM_TOKENS;
    if sc.schedClassifierType == VLANID_SRCMAC_CLASSIFIER {
      bmTokens := BM_TOKENS_SRCMAC;
    }
    var ts := SplitFields(text, TAB, bmTokens);
    var n := |ts|;
    if n < 1 {
      return RowUndefined;
    }
    var bid := conv.atoi(ts[0]);
    if bid < 0 || bid >= NUM_GBSQUEUES_MAX {
      return RowFailed;
    }
    if n < 2 {
      return RowUndefined;
    }
    var qid := conv.atoi(ts[1]);
    if qid < 0 || qid >= NUM_GBSQUEUES_MAX {
      return RowFailed;
    }
    var bc := sc.bundleConf[g][bid];
    if bc.numQueues == QUEUES_PER_BUNDLE_MAX {
      return RowFailed;
    }
    bc := bc.(queues := bc.queues[bc.numQueues := qid]);
    if sc.schedClassifierType == VLANID_SRCMAC_CLASSIFIER {
      if n < 3 {
        return RowUndefined;
      }
      var vlanid := conv.atoi(ts[2]);
      if vlanid < 0 || vlanid > VLAN_ID_MAX {
        return RowExit;
      }
      if n < 4 {
        return RowUndefined;
      }
      var mac := conv.macAddr(ts[3]);
      if mac.None? {
        return RowExit;
      }
      sc.vlanTable := SetVlan(sc.vlanTable, vlanid, MapVlanEntry(sc.vlanTable[vlanid], vlanid, qid, mac.value));
    }
    sc.bundleConf := SetBundle(sc.bundleConf, g, bid, bc.(numQueues := bc.numQueues + 1));
    return RowOk;
  }

  // ---------------------------------------------------------------------
  // Section driver (DaaS/PoCPhase3/tm10/parserCfgSched.c:261-365)
  // ---------------------------------------------------------------------

  /** scfSectMap[s].fnptr on one row; [CONFIG_DESCRIPTION] rows are only printed. */
  function SchedRow(v: ScfView, g: Gen, s: nat, sectRow: nat, text: string, conv: Conv): RowStep<ScfView>
  {
    if s == SECT_DESCRIPTION then RowStep(RowOk, v)
    else if s == SECT_TOPLVL then TopLvlRow(v, Fields(text, TAB, TL_TOKENS), conv)
    else if s == SECT_PSS then PssRow(v, g, sectRow, Fields(text, TAB, TSQ_TOKENS), conv)
    else if s == SECT_RATE then RateRow(v, g, Fields(text, TAB, SR_TOKENS), conv)
    else MapRow(v, g, Fields(text, TAB, MapTokens(v)), conv)
  }

  function SchedRowFn(g: Gen, conv: Conv): (ScfView, nat, nat, string) -> RowStep<ScfView>
  {
    (v: ScfView, s: nat, sectRow: nat, text: string) => SchedRow(v, g, s, sectRow, text, conv)
  }

  /**
   * app_parse_scf_cfgfile on a file's lines: the driver, then the sanity
   * check that a complete parse has set timeslotsPerSeq and queuesNum (the
   * check reads what the generation held before if the file set neither).
   */
  function ScfFile(v: ScfView, g: Gen, lines: seq<string>, conv: Conv): (d: DriveResult<ScfView>)
    ensures d.DriveEnd? ==> d.v.timeslotsPerSeq != 0 && d.v.queuesNum != 0
    ensures d.DriveEnd? || d.DriveFailed? ==>
      (Drive(v, lines, SCF_SECTIONS, 0, 0, SchedRowFn(g, conv)).DriveEnd? || Drive(v, lines, SCF_SECTIONS, 0, 0, SchedRowFn(g, conv)).DriveFailed?) &&
      d.v == Drive(v, lines, SCF_SECTIONS, 0, 0, SchedRowFn(g, conv)).v
  {
    match Drive(v, lines, SCF_SECTIONS, 0, 0, SchedRowFn(g, conv))
    case DriveEnd(v') => if v'.timeslotsPerSeq == 0 || v'.queuesNum == 0 then DriveFailed(v') else DriveEnd(v')
    case d => d
  }

  /** An unknown section header ends the parse with -1, leaving the configuration as it was. */
  lemma UnknownSectionFails(v: ScfView, g: Gen, header: string, rest: seq<string>, conv: Conv)
    requires |header| > 0 && header[0] == '[' && NEWLINE !in header
    requires forall k :: 0 <= k < |SCF_SECTIONS| ==> !(SCF_SECTIONS[k] <= header)
    ensures ScfFile(v, g, [header] + rest, conv) == DriveFailed(v)
  {
    assert CopyLine(header) == header;
    SectionIndexIs(header, SCF_SECTIONS, |SCF_SECTIONS|);
  }

  /**
   * A line holding only its newline reaches the current section's handler
   * as an empty row: the top-level row then fails, and the other GBS
   * handlers read a token their strtok loop never stored. Skipped as a
   * blank line, it leaves the parse as it was.
   */
  lemma BlankLineAsWritten(v: ScfView, g: Gen, sectRow: nat, conv: Conv)
    ensures ClassifyLineAsWritten("\n") == RowLine("")
    ensures SchedRow(v, g, SECT_TOPLVL, sectRow, "", conv).res == RowFailed
    ensures SchedRow(v, g, SECT_PSS, sectRow, "", conv).res == RowUndefined
    ensures SchedRow(v, g, SECT_RATE, sectRow, "", conv).res == RowUndefined
    ensures ClassifyLine("\n") == SkipLine
  {
    assert CopyLine("\n") == "";
  }

  /** The loop's progress: what is left of the file parses to what the whole file parses to. */
  ghost predicate Driving(sc: SchedConf, v0: ScfView, g: Gen, lines: seq<string>, i: nat, s: nat, sectRow: nat, conv: Conv)
    reads sc
  {
    i <= |lines| && s < |SCF_SECTIONS| &&
    Drive(v0, lines, SCF_SECTIONS, 0, 0, SchedRowFn(g, conv)) ==
    Drive(ScfOf(sc), lines[i..], SCF_SECTIONS, s, sectRow, SchedRowFn(g, conv))
  }

  /** Call the handler of section s. */
  method DispatchRow(sc: SchedConf, g: Gen, s: nat, sectRow: nat, text: string, conv: Conv) returns (res: RowResult)
    modifies sc`schedMode, sc`queuesNum, sc`timeslotsPerSeq, sc`maxPktSize, sc`baseStreamId, sc`classifierType
    modifies sc`schedClassifierType, sc`ecnThreshold, sc`ecnMarkThreshold, sc`vlanTable
    modifies sc`pss, sc`bundleConf, sc`pathConf
    ensures Handled(sc, SchedRow(old(ScfOf(sc)), g, s, sectRow, text, conv), res)
  {
    if s == SECT_DESCRIPTION {
      res := RowOk;
    } else if s == SECT_TOPLVL {
      res := TopLvlHandler(sc, text, conv);
    } else if s == SECT_PSS {
      res := PssHandler(sc, g, sectRow, text, conv);
    } else if s == SECT_RATE {
      res := RateHandler(sc, g, text, conv);
    } else {
      res := MapHandler(sc, g, text, conv);
    }
  }

  /**
   * One pass of the driver loop: skip comments and blank lines, switch
   * section on a header, or hand the row to the section's handler.
   */
  method DriveLine(sc: SchedConf, ghost v0: ScfView, g: Gen, lines: seq<string>, i: nat, s: nat, sectRow: nat, conv: Conv)
    returns (ret: int, stop: Option<Outcome>, s': nat, sectRow': nat)
    requires Driving(sc, v0, g, lines, i, s, sectRow, conv) && i < |lines|
    modifies sc`schedMode, sc`queuesNum, sc`timeslotsPerSeq, sc`maxPktSize, sc`baseStreamId, sc`classifierType
    modifies sc`schedClassifierType, sc`ecnThreshold, sc`ecnMarkThreshold, sc`vlanTable
    modifies sc`pss, sc`bundleConf, sc`pathConf
    ensures var d0 := Drive(v0, lines, SCF_SECTIONS, 0, 0, SchedRowFn(g, conv));
      && (stop.Some? ==> OutcomeOf(d0) == stop.value && !stop.value.Returned?)
      && (stop.None? && ret == 0 ==> Driving(sc, v0, g, lines, i + 1, s', sectRow', conv))
      && (stop.None? && ret != 0 ==> ret == -1 && d0 == DriveFailed(ScfOf(sc)))
  {
    var line := lines[i];
    assert lines[i..][1..] == lines[i + 1..];
    stop, s', sectRow' := None, s, sectRow;
    ret := 0;
    if |line| == 0 || line[0] == '#' {
      return;
    }
    var copied := CopyLine(line);
    if |copied| == 0 {
      return;
    }
    if copied[0] == '[' {
      sectRow' := 0;
      var found := FindSection(copied, SCF_SECTIONS);
      if found == |SCF_SECTIONS| {
        ret := -1;
      } else {
        s' := found;
      }
      return;
    }
    var res := DispatchRow(sc, g, s, sectRow, copied, conv);
    if res == RowExit {
      stop := Some(Exited);
    } else if res == RowUndefined {
      stop := Some(Undefined);
    } else if res == RowFailed {
      ret := -1;
    } else {
      sectRow' := sectRow + 1;
    }
  }

  /**
   * app_parse_scf_cfgfile: read the lines in order until the end or the
   * first failure, then run the sanity check. Lines are what fgets returns,
   * newline included.
   */
  method ParseScfCfgFile(sc: SchedConf, g: Gen, lines: seq<string>, conv: Conv) returns (out: Outcome)
    modifies sc`schedMode, sc`queuesNum, sc`timeslotsPerSeq, sc`maxPktSize, sc`baseStreamId, sc`classifierType
    modifies sc`schedClassifierType, sc`ecnThreshold, sc`ecnMarkThreshold, sc`vlanTable
    modifies sc`pss, sc`bundleConf, sc`pathConf
    ensures var d := ScfFile(old(ScfOf(sc)), g, lines, conv);
      out == OutcomeOf(d) && (d.DriveEnd? || d.DriveFailed? ==> ScfOf(sc) == d.v)
  {
    ghost var v0 := ScfOf(sc);
    var i: nat := 0;
    var s: nat := 0;
    var sectRow: nat := 0;
    var ret := 0;
    assert lines[0..] == lines;
    while i < |lines| && ret >= 0
      invariant i <= |lines| && (ret == 0 || ret == -1)
      invariant ret == 0 ==> Driving(sc, v0, g, lines, i, s, sectRow, conv)
      invariant ret == -1 ==> Drive(v0, lines, SCF_SECTIONS, 0, 0, SchedRowFn(g, conv)) == DriveFailed(ScfOf(sc))
      decreases |lines| - i
    {
      var stop;
      ret, stop, s, sectRow := DriveLine(sc, v0, g, lines, i, s, sectRow, conv);
      if stop.Some? {
        return stop.value;
      }
      i := i + 1;
    }
    if ret == 0 {
      assert lines[i..] == [];
      if sc.timeslotsPerSeq == 0 || sc.queuesNum == 0 {
        ret := -1;
      }
    }
    return Returned(ret);
  }
}
