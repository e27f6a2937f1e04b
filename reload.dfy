/**
 * The configuration hot reload of SchedMainThread
 * (DaaS/PoCPhase3/tm10/tmSched.c:1672-1747): when the scheduler file's
 * modification time moves past the last one seen, the generation not in
 * use (!confId) is cleared and refilled from the scheduler and stream
 * files, and newConfig asks the dequeue loop to switch to it at the end of
 * a sequence.
 *
 * stat() becomes an optional modification time, the two files their
 * lines, and the mbuf template building of StreamPktInit a boolean.
 */
module Reload {
  import opened TmDefs
  import opened SchedSpec
  import opened SchedData
  import opened ParserLib
  import opened ParserStream
  import PS = ParserSched

  /** !confId: the generation a reload writes. */
  function OtherGen(confId: nat): (g: PS.Gen)
    ensures confId < NUM_GENERATIONS ==> g == 1 - confId
  {
    if confId == 0 then 1 else 0
  }

  /** PKT_SIZE_DEFAULT */
  const PKT_SIZE_DEFAULT: nat := 512
  /** Stream 0's VLAN id and priority (DaaS/PoCPhase3/tm10/tmMain.c:67-70). */
  const DEFAULT_STREAM_VLAN_ID: nat := 0x100
  const DEFAULT_STREAM_VLAN_PRI: nat := 7

  // ---------------------------------------------------------------------
  // The memsets and the queue numbering (tmSched.c:1699-1710)
  // ---------------------------------------------------------------------

  /**
   * The configuration after the memsets of pss[g] and bundleConf[g]: no
   * slot mapped and no bundle configured in g. pathConf is not cleared.
   */
  function ClearConf(v: PS.ScfView, g: PS.Gen): (r: PS.ScfView)
    ensures forall s :: 0 <= s < NUM_TIMESLOTS_MAX ==> r.pss[g][s] == 0
    ensures r.bundleConf[g] == ZeroBundles()
    ensures r.pss[1 - g] == v.pss[1 - g] && r.bundleConf[1 - g] == v.bundleConf[1 - g]
    ensures r.pathConf == v.pathConf
    ensures r == v.(pss := r.pss, bundleConf := r.bundleConf)
  {
    var pss: PssTable := v.pss[g := ZeroSlots()];
    var bundleConf: BundleTable := v.bundleConf[g := ZeroBundles()];
    v.(pss := pss, bundleConf := bundleConf)
  }

  function ZeroSlots(): seq<nat>
  {
    seq(NUM_TIMESLOTS_MAX, _ => 0)
  }

  function ZeroBundles(): seq<BundleConf>
  {
    seq(NUM_GBSQUEUES_MAX, _ => ZERO_BUNDLE)
  }

  /** A generation of credit records after its memset. */
  function ClearCredits(t: CreditTable, g: PS.Gen): (r: CreditTable)
    ensures forall i :: 0 <= i < NUM_GBSQUEUES_MAX ==> r[g][i] == ZERO_CREDIT
    ensures r[1 - g] == t[1 - g]
  {
    t[g := seq(NUM_GBSQUEUES_MAX, _ => ZERO_CREDIT)]
  }

  /**
   * gbsQueue[g] after the memset and the numbering loop: queue q is a GBS
   * queue numbered q when q < n, and all zero otherwise.
   */
  function NumberedQueues(n: nat): seq<QueueState>
  {
    seq(NUM_GBSQUEUES_MAX, q requires 0 <= q => if q < n then ZERO_QUEUE.(qtype := QueueTypeGbs, qid := q) else ZERO_QUEUE)
  }

  /** Numbering stops at the table's end: any count of 16 or more numbers every queue alike. */
  lemma NumberedQueuesSaturate(n: nat)
    requires n >= NUM_GBSQUEUES_MAX
    ensures NumberedQueues(n) == NumberedQueues(NUM_GBSQUEUES_MAX)
    ensures forall q :: 0 <= q < NUM_GBSQUEUES_MAX ==>
      NumberedQueues(n)[q].qtype == QueueTypeGbs && NumberedQueues(n)[q].qid == q &&
      NumberedQueues(n)[q].queueCredit == ZERO_CREDIT
  {
  }

  /**
   * The numbering loop as written runs q over 0 .. queuesNum - 1 and stores
   * into gbsQueue[g][q]; these are the indices it stores to.
   */
  function NumberingIndicesAsWritten(queuesNum: U16): (ix: seq<nat>)
    ensures |ix| == queuesNum
  {
    seq(queuesNum, q => q)
  }

  /**
   * A top-level row may set queuesNum to 17 (only the 16-bit cast bounds
   * it), and the next reload's loop then stores past the 16 entries of
   * gbsQueue[g].
   */
  lemma NumberingOverrunsAsWritten(v: PS.ScfView, fields: seq<string>, extra: seq<string>, conv: Conv)
    requires |fields| == PS.TL_TOKENS && forall i :: 0 <= i < |fields + extra| ==> Token((fields + extra)[i], PS.TAB)
    requires PS.SchedModeOf(fields[0]).Some? && conv.atoi(fields[1]) == 17
    ensures var r := PS.TopLvlRow(v, Fields(Join(fields + extra, '\t'), PS.TAB, PS.TL_TOKENS), conv);
      && r.res == RowOk && r.v.queuesNum == 17
      && NumberingIndicesAsWritten(r.v.queuesNum)[16] == NUM_GBSQUEUES_MAX
  {
    PS.TopLvlOfRow(v, fields, extra, conv);
  }

  /**
   * memset of gbsQueue[g], then the numbering loop, bounded by the table's
   * 16 entries as well as by queuesNum.
   */
  method NumberQueues(ss: SchedState, g: PS.Gen, queuesNum: U16)
    modifies ss`gbsQueue
    ensures ss.gbsQueue == old(ss.gbsQueue)[g := NumberedQueues(queuesNum)]
  {
    ss.gbsQueue := ss.gbsQueue[g := NumberedQueues(0)];
    var bound: nat := if queuesNum < NUM_GBSQUEUES_MAX then queuesNum else NUM_GBSQUEUES_MAX;
    var q: nat := 0;
    while q < bound
      invariant q <= bound
      invariant ss.gbsQueue == old(ss.gbsQueue)[g := NumberedQueues(q)]
    {
      var row := ss.gbsQueue[g];
      var qs := row[q].(qtype := QueueTypeGbs, qid := q);
      assert NumberedQueues(q)[q := qs] == NumberedQueues(q + 1);
      var t: QueueTable := ss.gbsQueue[g := row[q := qs]];
      ss.gbsQueue := t;
      q := q + 1;
    }
    if queuesNum >= NUM_GBSQUEUES_MAX {
      NumberedQueuesSaturate(queuesNum);
    }
  }

  // ---------------------------------------------------------------------
  // The pathConf records carry over (tmSched.c:1699-1702,
  // parserCfgSched.c:153-154)
  // ---------------------------------------------------------------------

  /**
   * The parse of two rows into generation g: slot 0 mapped to bundle 1,
   * then bundle 1 at rate 100 on path 1.
   */
  function OnePathRows(v: PS.ScfView, g: PS.Gen, conv: Conv): PS.ScfView
  {
    PS.RateRow(PS.PssRow(v, g, 0, ["0", "1"], conv).v, g, ["1", "100", "1"], conv).v
  }

  /**
   * The reload clears pss and bundleConf of its generation but not
   * pathConf, and the rate row adds into the path record: reading the same
   * rows on the generation's second load gives path 1 twice the slots and
   * twice the rate.
   */
  lemma PathRecordsAccumulate(v: PS.ScfView, g: PS.Gen, conv: Conv)
    requires conv.atoi("0") == 0 && conv.atoi("1") == 1 && conv.atoi("100") == 100 && 100 <= conv.linkSpeedMbps
    requires v.queuesNum >= 2 && v.pathConf[g][1] == ZERO_PATH
    ensures var once := OnePathRows(ClearConf(v, g), g, conv);
      && once.pathConf[g][1] == PathConf(1, 100)
      && OnePathRows(ClearConf(once, g), g, conv).pathConf[g][1] == PathConf(2, 200)
  {
    var once := OnePathRows(ClearConf(v, g), g, conv);
    assert once.queuesNum == v.queuesNum;
  }

  // ---------------------------------------------------------------------
  // The stream reset and stream 0 (tmSched.c:1722-1744, tmMain.c:44-79)
  // ---------------------------------------------------------------------

  /**
   * The stream state after the memset of streamCfg[g] and the zeroed
   * counters. The stream handler's static next id is not reset.
   */
  function ResetStreams(v: StrmView, g: PS.Gen): (r: StrmView)
    ensures StoredInOrder(r, g) && r.numStreams == 0 && r.streamsBaseNum == 0
    ensures forall k :: 0 <= k <= NUM_STREAMS_MAX ==> r.streamCfg[g][k] == ZERO_STREAM
    ensures r.streamCfg[1 - g] == v.streamCfg[1 - g] && r.streamIdNext == v.streamIdNext
  {
    var t: StreamTable := v.streamCfg[g := ZeroStreams()];
    StrmView(t, 0, 0, v.streamIdNext)
  }

  function ZeroStreams(): seq<StreamCfg>
  {
    seq(NUM_STREAMS_MAX + 1, _ => ZERO_STREAM)
  }

  /**
   * The integer stores of StreamRatesValidate: stream 0, the default
   * stream, takes stream 1's addresses and the default packet size, VLAN,
   * TTL and protocol, and is counted.
   */
  function WithDefaultStream(v: StrmView, g: PS.Gen): (r: StrmView)
    ensures r.numStreams == v.numStreams + 1
    ensures var e := r.streamCfg[g][0];
      && e.streamId == 0 && e.srcIP == v.streamCfg[g][1].srcIP && e.dstIP == v.streamCfg[g][1].dstIP
      && e.pktsize == PKT_SIZE_DEFAULT && e.vlanId == DEFAULT_STREAM_VLAN_ID && e.vlanPri == DEFAULT_STREAM_VLAN_PRI
      && e.ttl == STREAM_TTL && e.protocol == STREAM_PROTOCOL
    ensures forall k :: 1 <= k <= NUM_STREAMS_MAX ==> r.streamCfg[g][k] == v.streamCfg[g][k]
    ensures r.streamCfg[1 - g] == v.streamCfg[1 - g]
    ensures r.streamsBaseNum == v.streamsBaseNum && r.streamIdNext == v.streamIdNext
  {
    var one := v.streamCfg[g][1];
    var e := v.streamCfg[g][0].(streamId := 0, srcIP := one.srcIP, dstIP := one.dstIP, pktsize := PKT_SIZE_DEFAULT,
                                vlanId := DEFAULT_STREAM_VLAN_ID, vlanPri := DEFAULT_STREAM_VLAN_PRI,
                                ttl := STREAM_TTL, protocol := STREAM_PROTOCOL);
    v.(streamCfg := SetStream(v.streamCfg, g, 0, e), numStreams := v.numStreams + 1)
  }

  /**
   * After a stream file parse and the defaults, entries 1 .. numStreams - 1
   * hold the file's streams in id order and entry 0 the default stream.
   */
  lemma DefaultStreamAfterParsed(v: StrmView, g: PS.Gen)
    requires StoredInOrder(v, g)
    ensures var r := WithDefaultStream(v, g);
      && r.numStreams == v.numStreams + 1 && r.streamCfg[g][0].streamId == 0
      && forall k :: 1 <= k < r.numStreams ==> r.streamCfg[g][k].streamId == r.streamsBaseNum + k - 1
  {
    var r := WithDefaultStream(v, g);
    forall k | 1 <= k < r.numStreams
      ensures r.streamCfg[g][k].streamId == r.streamsBaseNum + k - 1
    {
      assert r.streamCfg[g][k] == v.streamCfg[g][k];
    }
  }

  method StoreDefaultStream(sc: SchedConf, ghost cur: StreamIdCursor, g: PS.Gen)
    modifies sc`streamCfg, sc`numStreams
    ensures StrmOf(sc, cur) == WithDefaultStream(old(StrmOf(sc, cur)), g)
  {
    var one := sc.streamCfg[g][1];
    var e := sc.streamCfg[g][0].(streamId := 0, srcIP := one.srcIP, dstIP := one.dstIP, pktsize := PKT_SIZE_DEFAULT,
                                 vlanId := DEFAULT_STREAM_VLAN_ID, vlanPri := DEFAULT_STREAM_VLAN_PRI,
                                 ttl := STREAM_TTL, protocol := STREAM_PROTOCOL);
    sc.streamCfg := SetStream(sc.streamCfg, g, 0, e);
    sc.numStreams := sc.numStreams + 1;
  }

  // ---------------------------------------------------------------------
  // The live generation is not written
  // ---------------------------------------------------------------------

  /** The scheduler file's rows write only generation g of the tables. */
  lemma SchedRowKeepsOtherGen(w: PS.ScfView, g: PS.Gen, s: nat, sectRow: nat, text: string, conv: Conv)
    ensures var st := PS.SchedRow(w, g, s, sectRow, text, conv);
      st.res == RowOk || st.res == RowFailed ==>
        && st.v.pss[1 - g] == w.pss[1 - g]
        && st.v.bundleConf[1 - g] == w.bundleConf[1 - g]
        && st.v.pathConf[1 - g] == w.pathConf[1 - g]
  {
  }

  /** So does a whole scheduler file parse that returns. */
  lemma ScfFileKeepsOtherGen(v: PS.ScfView, g: PS.Gen, lines: seq<string>, conv: Conv)
    ensures var d := PS.ScfFile(v, g, lines, conv);
      d.DriveEnd? || d.DriveFailed? ==>
        && d.v.pss[1 - g] == v.pss[1 - g]
        && d.v.bundleConf[1 - g] == v.bundleConf[1 - g]
        && d.v.pathConf[1 - g] == v.pathConf[1 - g]
  {
    var row := PS.SchedRowFn(g, conv);
    var inv := (w: PS.ScfView) =>
      w.pss[1 - g] == v.pss[1 - g] && w.bundleConf[1 - g] == v.bundleConf[1 - g] && w.pathConf[1 - g] == v.pathConf[1 - g];
    forall w, s, r, t | inv(w) && (row(w, s, r, t).res == RowOk || row(w, s, r, t).res == RowFailed)
      ensures inv(row(w, s, r, t).v)
    {
      SchedRowKeepsOtherGen(w, g, s, r, t, conv);
    }
    DriveKeeps(v, lines, PS.SCF_SECTIONS, 0, 0, row, inv);
  }

  /** And a stream file parse that returns. */
  lemma StreamFileKeepsOtherGen(v: StrmView, g: PS.Gen, lines: seq<string>, conv: Conv, fc: FloatChecks)
    ensures var d := StreamFile(v, g, lines, conv, fc);
      d.DriveEnd? || d.DriveFailed? ==> d.v.streamCfg[1 - g] == v.streamCfg[1 - g]
  {
    var row := StreamRowFn(g, conv, fc);
    var inv := (w: StrmView) => w.streamCfg[1 - g] == v.streamCfg[1 - g];
    DriveKeeps(v, lines, STREAM_SECTIONS, 0, 0, row, inv);
  }

  // ---------------------------------------------------------------------
  // The reload
  // ---------------------------------------------------------------------

  /**
   * How a reload ends: the new generation is pending for the dequeue loop;
   * the stream packets could not be built and it is not installed; a
   * parse exited the process (rte_exit, also on a -1 parse); or a parse
   * read a token its strtok loop never stored.
   */
  datatype ReloadResult = Pending | PktInitFailed | ReloadExited | ReloadUndefined

  /** The scheduler file parse a reload runs, on the cleared generation. */
  ghost function ReloadScf(v: PS.ScfView, g: PS.Gen, lines: seq<string>, conv: Conv): DriveResult<PS.ScfView>
  {
    PS.ScfFile(ClearConf(v, g), g, lines, conv)
  }

  /** The stream file parse a reload runs, on the reset streams. */
  ghost function ReloadStreams(v: StrmView, g: PS.Gen, lines: seq<string>, conv: Conv, fc: FloatChecks)
    : DriveResult<StrmView>
  {
    StreamFile(ResetStreams(v, g), g, lines, conv, fc)
  }

  /** The reload's decision, from the two parses and the packet building. */
  ghost function ReloadOutcome(d: DriveResult<PS.ScfView>, sd: DriveResult<StrmView>, pktInitOk: bool): ReloadResult
  {
    if d.DriveUndefined? then ReloadUndefined
    else if !d.DriveEnd? then ReloadExited
    else StreamOutcome(sd, pktInitOk)
  }

  /** The decision once the scheduler file has parsed: from the stream parse and the packet building. */
  ghost function StreamOutcome(sd: DriveResult<StrmView>, pktInitOk: bool): ReloadResult
  {
    if sd.DriveUndefined? then ReloadUndefined
    else if !sd.DriveEnd? then ReloadExited
    else if pktInitOk then Pending
    else PktInitFailed
  }

  /**
   * A reload that returns has parsed both files completely, left a
   * generation with a nonzero slot count and queue count and its streams
   * in id order (stream 0 the default one), and kept the live generation.
   */
  lemma ReloadedGeneration(v: PS.ScfView, sv: StrmView, g: PS.Gen, scfLines: seq<string>, strmLines: seq<string>,
                           conv: Conv, fc: FloatChecks, pktInitOk: bool)
    requires var r := ReloadOutcome(ReloadScf(v, g, scfLines, conv), ReloadStreams(sv, g, strmLines, conv, fc), pktInitOk);
      r == Pending || r == PktInitFailed
    ensures var d := ReloadScf(v, g, scfLines, conv);
      && d.DriveEnd? && d.v.timeslotsPerSeq != 0 && d.v.queuesNum != 0
      && d.v.pss[1 - g] == v.pss[1 - g] && d.v.bundleConf[1 - g] == v.bundleConf[1 - g]
      && d.v.pathConf[1 - g] == v.pathConf[1 - g]
    ensures var sd := ReloadStreams(sv, g, strmLines, conv, fc);
      && sd.DriveEnd? && StoredInOrder(sd.v, g) && sd.v.streamCfg[1 - g] == sv.streamCfg[1 - g]
  {
    ScfFileKeepsOtherGen(ClearConf(v, g), g, scfLines, conv);
    StreamFileInOrder(ResetStreams(sv, g), g, strmLines, conv, fc);
    StreamFileKeepsOtherGen(ResetStreams(sv, g), g, strmLines, conv, fc);
  }

  /**
   * What reloading generation g from configuration v0 and streams sv0
   * leaves as configuration v and streams sv: the reload's decision and,
   * when it returns, the parsed generation.
   */
  ghost predicate GenerationReloaded(r: ReloadResult, g: PS.Gen, v0: PS.ScfView, sv0: StrmView, v: PS.ScfView,
                                     sv: StrmView, scfLines: seq<string>, strmLines: seq<string>, conv: Conv,
                                     fc: FloatChecks, pktInitOk: bool)
  {
    var d := ReloadScf(v0, g, scfLines, conv);
    var sd := ReloadStreams(sv0, g, strmLines, conv, fc);
    && r == ReloadOutcome(d, sd, pktInitOk)
    && (r == Pending || r == PktInitFailed ==> v == d.v)
    && (r == Pending ==> sv == WithDefaultStream(sd.v, g))
    && (r == PktInitFailed ==> sv == sd.v)
  }

  /** The same for the stream half, once the scheduler file has parsed. */
  ghost predicate StreamsInstalled(r: ReloadResult, g: PS.Gen, sv0: StrmView, sv: StrmView, strmLines: seq<string>,
                                   conv: Conv, fc: FloatChecks, pktInitOk: bool)
  {
    var sd := ReloadStreams(sv0, g, strmLines, conv, fc);
    && r == StreamOutcome(sd, pktInitOk)
    && (r == Pending ==> sv == WithDefaultStream(sd.v, g))
    && (r == PktInitFailed ==> sv == sd.v)
  }

  /**
   * The body of the update branch (tmSched.c:1694-1744) for generation
   * g = !confId: the memsets, the queue numbering from the queuesNum in
   * force before the parse, the two parses, and, once the packets are
   * built, stream 0 and newConfig.
   */
  method ReloadGeneration(sc: SchedConf, ss: SchedState, cur: StreamIdCursor, scfLines: seq<string>,
                          strmLines: seq<string>, conv: Conv, fc: FloatChecks, pktInitOk: bool)
    returns (r: ReloadResult)
    modifies sc`schedMode, sc`queuesNum, sc`timeslotsPerSeq, sc`maxPktSize, sc`baseStreamId, sc`classifierType
    modifies sc`schedClassifierType, sc`ecnThreshold, sc`ecnMarkThreshold, sc`vlanTable
    modifies sc`pss, sc`bundleConf, sc`pathConf, sc`streamCfg, sc`streamsBaseNum, sc`numStreams, sc`newConfig
    modifies ss`gbsBundle, ss`gbsQueue, cur`streamIdNext
    ensures GenerationReloaded(r, OtherGen(sc.confId), old(PS.ScfOf(sc)), old(StrmOf(sc, cur)), PS.ScfOf(sc),
                               StrmOf(sc, cur), scfLines, strmLines, conv, fc, pktInitOk)
    ensures var g := OtherGen(sc.confId);
      && ss.gbsBundle == ClearCredits(old(ss.gbsBundle), g)
      && ss.gbsQueue == old(ss.gbsQueue)[g := NumberedQueues(old(sc.queuesNum))]
    ensures sc.newConfig == (r == Pending || old(sc.newConfig))
  {
    var g := OtherGen(sc.confId);
    ghost var v0, sv0 := PS.ScfOf(sc), StrmOf(sc, cur);
    var out := ParseNewConf(sc, ss, cur, g, scfLines, conv);
    ghost var v2 := PS.ScfOf(sc);
    if out.Undefined? {
      r := ReloadUndefined;
    } else if out.Exited? || out.ret != 0 {
      r := ReloadExited;
    } else {
      r := InstallStreams(sc, cur, g, strmLines, conv, fc, pktInitOk);
    }
    ReloadSteps(r, g, v0, sv0, out, v2, PS.ScfOf(sc), StrmOf(sc, cur), scfLines, strmLines, conv, fc, pktInitOk);
  }

  /** The update branch's three exits, in terms of the scheduler parse's outcome, give GenerationReloaded. */
  lemma ReloadSteps(r: ReloadResult, g: PS.Gen, v0: PS.ScfView, sv0: StrmView, out: Outcome, v2: PS.ScfView,
                    v: PS.ScfView, sv: StrmView, scfLines: seq<string>, strmLines: seq<string>, conv: Conv,
                    fc: FloatChecks, pktInitOk: bool)
    requires var d := ReloadScf(v0, g, scfLines, conv);
      out == OutcomeOf(d) && (d.DriveEnd? || d.DriveFailed? ==> v2 == d.v)
    requires out.Undefined? ==> r == ReloadUndefined
    requires out.Exited? || (out.Returned? && out.ret != 0) ==> r == ReloadExited
    requires out == Returned(0) ==> v == v2 && StreamsInstalled(r, g, sv0, sv, strmLines, conv, fc, pktInitOk)
    ensures GenerationReloaded(r, g, v0, sv0, v, sv, scfLines, strmLines, conv, fc, pktInitOk)
  {
  }

  /**
   * The rest of the update branch once the scheduler file has parsed
   * (tmSched.c:1722-1744): the stream parse, the packet building and, when
   * both succeed, stream 0 and newConfig.
   */
  method InstallStreams(sc: SchedConf, cur: StreamIdCursor, g: PS.Gen, strmLines: seq<string>, conv: Conv,
                        fc: FloatChecks, pktInitOk: bool)
    returns (r: ReloadResult)
    modifies sc`streamCfg, sc`streamsBaseNum, sc`numStreams, sc`newConfig, cur`streamIdNext
    ensures StreamsInstalled(r, g, old(StrmOf(sc, cur)), StrmOf(sc, cur), strmLines, conv, fc, pktInitOk)
    ensures PS.ScfOf(sc) == old(PS.ScfOf(sc))
    ensures sc.newConfig == (r == Pending || old(sc.newConfig))
  {
    var sout := ParseNewStreams(sc, cur, g, strmLines, conv, fc);
    if sout.Undefined? {
      return ReloadUndefined;
    }
    if sout.Exited? || sout.ret != 0 {
      return ReloadExited;
    }
    if !pktInitOk {
      return PktInitFailed;
    }
    StoreDefaultStream(sc, cur, g);
    sc.newConfig := true;
    return Pending;
  }

  /** The memsets and queue numbering of generation g, then the scheduler file parse (tmSched.c:1699-1713). */
  method ParseNewConf(sc: SchedConf, ss: SchedState, cur: StreamIdCursor, g: PS.Gen, lines: seq<string>, conv: Conv)
    returns (out: Outcome)
    modifies sc`schedMode, sc`queuesNum, sc`timeslotsPerSeq, sc`maxPktSize, sc`baseStreamId, sc`classifierType
    modifies sc`schedClassifierType, sc`ecnThreshold, sc`ecnMarkThreshold, sc`vlanTable
    modifies sc`pss, sc`bundleConf, sc`pathConf, ss`gbsBundle, ss`gbsQueue
    ensures var d := ReloadScf(old(PS.ScfOf(sc)), g, lines, conv);
      out == OutcomeOf(d) && (d.DriveEnd? || d.DriveFailed? ==> PS.ScfOf(sc) == d.v)
    ensures StrmOf(sc, cur) == old(StrmOf(sc, cur))
    ensures ss.gbsBundle == ClearCredits(old(ss.gbsBundle), g)
    ensures ss.gbsQueue == old(ss.gbsQueue)[g := NumberedQueues(old(sc.queuesNum))]
  {
    ClearGeneration(sc, ss, cur, g);
    out := PS.ParseScfCfgFile(sc, g, lines, conv);
  }

  /** The memsets of generation g and the queue numbering (tmSched.c:1699-1710). */
  method ClearGeneration(sc: SchedConf, ss: SchedState, ghost cur: StreamIdCursor, g: PS.Gen)
    modifies sc`pss, sc`bundleConf, ss`gbsBundle, ss`gbsQueue
    ensures PS.ScfOf(sc) == ClearConf(old(PS.ScfOf(sc)), g) && StrmOf(sc, cur) == old(StrmOf(sc, cur))
    ensures ss.gbsBundle == ClearCredits(old(ss.gbsBundle), g)
    ensures ss.gbsQueue == old(ss.gbsQueue)[g := NumberedQueues(old(sc.queuesNum))]
  {
    var pss: PssTable := sc.pss[g := ZeroSlots()];
    sc.pss := pss;
    var bundleConf: BundleTable := sc.bundleConf[g := ZeroBundles()];
    sc.bundleConf := bundleConf;
    ss.gbsBundle := ClearCredits(ss.gbsBundle, g);
    NumberQueues(ss, g, sc.queuesNum);
  }

  /** The stream reset and the stream file parse (tmSched.c:1722-1728). */
  method ParseNewStreams(sc: SchedConf, cur: StreamIdCursor, g: PS.Gen, lines: seq<string>, conv: Conv, fc: FloatChecks)
    returns (out: Outcome)
    modifies sc`streamCfg, sc`streamsBaseNum, sc`numStreams, cur`streamIdNext
    ensures var d := ReloadStreams(old(StrmOf(sc, cur)), g, lines, conv, fc);
      out == OutcomeOf(d) && (d.DriveEnd? || d.DriveFailed? ==> StrmOf(sc, cur) == d.v)
    ensures PS.ScfOf(sc) == old(PS.ScfOf(sc))
  {
    var t: StreamTable := sc.streamCfg[g := ZeroStreams()];
    sc.streamCfg := t;
    sc.streamsBaseNum := 0;
    sc.numStreams := 0;
    out := ParseStreamFile(sc, cur, g, lines, conv, fc);
  }

  /**
   * SchedMainThread's locals that outlive an iteration: whether the first
   * check has recorded the file's time, and which buffers to free next.
   */
  class ReloadWatch {
    var firstChecked: bool
    var freeOldBuffer: bool
    var thisConfig: nat

    constructor ()
      ensures !firstChecked && !freeOldBuffer && thisConfig == 0
    {
      firstChecked := false;
      freeOldBuffer := false;
      thisConfig := 0;
    }
  }

  /** How one configuration check ends. */
  datatype CheckResult = StatFailed | NotModified | Reloaded(r: ReloadResult)

  /** What a reload reads besides the state: the two files, the conversions and the packet building's success. */
  datatype ReloadInput = ReloadInput(scfLines: seq<string>, strmLines: seq<string>, conv: Conv, fc: FloatChecks,
                                     pktInitOk: bool)

  /**
   * The state a reload of generation !confId at time mtime leaves, from
   * the configuration v0, streams sv0, queue records q0 and bundle
   * credits b0 it started from: the recorded time, the cleared credits
   * and numbered queues, and, when it returns, both parses' results in
   * the new generation, the live one as it was, and on success stream 0,
   * newConfig and the buffers to free.
   */
  ghost predicate ReloadDone(rw: ReloadWatch, sc: SchedConf, ss: SchedState, cur: StreamIdCursor, v0: PS.ScfView,
                             sv0: StrmView, q0: QueueTable, b0: CreditTable, mtime: int, inp: ReloadInput,
                             r: ReloadResult)
    reads rw, sc, ss, cur
  {
    var g := OtherGen(sc.confId);
    && GenerationReloaded(r, g, v0, sv0, PS.ScfOf(sc), StrmOf(sc, cur), inp.scfLines, inp.strmLines, inp.conv,
                          inp.fc, inp.pktInitOk)
    && sc.lastUpdateTime == mtime
    && ss.gbsQueue == q0[g := NumberedQueues(v0.queuesNum)]
    && ss.gbsBundle == ClearCredits(b0, g)
    && (r == Pending || r == PktInitFailed ==> LiveGenerationKept(g, v0, sv0, PS.ScfOf(sc), StrmOf(sc, cur)))
    && (r == Pending ==> sc.newConfig && rw.freeOldBuffer && rw.thisConfig == sc.confId)
  }

  /** A returning reload of g leaves nonzero slot and queue counts, and generation 1 - g as it was. */
  ghost predicate LiveGenerationKept(g: PS.Gen, v0: PS.ScfView, sv0: StrmView, v: PS.ScfView, sv: StrmView)
  {
    && v.timeslotsPerSeq != 0 && v.queuesNum != 0
    && v.pss[1 - g] == v0.pss[1 - g] && v.bundleConf[1 - g] == v0.bundleConf[1 - g]
    && v.pathConf[1 - g] == v0.pathConf[1 - g] && sv.streamCfg[1 - g] == sv0.streamCfg[1 - g]
  }

  /** GenerationReloaded for a reload that returns gives LiveGenerationKept. */
  lemma ReloadKeepsLiveGeneration(r: ReloadResult, g: PS.Gen, v0: PS.ScfView, sv0: StrmView, v: PS.ScfView,
                                  sv: StrmView, inp: ReloadInput)
    requires GenerationReloaded(r, g, v0, sv0, v, sv, inp.scfLines, inp.strmLines, inp.conv, inp.fc, inp.pktInitOk)
    requires r == Pending || r == PktInitFailed
    ensures LiveGenerationKept(g, v0, sv0, v, sv)
  {
    ReloadedGeneration(v0, sv0, g, inp.scfLines, inp.strmLines, inp.conv, inp.fc, inp.pktInitOk);
  }

  /** The update branch (tmSched.c:1694-1746): reload generation !confId, then record the file's time. */
  method UpdateConfig(rw: ReloadWatch, sc: SchedConf, ss: SchedState, cur: StreamIdCursor, mtime: int,
                      inp: ReloadInput)
    returns (r: ReloadResult)
    modifies rw`freeOldBuffer, rw`thisConfig, sc`lastUpdateTime
    modifies sc`schedMode, sc`queuesNum, sc`timeslotsPerSeq, sc`maxPktSize, sc`baseStreamId, sc`classifierType
    modifies sc`schedClassifierType, sc`ecnThreshold, sc`ecnMarkThreshold, sc`vlanTable
    modifies sc`pss, sc`bundleConf, sc`pathConf, sc`streamCfg, sc`streamsBaseNum, sc`numStreams, sc`newConfig
    modifies ss`gbsBundle, ss`gbsQueue, cur`streamIdNext
    ensures ReloadDone(rw, sc, ss, cur, old(PS.ScfOf(sc)), old(StrmOf(sc, cur)), old(ss.gbsQueue), old(ss.gbsBundle),
                       mtime, inp, r)
  {
    ghost var v0, sv0 := PS.ScfOf(sc), StrmOf(sc, cur);
    r := ReloadGeneration(sc, ss, cur, inp.scfLines, inp.strmLines, inp.conv, inp.fc, inp.pktInitOk);
    if r == Pending || r == PktInitFailed {
      ReloadKeepsLiveGeneration(r, OtherGen(sc.confId), v0, sv0, PS.ScfOf(sc), StrmOf(sc, cur), inp);
    }
    if r == Pending {
      rw.freeOldBuffer := true;
      rw.thisConfig := sc.confId;
    }
    sc.lastUpdateTime := mtime;
  }

  /**
   * One configuration check (tmSched.c:1672-1747). A failed stat changes
   * nothing. The first check records the file's time, so it never reloads.
   * A later time reloads generation !confId, and the time is recorded
   * whatever the reload's end. Generation confId, which the dequeue loop
   * is reading, is not written, and neither are the rings nor the path
   * credits.
   */
  method CheckConfig(rw: ReloadWatch, sc: SchedConf, ss: SchedState, cur: StreamIdCursor, mtime: Option<int>,
                     inp: ReloadInput)
    returns (c: CheckResult)
    modifies rw, sc`lastUpdateTime
    modifies sc`schedMode, sc`queuesNum, sc`timeslotsPerSeq, sc`maxPktSize, sc`baseStreamId, sc`classifierType
    modifies sc`schedClassifierType, sc`ecnThreshold, sc`ecnMarkThreshold, sc`vlanTable
    modifies sc`pss, sc`bundleConf, sc`pathConf, sc`streamCfg, sc`streamsBaseNum, sc`numStreams, sc`newConfig
    modifies ss`gbsBundle, ss`gbsQueue, cur`streamIdNext
    ensures c == StatFailed <==> mtime.None?
    ensures c == StatFailed ==> unchanged(rw, sc, ss, cur)
    ensures mtime.Some? ==> rw.firstChecked
    ensures c == NotModified <==>
      mtime.Some? && (!old(rw.firstChecked) || mtime.value <= old(sc.lastUpdateTime))
    ensures c == NotModified ==>
      && unchanged(ss, cur) && PS.ScfOf(sc) == old(PS.ScfOf(sc)) && StrmOf(sc, cur) == old(StrmOf(sc, cur))
      && sc.newConfig == old(sc.newConfig)
      && sc.lastUpdateTime == (if old(rw.firstChecked) then old(sc.lastUpdateTime) else mtime.value)
    ensures c.Reloaded? ==>
      ReloadDone(rw, sc, ss, cur, old(PS.ScfOf(sc)), old(StrmOf(sc, cur)), old(ss.gbsQueue), old(ss.gbsBundle),
                 mtime.value, inp, c.r)
    ensures sc.confId == old(sc.confId) && ss.gbsRings == old(ss.gbsRings) && ss.gbsPath == old(ss.gbsPath)
  {
    if mtime.None? {
      return StatFailed;
    }
    if !rw.firstChecked {
      // The comparison that follows in the source then finds the time just recorded: no reload.
      sc.lastUpdateTime := mtime.value;
      rw.firstChecked := true;
      return NotModified;
    }
    if mtime.value <= sc.lastUpdateTime {
      return NotModified;
    }
    var r := UpdateConfig(rw, sc, ss, cur, mtime.value, inp);
    return Reloaded(r);
  }

  // ---------------------------------------------------------------------
  // Ring pointers as written (tmSched.c:188, :625, :1135, :1699-1702)
  // ---------------------------------------------------------------------

  /** A QueueState.rxRing: NULL, or ring i of CreateFifoRings. */
  datatype RingRef = NullRing | Ring(id: nat)

  /** The rxRing pointers of gbsQueue[g][q] after CreateFifoRings: generation 0 only. */
  function InstalledRingsAsWritten(): seq<seq<RingRef>>
  {
    [seq(NUM_GBSQUEUES_MAX, q requires 0 <= q => Ring(q)), seq(NUM_GBSQUEUES_MAX, _ => NullRing)]
  }

  /** The reload's memset of gbsQueue[g] clears its ring pointers with the rest. */
  function ClearRingsAsWritten(p: seq<seq<RingRef>>, g: PS.Gen): seq<seq<RingRef>>
    requires |p| == NUM_GENERATIONS
  {
    p[g := seq(NUM_GBSQUEUES_MAX, _ => NullRing)]
  }

  /**
   * As written, the dequeue scan reads the ring of gbsQueue[confId][q] and
   * the enqueue path that of gbsQueue[0][q]. After one reload (into
   * generation 1) and the switch to it, the scan finds no ring for any
   * queue; after a second reload (into generation 0) the enqueue path finds
   * none either. The rings of the model are SchedState.gbsRings, outside
   * the generations, and a reload does not write them (CheckConfig).
   */
  lemma RingsLostAsWritten()
    ensures var p1 := ClearRingsAsWritten(InstalledRingsAsWritten(), 1);
      && (forall q :: 0 <= q < NUM_GBSQUEUES_MAX ==> InstalledRingsAsWritten()[0][q] == Ring(q))
      && (forall q :: 0 <= q < NUM_GBSQUEUES_MAX ==> p1[1][q] == NullRing)
      && (forall q :: 0 <= q < NUM_GBSQUEUES_MAX ==> ClearRingsAsWritten(p1, 0)[0][q] == NullRing)
  {
  }
}
