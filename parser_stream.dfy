/**
 * The stream configuration file parser (DaaS/PoCPhase3/tm10/parserCfgStream.c):
 * the [CONFIG_STREAMS] row handler, which checks a stream's fields and
 * stores it in generation confId of streamCfg, and the section driver that
 * feeds it the file's rows.
 *
 * Stream ids must be consecutive, starting anywhere in 1..16. The handler
 * keeps the next expected id in a function-local static, modelled as the
 * one field of StreamIdCursor. SchedConf.streamsBaseNum remembers the first
 * id, and a stream is stored at STREAM_ID_TO_IDX, its id less that base
 * plus one.
 */
module ParserStream {
  import opened TmDefs
  import opened SchedSpec
  import opened SchedData
  import opened ParserLib
  import PS = ParserSched

  const STREAM_SECTIONS: seq<string> := ["[CONFIG_DESCRIPTION]", "[CONFIG_STREAMS]"]
  const SECT_STREAMS: nat := 1
  /** TL_STREAMTOKENS */
  const STREAM_TOKENS: nat := 10
  const PKT_SIZE_MIN: nat := 64
  const PKT_SIZE_MAX: nat := 4000
  const STREAM_VLAN_ID_MAX: nat := 4095
  const STREAM_VLAN_PRI_MAX: nat := 7
  const STREAM_TTL: nat := 128
  /** IPPROTO_UDP */
  const STREAM_PROTOCOL: nat := 17

  /**
   * The row's floating-point tests, whose strtof conversions are not
   * modelled: rateInRange says the rate lies in 0..linkSpeedMbpsConf, and
   * nonNegative that an average on or off time is not negative.
   */
  datatype FloatChecks = FloatChecks(rateInRange: string -> bool, nonNegative: string -> bool)

  /** The handler's static int streamIdNext, zero before the first row. */
  class StreamIdCursor {
    var streamIdNext: int

    constructor ()
      ensures streamIdNext == 0
    {
      streamIdNext := 0;
    }
  }

  /** What a stream file parse reads and writes. */
  datatype StrmView = StrmView(streamCfg: StreamTable, streamsBaseNum: int, numStreams: int, streamIdNext: int)

  ghost function StrmOf(sc: SchedConf, cur: StreamIdCursor): StrmView
    reads sc, cur
  {
    StrmView(sc.streamCfg, sc.streamsBaseNum, sc.numStreams, cur.streamIdNext)
  }

  /** A handler's return value, and the state it leaves when it returns at all. */
  ghost predicate StrmHandled(sc: SchedConf, cur: StreamIdCursor, st: RowStep<StrmView>, res: RowResult)
    reads sc, cur
  {
    res == st.res && (res == RowOk || res == RowFailed ==> StrmOf(sc, cur) == st.v)
  }

  /**
   * The counters agree: either no stream has been read since the reset, or
   * the next expected id follows the base by the number of streams read,
   * and ids stay within 1..16.
   */
  predicate StreamsCoherent(v: StrmView)
  {
    (v.streamsBaseNum == 0 && v.numStreams == 0) ||
    (1 <= v.streamsBaseNum && 0 <= v.numStreams &&
     v.streamIdNext == v.streamsBaseNum + v.numStreams <= NUM_STREAMS_MAX + 1)
  }

  /** Streams 1..numStreams of generation g carry the ids base, base + 1, ... in order. */
  predicate StoredInOrder(v: StrmView, g: PS.Gen)
  {
    StreamsCoherent(v) &&
    forall k :: 1 <= k <= v.numStreams ==> v.streamCfg[g][k].streamId == v.streamsBaseNum + k - 1
  }

  function SetStream(t: StreamTable, g: PS.Gen, idx: nat, e: StreamCfg): (r: StreamTable)
    requires idx <= NUM_STREAMS_MAX
    ensures r == t[g := t[g][idx := e]]
  {
    t[g := t[g][idx := e]]
  }

  /** The four octets sscanf stores into srcIP or dstIP. */
  function QuadBytes(q: Quad): (r: seq<int>)
    ensures |r| == 4 && forall i :: 0 <= i < 4 ==> r[i] == q[i] as int
  {
    seq(4, i requires 0 <= i < 4 => q[i] as int)
  }

  /** The stream record after an accepted row; the fields the row does not set keep what the table held. */
  function StreamEntry(e: StreamCfg, streamId: int, src: Quad, dst: Quad, pktsize: nat, vlanId: nat, vlanPri: nat)
    : (r: StreamCfg)
    ensures r.ttl == STREAM_TTL && r.protocol == STREAM_PROTOCOL && r.dominance == e.dominance
    ensures r.streamId == streamId && r.pktsize == pktsize && r.vlanId == vlanId && r.vlanPri == vlanPri
    ensures |r.srcIP| == 4 && |r.dstIP| == 4
  {
    e.(streamId := streamId, srcIP := QuadBytes(src), dstIP := QuadBytes(dst), pktsize := pktsize,
       vlanId := vlanId, vlanPri := vlanPri, ttl := STREAM_TTL, protocol := STREAM_PROTOCOL)
  }

  // ---------------------------------------------------------------------
  // [CONFIG_STREAMS] (DaaS/PoCPhase3/tm10/parserCfgStream.c:31-136)
  // ---------------------------------------------------------------------

  /**
   * app_parse_cfg_row_CONFIG_STREAMS on the row's tab-separated tokens.
   * Only a short row returns -1; every other rejection exits the process.
   * pktsize is cast to 16 bits and vlanId and vlanPri to 32 bits before
   * their range checks.
   */
  function StreamRow(v: StrmView, g: PS.Gen, ts: seq<string>, conv: Conv, fc: FloatChecks): (st: RowStep<StrmView>)
    ensures st.res == RowFailed <==> |ts| != STREAM_TOKENS
    ensures st.res != RowOk ==> st.v == v
    ensures st.v.streamCfg[1 - g] == v.streamCfg[1 - g]
    ensures StreamsCoherent(v) ==> st.res != RowUndefined
    ensures |ts| == STREAM_TOKENS && StreamsCoherent(v) ==>
      (st.res == RowOk <==>
        && 1 <= conv.atoi(ts[0]) <= NUM_STREAMS_MAX
        && (v.streamsBaseNum == 0 || conv.atoi(ts[0]) == v.streamIdNext)
        && conv.dottedQuad(ts[1]).Some? && conv.dottedQuad(ts[2]).Some?
        && fc.rateInRange(ts[3])
        && PKT_SIZE_MIN <= ToU16(conv.strtol(ts[5])) <= PKT_SIZE_MAX
        && ToU32(conv.strtol(ts[6])) <= STREAM_VLAN_ID_MAX
        && ToU32(conv.atoi(ts[7])) <= STREAM_VLAN_PRI_MAX
        && fc.nonNegative(ts[8]) && fc.nonNegative(ts[9]))
    ensures StreamsCoherent(v) && st.res == RowOk ==>
      |ts| == STREAM_TOKENS && 0 <= v.numStreams < NUM_STREAMS_MAX &&
      conv.dottedQuad(ts[1]).Some? && conv.dottedQuad(ts[2]).Some?
    ensures StreamsCoherent(v) && st.res == RowOk ==>
      var id := conv.atoi(ts[0]);
      var e := StreamEntry(v.streamCfg[g][v.numStreams + 1], id, conv.dottedQuad(ts[1]).value,
                           conv.dottedQuad(ts[2]).value, ToU16(conv.strtol(ts[5])),
                           ToU32(conv.strtol(ts[6])), ToU32(conv.atoi(ts[7])));
      && st.v.streamCfg == SetStream(v.streamCfg, g, v.numStreams + 1, e)
      && st.v.streamsBaseNum == (if v.streamsBaseNum == 0 then id else v.streamsBaseNum)
      && st.v.numStreams == v.numStreams + 1
      && st.v.streamIdNext == id + 1
      && StreamsCoherent(st.v)
  {
    if |ts| != STREAM_TOKENS then RowStep(RowFailed, v)
    else
      var streamId := conv.atoi(ts[0]);
      if streamId <= 0 || streamId > NUM_STREAMS_MAX then RowStep(RowExit, v)
      else
        var base := if v.streamsBaseNum == 0 then streamId else v.streamsBaseNum;
        var next := if v.streamsBaseNum == 0 then streamId else v.streamIdNext;
        if next != streamId then RowStep(RowExit, v)
        else
          var idx := StreamIdToIdx(streamId, base);
          if idx < 0 || idx > NUM_STREAMS_MAX then RowStep(RowUndefined, v)
          else
            var src := conv.dottedQuad(ts[1]);
            var dst := conv.dottedQuad(ts[2]);
            var pktsize := ToU16(conv.strtol(ts[5]));
            var vlanId := ToU32(conv.strtol(ts[6]));
            var vlanPri := ToU32(conv.atoi(ts[7]));
            if src.None? || dst.None? || !fc.rateInRange(ts[3])
               || pktsize < PKT_SIZE_MIN || pktsize > PKT_SIZE_MAX
               || vlanId > STREAM_VLAN_ID_MAX || vlanPri > STREAM_VLAN_PRI_MAX
               || !fc.nonNegative(ts[8]) || !fc.nonNegative(ts[9])
            then RowStep(RowExit, v)
            else
              var e := StreamEntry(v.streamCfg[g][idx], streamId, src.value, dst.value, pktsize, vlanId, vlanPri);
              RowStep(RowOk, StrmView(SetStream(v.streamCfg, g, idx, e), base, v.numStreams + 1, streamId + 1))
  }

  /** An accepted row appends a stream with the next id, so the table stays in id order. */
  lemma StreamRowKeepsOrder(v: StrmView, g: PS.Gen, ts: seq<string>, conv: Conv, fc: FloatChecks)
    requires StoredInOrder(v, g)
    ensures var st := StreamRow(v, g, ts, conv, fc);
      st.res == RowOk || st.res == RowFailed ==> StoredInOrder(st.v, g)
  {
    var st := StreamRow(v, g, ts, conv, fc);
    if st.res == RowOk {
      var n := v.numStreams;
      forall k | 1 <= k <= st.v.numStreams
        ensures st.v.streamCfg[g][k].streamId == st.v.streamsBaseNum + k - 1
      {
        if k <= n {
          assert st.v.streamCfg[g][k] == v.streamCfg[g][k];
        }
      }
    }
  }

  /** The handler of the row's section; [CONFIG_DESCRIPTION] rows are only printed. */
  function StreamSectRow(v: StrmView, g: PS.Gen, s: nat, text: string, conv: Conv, fc: FloatChecks): RowStep<StrmView>
  {
    if s == SECT_STREAMS then StreamRow(v, g, Fields(text, PS.TAB, STREAM_TOKENS), conv, fc) else RowStep(RowOk, v)
  }

  function StreamRowFn(g: PS.Gen, conv: Conv, fc: FloatChecks): (StrmView, nat, nat, string) -> RowStep<StrmView>
  {
    (v: StrmView, s: nat, sectRow: nat, text: string) => StreamSectRow(v, g, s, text, conv, fc)
  }

  /** app_parse_cfg_streamfile on a file's lines; there is no sanity check. */
  function StreamFile(v: StrmView, g: PS.Gen, lines: seq<string>, conv: Conv, fc: FloatChecks): DriveResult<StrmView>
  {
    Drive(v, lines, STREAM_SECTIONS, 0, 0, StreamRowFn(g, conv, fc))
  }

  /**
   * The driver as written reads a blank line in [CONFIG_STREAMS] as the row
   * "", which has none of the 10 fields, so the handler returns -1: the
   * parse fails, and app_parse_strmcf then exits. As intended the line is
   * skipped.
   */
  lemma BlankRowFailsAsWritten(v: StrmView, g: PS.Gen, after: seq<string>, conv: Conv, fc: FloatChecks)
    ensures StreamSectRow(v, g, SECT_STREAMS, "", conv, fc) == RowStep(RowFailed, v)
    ensures DriveAsWritten(v, [STREAM_SECTIONS[SECT_STREAMS], "\n"] + after, STREAM_SECTIONS, 0, 0, StreamRowFn(g, conv, fc))
      == DriveFailed(v)
    ensures StreamFile(v, g, [STREAM_SECTIONS[SECT_STREAMS], "\n"] + after, conv, fc)
      == StreamFile(v, g, [STREAM_SECTIONS[SECT_STREAMS]] + after, conv, fc)
  {
    assert Fields("", PS.TAB, STREAM_TOKENS) == [];
    var hdr := STREAM_SECTIONS[SECT_STREAMS];
    assert !(STREAM_SECTIONS[0] <= hdr) by { assert STREAM_SECTIONS[0][8] != hdr[8]; }
    SectionIndexIs(hdr, STREAM_SECTIONS, SECT_STREAMS);
    BlankRowAfterHeader(v, SECT_STREAMS, after, STREAM_SECTIONS, StreamRowFn(g, conv, fc));
  }

  /**
   * A parse that returns, started from the reset counters, leaves streams
   * 1..numStreams in id order: stream k has id streamsBaseNum + k - 1.
   */
  lemma StreamFileInOrder(v: StrmView, g: PS.Gen, lines: seq<string>, conv: Conv, fc: FloatChecks)
    requires StoredInOrder(v, g)
    ensures StreamFile(v, g, lines, conv, fc).DriveEnd? || StreamFile(v, g, lines, conv, fc).DriveFailed? ==>
      StoredInOrder(StreamFile(v, g, lines, conv, fc).v, g)
  {
    var row := StreamRowFn(g, conv, fc);
    var inv := (w: StrmView) => StoredInOrder(w, g);
    forall w, s', r, t | inv(w) && (row(w, s', r, t).res == RowOk || row(w, s', r, t).res == RowFailed)
      ensures inv(row(w, s', r, t).v)
    {
      if s' == SECT_STREAMS {
        StreamRowKeepsOrder(w, g, Fields(t, PS.TAB, STREAM_TOKENS), conv, fc);
      }
    }
    DriveKeeps(v, lines, STREAM_SECTIONS, 0, 0, row, inv);
  }

  /** The row handler: split the row, check each field, then store the stream. */
  method StreamHandler(sc: SchedConf, cur: StreamIdCursor, g: PS.Gen, text: string, conv: Conv, fc: FloatChecks)
    returns (res: RowResult)
    modifies sc`streamCfg, sc`streamsBaseNum, sc`numStreams, cur`streamIdNext
    ensures StrmHandled(sc, cur, StreamRow(old(StrmOf(sc, cur)), g, Fields(text, PS.TAB, STREAM_TOKENS), conv, fc), res)
  {
    var tokens := SplitFields(text, PS.TAB, STREAM_TOKENS);
    if |tokens| != STREAM_TOKENS {
      return RowFailed;
    }
    var streamId := conv.atoi(tokens[0]);
    if streamId <= 0 || streamId > NUM_STREAMS_MAX {
      return RowExit;
    }
    if sc.streamsBaseNum == 0 {
      sc.streamsBaseNum := streamId;
      cur.streamIdNext := streamId;
    }
    if cur.streamIdNext != streamId {
      return RowExit;
    }
    var idx := StreamIdToIdx(streamId, sc.streamsBaseNum);
    if idx < 0 || idx > NUM_STREAMS_MAX {
      return RowUndefined;
    }
    cur.streamIdNext := cur.streamIdNext + 1;
    var src := conv.dottedQuad(tokens[1]);
    if src.None? {
      return RowExit;
    }
    var dst := conv.dottedQuad(tokens[2]);
    if dst.None? {
      return RowExit;
    }
    if !fc.rateInRange(tokens[3]) {
      return RowExit;
    }
    var pktsize := ToU16(conv.strtol(tokens[5]));
    if pktsize < PKT_SIZE_MIN || pktsize > PKT_SIZE_MAX {
      return RowExit;
    }
    var vlanId := ToU32(conv.strtol(tokens[6]));
    if vlanId > STREAM_VLAN_ID_MAX {
      return RowExit;
    }
    var vlanPri := ToU32(conv.atoi(tokens[7]));
    if vlanPri > STREAM_VLAN_PRI_MAX {
      return RowExit;
    }
    if !fc.nonNegative(tokens[8]) || !fc.nonNegative(tokens[9]) {
      return RowExit;
    }
    var e := StreamEntry(sc.streamCfg[g][idx], streamId, src.value, dst.value, pktsize, vlanId, vlanPri);
    sc.streamCfg := SetStream(sc.streamCfg, g, idx, e);
    sc.numStreams := sc.numStreams + 1;
    return RowOk;
  }

  // ---------------------------------------------------------------------
  // Section driver (DaaS/PoCPhase3/tm10/parserCfgStream.c:138-239)
  // ---------------------------------------------------------------------

  /** The loop's progress: what is left of the file parses to what the whole file parses to. */
  ghost predicate StrmDriving(sc: SchedConf, cur: StreamIdCursor, v0: StrmView, g: PS.Gen, lines: seq<string>,
                              i: nat, s: nat, sectRow: nat, conv: Conv, fc: FloatChecks)
    reads sc, cur
  {
    i <= |lines| && s < |STREAM_SECTIONS| &&
    StreamFile(v0, g, lines, conv, fc) == Drive(StrmOf(sc, cur), lines[i..], STREAM_SECTIONS, s, sectRow, StreamRowFn(g, conv, fc))
  }

  /** One pass of the driver loop, as in the schedule file's driver. */
  method StrmDriveLine(sc: SchedConf, cur: StreamIdCursor, ghost v0: StrmView, g: PS.Gen, lines: seq<string>,
                       i: nat, s: nat, sectRow: nat, conv: Conv, fc: FloatChecks)
    returns (ret: int, stop: Option<Outcome>, s': nat, sectRow': nat)
    requires StrmDriving(sc, cur, v0, g, lines, i, s, sectRow, conv, fc) && i < |lines|
    modifies sc`streamCfg, sc`streamsBaseNum, sc`numStreams, cur`streamIdNext
    ensures var d0 := StreamFile(v0, g, lines, conv, fc);
      && (stop.Some? ==> OutcomeOf(d0) == stop.value && !stop.value.Returned?)
      && (stop.None? && ret == 0 ==> StrmDriving(sc, cur, v0, g, lines, i + 1, s', sectRow', conv, fc))
      && (stop.None? && ret != 0 ==> ret == -1 && d0 == DriveFailed(StrmOf(sc, cur)))
  {
    var line := lines[i];
    assert lines[i..][1..] == lines[i + 1..];
    stop, s', sectRow' := None, s, sectRow;
    ret := 0;
    if |line| == 0 || line[0] == '#' {
      return;
    }
    var copied := CopyLine(line);
    if |copied| == 0 {
      return;
    }
    if copied[0] == '[' {
      sectRow' := 0;
      var found := FindSection(copied, STREAM_SECTIONS);
      if found == |STREAM_SECTIONS| {
        ret := -1;
      } else {
        s' := found;
      }
      return;
    }
    var res := RowOk;
    if s == SECT_STREAMS {
      res := StreamHandler(sc, cur, g, copied, conv, fc);
    }
    if res == RowExit {
      stop := Some(Exited);
    } else if res == RowUndefined {
      stop := Some(Undefined);
    } else if res == RowFailed {
      ret := -1;
    } else {
      sectRow' := sectRow + 1;
    }
  }

  /** app_parse_cfg_streamfile: read the lines in order until the end or the first failure. */
  method ParseStreamFile(sc: SchedConf, cur: StreamIdCursor, g: PS.Gen, lines: seq<string>, conv: Conv, fc: FloatChecks)
    returns (out: Outcome)
    modifies sc`streamCfg, sc`streamsBaseNum, sc`numStreams, cur`streamIdNext
    ensures var d := StreamFile(old(StrmOf(sc, cur)), g, lines, conv, fc);
      out == OutcomeOf(d) && (d.DriveEnd? || d.DriveFailed? ==> StrmOf(sc, cur) == d.v)
  {
    ghost var v0 := StrmOf(sc, cur);
    var i: nat := 0;
    var s: nat := 0;
    var sectRow: nat := 0;
    var ret := 0;
    assert lines[0..] == lines;
    while i < |lines| && ret >= 0
      invariant i <= |lines| && (ret == 0 || ret == -1)
      invariant ret == 0 ==> StrmDriving(sc, cur, v0, g, lines, i, s, sectRow, conv, fc)
      invariant ret == -1 ==> StreamFile(v0, g, lines, conv, fc) == DriveFailed(StrmOf(sc, cur))
      decreases |lines| - i
    {
      var stop;
      ret, stop, s, sectRow := StrmDriveLine(sc, cur, v0, g, lines, i, s, sectRow, conv, fc);
      if stop.Some? {
        return stop.value;
      }
      i := i + 1;
    }
    if ret == 0 {
      assert lines[i..] == [];
    }
    return Returned(ret);
  }
}
