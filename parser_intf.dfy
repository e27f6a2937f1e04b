/**
 * The interface configuration file parser (DaaS/PoCPhase3/tm10/parserCfgIntf.c):
 * an IntfConf record of MAC addresses and the header fields of the packets
 * the shaper generates itself, four row handlers that each take a
 * field-name / value pair, and the section driver.
 *
 * Every row needs two tab-separated tokens, or the handler returns -1; an
 * unknown field name or a bad value exits the process.
 */
module ParserIntf {
  import opened ParserLib
  import opened PktHdrs
  import PS = ParserSched

  const INTF_SECTIONS: seq<string> := [
    "[INTF_CONFIG_DESCRIPTION]", "[INTF_CONFIG_SCHED_MAC]", "[INTF_CONFIG_L2FWD_MAC]",
    "[INTF_CONFIG_VLAN_ENCAP]", "[INTF_CONFIG_SCHED]"]
  const SECT_INTF_DESCRIPTION: nat := 0
  const SECT_SCHED_MAC: nat := 1
  const SECT_L2FWD_MAC: nat := 2
  const SECT_VLAN_ENCAP: nat := 3
  const SECT_INTF_SCHED: nat := 4
  /** TL_TOKENS of every handler. */
  const INTF_TOKENS: nat := 2
  const INTF_VLAN_PRI_MAX: nat := 7
  const INTF_VLAN_ID_MAX: nat := 1023
  const DSCP_MAX: nat := 0x3f
  const ECN_MAX: nat := 3
  const PORT_MAX: nat := 0xffff
  const IP_VERSION_4: nat := 4

  /** The two forwarding paths whose MAC addresses the file sets. */
  datatype MacPath = SchedPath | L2fwdPath

  /** IntfConf, all zero as static storage leaves it. */
  class IntfConf {
    var schedSrc: MacAddr
    var schedDst: MacAddr
    var l2fwdSrc: MacAddr
    var l2fwdDst: MacAddr
    var vlanTag: bool
    var vlanPri: nat
    var vlanId: nat
    /** srcIP and dstIP hold the address in network byte order. */
    var srcIP: bv32
    var dstIP: bv32
    var ipVer: nat
    /** A 6-bit field. */
    var dscp: nat
    /** A 2-bit field. */
    var ecn: nat
    var dstPort: nat
    var hwChksumOffload: bool
    var updateSeqNo: bool

    constructor ()
      ensures IntfOf(this) == ZeroIntf()
    {
      schedSrc, schedDst, l2fwdSrc, l2fwdDst := ZERO_MAC_ADDR, ZERO_MAC_ADDR, ZERO_MAC_ADDR, ZERO_MAC_ADDR;
      vlanTag, vlanPri, vlanId := false, 0, 0;
      srcIP, dstIP, ipVer := 0, 0, 0;
      dscp, ecn, dstPort := 0, 0, 0;
      hwChksumOffload, updateSeqNo := false, false;
    }
  }

  const ZERO_MAC_ADDR: MacAddr := [0, 0, 0, 0, 0, 0]

  /** The values of an IntfConf. */
  datatype IntfView = IntfView(
    schedSrc: MacAddr, schedDst: MacAddr, l2fwdSrc: MacAddr, l2fwdDst: MacAddr,
    vlanTag: bool, vlanPri: nat, vlanId: nat, srcIP: bv32, dstIP: bv32, ipVer: nat,
    dscp: nat, ecn: nat, dstPort: nat, hwChksumOffload: bool, updateSeqNo: bool)

  function ZeroIntf(): IntfView
  {
    IntfView(ZERO_MAC_ADDR, ZERO_MAC_ADDR, ZERO_MAC_ADDR, ZERO_MAC_ADDR, false, 0, 0, 0, 0, 0, 0, 0, 0, false, false)
  }

  ghost function IntfOf(ic: IntfConf): IntfView
    reads ic
  {
    IntfView(ic.schedSrc, ic.schedDst, ic.l2fwdSrc, ic.l2fwdDst, ic.vlanTag, ic.vlanPri, ic.vlanId,
             ic.srcIP, ic.dstIP, ic.ipVer, ic.dscp, ic.ecn, ic.dstPort, ic.hwChksumOffload, ic.updateSeqNo)
  }

  /** A handler's return value, and the record it leaves when it returns at all. */
  ghost predicate IntfHandled(ic: IntfConf, st: RowStep<IntfView>, res: RowResult)
    reads ic
  {
    res == st.res && (res == RowOk || res == RowFailed ==> IntfOf(ic) == st.v)
  }

  /** Every numeric field within the range its handler accepts. */
  predicate IntfInRange(v: IntfView)
  {
    v.vlanPri <= INTF_VLAN_PRI_MAX && v.vlanId <= INTF_VLAN_ID_MAX && v.dscp <= DSCP_MAX && v.ecn <= ECN_MAX &&
    v.dstPort <= PORT_MAX && (v.ipVer == 0 || v.ipVer == IP_VERSION_4)
  }

  // ---------------------------------------------------------------------
  // parse_ipv4_str (DaaS/PoCPhase3/tm10/parserCfgIntf.c:22-33)
  // ---------------------------------------------------------------------

  /**
   * Four dotted octets a.b.c.d, packed as a<<24 | b<<16 | c<<8 | d and then
   * turned to network order; a string without four octets fails. The
   * address is stored with its first octet at the lowest address.
   */
  function ParseIpv4Str(str: string, conv: Conv): (r: Option<bv32>)
    ensures r.None? <==> conv.dottedQuad(str).None?
    ensures r.Some? ==> HostBytes32(r.value) == conv.dottedQuad(str).value
  {
    match conv.dottedQuad(str)
    case None => None
    case Some(ip) =>
      NetworkStore32(ip[0], ip[1], ip[2], ip[3]);
      assert [ip[0], ip[1], ip[2], ip[3]] == ip;
      Some(Bswap32(Be32(ip[0], ip[1], ip[2], ip[3])))
  }

  /** Reading the stored address back in host order gives the packed octets a<<24 | b<<16 | c<<8 | d. */
  lemma ParseIpv4StrPacks(str: string, conv: Conv)
    requires conv.dottedQuad(str).Some?
    ensures var ip := conv.dottedQuad(str).value;
      Bswap32(ParseIpv4Str(str, conv).value) == Be32(ip[0], ip[1], ip[2], ip[3])
  {
    var ip := conv.dottedQuad(str).value;
    NetworkStore32(ip[0], ip[1], ip[2], ip[3]);
  }

  // ---------------------------------------------------------------------
  // Row handlers (DaaS/PoCPhase3/tm10/parserCfgIntf.c:44-219)
  // ---------------------------------------------------------------------

  /** [INTF_CONFIG_SCHED_MAC] and [INTF_CONFIG_L2FWD_MAC]: srcMAC or dstMAC of one path. */
  function PathMacRow(v: IntfView, path: MacPath, ts: seq<string>, conv: Conv): (st: RowStep<IntfView>)
    ensures st.res == RowFailed <==> |ts| != INTF_TOKENS
    ensures st.res != RowUndefined && (st.res != RowOk ==> st.v == v)
    ensures |ts| == INTF_TOKENS ==>
      (st.res == RowOk <==> (ts[0] == "srcMAC" || ts[0] == "dstMAC") && conv.macAddr(ts[1]).Some?)
    ensures st.res == RowOk ==> |ts| == INTF_TOKENS && conv.macAddr(ts[1]).Some?
    ensures st.res == RowOk ==>
      var m := conv.macAddr(ts[1]).value;
      st.v == (match (path, ts[0] == "srcMAC")
        case (SchedPath, true) => v.(schedSrc := m)
        case (SchedPath, false) => v.(schedDst := m)
        case (L2fwdPath, true) => v.(l2fwdSrc := m)
        case (L2fwdPath, false) => v.(l2fwdDst := m))
  {
    if |ts| != INTF_TOKENS then RowStep(RowFailed, v)
    else if ts[0] != "srcMAC" && ts[0] != "dstMAC" then RowStep(RowExit, v)
    else
      match conv.macAddr(ts[1])
      case None => RowStep(RowExit, v)
      case Some(m) =>
        var v' := if ts[0] == "srcMAC" then (if path == SchedPath then v.(schedSrc := m) else v.(l2fwdSrc := m))
                  else (if path == SchedPath then v.(schedDst := m) else v.(l2fwdDst := m));
        RowStep(RowOk, v')
  }

  /** "enable" and "disable", exactly. */
  function Switch(s: string): (r: Option<bool>)
    ensures r == Some(true) <==> s == "enable"
    ensures r == Some(false) <==> s == "disable"
  {
    if s == "enable" then Some(true) else if s == "disable" then Some(false) else None
  }

  /** [INTF_CONFIG_VLAN_ENCAP]: vlan enable/disable, vlanPri 0..7, vlanId 0..1023. */
  function VlanEncapRow(v: IntfView, ts: seq<string>, conv: Conv): (st: RowStep<IntfView>)
    ensures st.res == RowFailed <==> |ts| != INTF_TOKENS
    ensures st.res != RowUndefined && (st.res != RowOk ==> st.v == v)
    ensures |ts| == INTF_TOKENS ==>
      (st.res == RowOk <==>
        || (ts[0] == "vlan" && (ts[1] == "enable" || ts[1] == "disable"))
        || (ts[0] == "vlanPri" && 0 <= conv.atoi(ts[1]) <= INTF_VLAN_PRI_MAX)
        || (ts[0] == "vlanId" && 0 <= conv.atoi(ts[1]) <= INTF_VLAN_ID_MAX))
    ensures st.res == RowOk ==> |ts| == INTF_TOKENS
    ensures st.res == RowOk ==>
      && (ts[0] == "vlan" ==> st.v == v.(vlanTag := ts[1] == "enable"))
      && (ts[0] == "vlanPri" ==> st.v == v.(vlanPri := conv.atoi(ts[1])))
      && (ts[0] == "vlanId" ==> st.v == v.(vlanId := conv.atoi(ts[1])))
  {
    if |ts| != INTF_TOKENS then RowStep(RowFailed, v)
    else if ts[0] == "vlan" then
      match Switch(ts[1])
      case None => RowStep(RowExit, v)
      case Some(on) => RowStep(RowOk, v.(vlanTag := on))
    else if ts[0] == "vlanPri" then
      var l := conv.atoi(ts[1]);
      if l < 0 || l > INTF_VLAN_PRI_MAX then RowStep(RowExit, v) else RowStep(RowOk, v.(vlanPri := l))
    else if ts[0] == "vlanId" then
      var l := conv.atoi(ts[1]);
      if l < 0 || l > INTF_VLAN_ID_MAX then RowStep(RowExit, v) else RowStep(RowOk, v.(vlanId := l))
    else RowStep(RowExit, v)
  }

  /**
   * The dscp test as written: only values above 0x3f exit, and the value
   * stored into the 6-bit field is the long reduced modulo 64.
   */
  function DscpAsWritten(dscp: int): (r: Option<nat>)
    ensures r.Some? <==> dscp <= DSCP_MAX
    ensures r.Some? ==> r.value == dscp % 64
  {
    if dscp > DSCP_MAX then None else Some(dscp % 64)
  }

  /** A negative dscp passes the test and is stored as a different code point: "-1" becomes 63. */
  lemma DscpAsWrittenWraps()
    ensures DscpAsWritten(-1) == Some(63)
    ensures DscpAsWritten(-64) == Some(0)
  {
  }

  /** The dscp test the error message describes: 0..63, stored unchanged. */
  function Dscp(dscp: int): (r: Option<nat>)
    ensures r.Some? <==> 0 <= dscp <= DSCP_MAX
    ensures r.Some? ==> r.value == dscp && r.value <= DSCP_MAX
  {
    if dscp < 0 || dscp > DSCP_MAX then None else Some(dscp)
  }

  /** On the values the message allows the two tests agree. */
  lemma DscpAgreesInRange(dscp: int)
    requires 0 <= dscp
    ensures Dscp(dscp) == DscpAsWritten(dscp)
  {
  }

  /** The field names of [INTF_CONFIG_SCHED], in the order the strcmp chain tries them. */
  datatype SchedFieldName = IpVer | SrcIp | DstIp | DscpField | EcnField | DstPort | UpdateSeqNo | HwChksumOffload
                          | UnknownField

  /** The strcmp chain over the field names. */
  function SchedFieldNamed(field: string): (n: SchedFieldName)
    ensures n == IpVer <==> field == "ipVer"
    ensures n == SrcIp <==> field == "srcIP"
    ensures n == DstIp <==> field == "dstIP"
    ensures n == DscpField <==> field == "dscp"
    ensures n == EcnField <==> field == "ecn"
    ensures n == DstPort <==> field == "dstPort"
    ensures n == UpdateSeqNo <==> field == "updateSeqNo"
    ensures n == HwChksumOffload <==> field == "hwChksumOffload"
  {
    if field == "ipVer" then IpVer
    else if field == "srcIP" then SrcIp
    else if field == "dstIP" then DstIp
    else if field == "dscp" then DscpField
    else if field == "ecn" then EcnField
    else if field == "dstPort" then DstPort
    else if field == "updateSeqNo" then UpdateSeqNo
    else if field == "hwChksumOffload" then HwChksumOffload
    else UnknownField
  }

  /**
   * One field of [INTF_CONFIG_SCHED]: ipVer IPV4, srcIP and dstIP as dotted
   * quads, dscp 0..63, ecn 0..3, dstPort 0..0xffff, and two enable/disable
   * switches.
   */
  function SchedField(v: IntfView, field: string, arg: string, conv: Conv): (st: RowStep<IntfView>)
    ensures (st.res == RowOk || st.res == RowExit) && (st.res == RowExit ==> st.v == v)
    ensures st.res == RowOk <==>
      || (field == "ipVer" && arg == "IPV4")
      || ((field == "srcIP" || field == "dstIP") && conv.dottedQuad(arg).Some?)
      || (field == "dscp" && 0 <= conv.strtol(arg) <= DSCP_MAX)
      || (field == "ecn" && 0 <= conv.atoi(arg) <= ECN_MAX)
      || (field == "dstPort" && 0 <= conv.strtol(arg) <= PORT_MAX)
      || ((field == "updateSeqNo" || field == "hwChksumOffload") && (arg == "enable" || arg == "disable"))
    ensures st.res == RowOk ==>
      && (field == "ipVer" ==> st.v == v.(ipVer := IP_VERSION_4))
      && (field == "srcIP" ==> st.v == v.(srcIP := ParseIpv4Str(arg, conv).value))
      && (field == "dstIP" ==> st.v == v.(dstIP := ParseIpv4Str(arg, conv).value))
      && (field == "dscp" ==> st.v == v.(dscp := conv.strtol(arg)))
      && (field == "ecn" ==> st.v == v.(ecn := conv.atoi(arg)))
      && (field == "dstPort" ==> st.v == v.(dstPort := conv.strtol(arg)))
      && (field == "updateSeqNo" ==> st.v == v.(updateSeqNo := arg == "enable"))
      && (field == "hwChksumOffload" ==> st.v == v.(hwChksumOffload := arg == "enable"))
  {
    match SchedFieldNamed(field)
    case IpVer =>
      if arg == "IPV4" then RowStep(RowOk, v.(ipVer := IP_VERSION_4)) else RowStep(RowExit, v)
    case SrcIp =>
      (match ParseIpv4Str(arg, conv)
       case None => RowStep(RowExit, v)
       case Some(ip) => RowStep(RowOk, v.(srcIP := ip)))
    case DstIp =>
      (match ParseIpv4Str(arg, conv)
       case None => RowStep(RowExit, v)
       case Some(ip) => RowStep(RowOk, v.(dstIP := ip)))
    case DscpField =>
      (match Dscp(conv.strtol(arg))
       case None => RowStep(RowExit, v)
       case Some(d) => RowStep(RowOk, v.(dscp := d)))
    case EcnField =>
      var ecn := conv.atoi(arg);
      if ecn < 0 || ecn > ECN_MAX then RowStep(RowExit, v) else RowStep(RowOk, v.(ecn := ecn))
    case DstPort =>
      var port := conv.strtol(arg);
      if port < 0 || port > PORT_MAX then RowStep(RowExit, v) else RowStep(RowOk, v.(dstPort := port))
    case UpdateSeqNo =>
      (match Switch(arg)
       case None => RowStep(RowExit, v)
       case Some(on) => RowStep(RowOk, v.(updateSeqNo := on)))
    case HwChksumOffload =>
      (match Switch(arg)
       case None => RowStep(RowExit, v)
       case Some(on) => RowStep(RowOk, v.(hwChksumOffload := on)))
    case UnknownField => RowStep(RowExit, v)
  }

  /** [INTF_CONFIG_SCHED]: a row of two tokens, a field name and its value. */
  function IntfSchedRow(v: IntfView, ts: seq<string>, conv: Conv): (st: RowStep<IntfView>)
    ensures st.res == RowFailed <==> |ts| != INTF_TOKENS
    ensures st.res != RowUndefined && (st.res != RowOk ==> st.v == v)
  {
    if |ts| != INTF_TOKENS then RowStep(RowFailed, v) else SchedField(v, ts[0], ts[1], conv)
  }

  /** icfSectMap[s].fnptr on one row; [INTF_CONFIG_DESCRIPTION] rows are only printed. */
  function IntfRow(v: IntfView, s: nat, text: string, conv: Conv): RowStep<IntfView>
  {
    var ts := Fields(text, PS.TAB, INTF_TOKENS);
    if s == SECT_SCHED_MAC then PathMacRow(v, SchedPath, ts, conv)
    else if s == SECT_L2FWD_MAC then PathMacRow(v, L2fwdPath, ts, conv)
    else if s == SECT_VLAN_ENCAP then VlanEncapRow(v, ts, conv)
    else if s == SECT_INTF_SCHED then IntfSchedRow(v, ts, conv)
    else RowStep(RowOk, v)
  }

  function IntfRowFn(conv: Conv): (IntfView, nat, nat, string) -> RowStep<IntfView>
  {
    (v: IntfView, s: nat, sectRow: nat, text: string) => IntfRow(v, s, text, conv)
  }

  /** app_parse_icf_cfgfile on a file's lines; there is no sanity check. */
  function IntfFile(v: IntfView, lines: seq<string>, conv: Conv): DriveResult<IntfView>
  {
    Drive(v, lines, INTF_SECTIONS, 0, 0, IntfRowFn(conv))
  }

  /** Each [INTF_CONFIG_SCHED] field is stored only within its checked range. */
  lemma SchedFieldInRange(v: IntfView, field: string, arg: string, conv: Conv)
    requires IntfInRange(v)
    ensures IntfInRange(SchedField(v, field, arg, conv).v)
  {
  }

  /** A MAC row changes only MAC addresses. */
  lemma PathMacInRange(v: IntfView, path: MacPath, ts: seq<string>, conv: Conv)
    requires IntfInRange(v)
    ensures IntfInRange(PathMacRow(v, path, ts, conv).v)
  {
  }

  /** vlanPri and vlanId are stored only within their checked ranges. */
  lemma VlanEncapInRange(v: IntfView, ts: seq<string>, conv: Conv)
    requires IntfInRange(v)
    ensures IntfInRange(VlanEncapRow(v, ts, conv).v)
  {
  }

  /** No handler stores a value outside the range it checks. */
  lemma IntfRowInRange(v: IntfView, s: nat, text: string, conv: Conv)
    requires IntfInRange(v)
    ensures IntfInRange(IntfRow(v, s, text, conv).v)
  {
    var ts := Fields(text, PS.TAB, INTF_TOKENS);
    if s == SECT_SCHED_MAC {
      PathMacInRange(v, SchedPath, ts, conv);
    } else if s == SECT_L2FWD_MAC {
      PathMacInRange(v, L2fwdPath, ts, conv);
    } else if s == SECT_VLAN_ENCAP {
      VlanEncapInRange(v, ts, conv);
    } else if s == SECT_INTF_SCHED && |ts| == INTF_TOKENS {
      SchedFieldInRange(v, ts[0], ts[1], conv);
    }
  }

  /** A parse that returns, started from a record in range, leaves every numeric field in range. */
  lemma IntfFileInRange(v: IntfView, lines: seq<string>, conv: Conv)
    requires IntfInRange(v)
    ensures IntfFile(v, lines, conv).DriveEnd? || IntfFile(v, lines, conv).DriveFailed? ==>
      IntfInRange(IntfFile(v, lines, conv).v)
  {
    var row := IntfRowFn(conv);
    forall w, s', r, t | IntfInRange(w)
      ensures IntfInRange(row(w, s', r, t).v)
    {
      IntfRowInRange(w, s', t, conv);
    }
    DriveKeeps(v, lines, INTF_SECTIONS, 0, 0, row, IntfInRange);
  }

  /** Each header is one line that starts with '['. */
  lemma IntfHeadersAreLines(k: nat)
    requires k < |INTF_SECTIONS|
    ensures var hdr := INTF_SECTIONS[k]; |hdr| > 0 && hdr[0] == '[' && NEWLINE !in hdr
  {
  }

  /**
   * The driver as written reads a blank line as the row "". Right after the
   * header of any row section that row has no tokens, so its handler returns
   * -1: the parse fails, and app_parse_icf then exits. As intended the
   * line is skipped.
   */
  lemma BlankRowFailsAsWritten(v: IntfView, k: nat, after: seq<string>, conv: Conv)
    requires SECT_SCHED_MAC <= k < |INTF_SECTIONS|
    ensures IntfRow(v, k, "", conv) == RowStep(RowFailed, v)
    ensures DriveAsWritten(v, [INTF_SECTIONS[k], "\n"] + after, INTF_SECTIONS, 0, 0, IntfRowFn(conv)) == DriveFailed(v)
    ensures IntfFile(v, [INTF_SECTIONS[k], "\n"] + after, conv) == IntfFile(v, [INTF_SECTIONS[k]] + after, conv)
  {
    var ts := Fields("", PS.TAB, INTF_TOKENS);
    assert ts == [];
    assert IntfRow(v, k, "", conv) == RowStep(RowFailed, v) by {
      if k == SECT_SCHED_MAC {
        assert PathMacRow(v, SchedPath, ts, conv).res == RowFailed;
      } else if k == SECT_L2FWD_MAC {
        assert PathMacRow(v, L2fwdPath, ts, conv).res == RowFailed;
      } else if k == SECT_VLAN_ENCAP {
        assert VlanEncapRow(v, ts, conv).res == RowFailed;
      } else {
        assert IntfSchedRow(v, ts, conv).res == RowFailed;
      }
    }
    IntfHeadersSelectOwnSection(k);
    IntfHeadersAreLines(k);
    BlankRowAfterHeader(v, k, after, INTF_SECTIONS, IntfRowFn(conv));
  }

  /** Prefix matching tells "[INTF_CONFIG_SCHED]" from "[INTF_CONFIG_SCHED_MAC]": each header selects its own section. */
  lemma IntfHeadersSelectOwnSection(k: nat)
    requires k < |INTF_SECTIONS|
    ensures SectionIndex(INTF_SECTIONS[k], INTF_SECTIONS) == k
  {
    var c := INTF_SECTIONS[k];
    forall j | 0 <= j < k
      ensures !(INTF_SECTIONS[j] <= c)
    {
      var n := INTF_SECTIONS[j];
      // The names share "[INTF_CONFIG_" and then differ, except the two SCHED names, which differ after "SCHED".
      var at := if j == SECT_SCHED_MAC && k == SECT_INTF_SCHED then 18 else 13;
      assert at < |n| && at < |c| && n[at] != c[at];
    }
    SectionIndexIs(c, INTF_SECTIONS, k);
  }

  method PathMacHandler(ic: IntfConf, path: MacPath, text: string, conv: Conv) returns (res: RowResult)
    modifies ic`schedSrc, ic`schedDst, ic`l2fwdSrc, ic`l2fwdDst
    ensures IntfHandled(ic, PathMacRow(old(IntfOf(ic)), path, Fields(text, PS.TAB, INTF_TOKENS), conv), res)
  {
    var tokens := SplitFields(text, PS.TAB, INTF_TOKENS);
    if |tokens| != INTF_TOKENS {
      return RowFailed;
    }
    if tokens[0] == "srcMAC" {
      var m := conv.macAddr(tokens[1]);
      if m.None? {
        return RowExit;
      }
      if path == SchedPath {
        ic.schedSrc := m.value;
      } else {
        ic.l2fwdSrc := m.value;
      }
    } else if tokens[0] == "dstMAC" {
      var m := conv.macAddr(tokens[1]);
      if m.None? {
        return RowExit;
      }
      if path == SchedPath {
        ic.schedDst := m.value;
      } else {
        ic.l2fwdDst := m.value;
      }
    } else {
      return RowExit;
    }
    return RowOk;
  }

  method VlanEncapHandler(ic: IntfConf, text: string, conv: Conv) returns (res: RowResult)
    modifies ic`vlanTag, ic`vlanPri, ic`vlanId
    ensures IntfHandled(ic, VlanEncapRow(old(IntfOf(ic)), Fields(text, PS.TAB, INTF_TOKENS), conv), res)
  {
    var tokens := SplitFields(text, PS.TAB, INTF_TOKENS);
    if |tokens| != INTF_TOKENS {
      return RowFailed;
    }
    if tokens[0] == "vlan" {
      if tokens[1] == "enable" {
        ic.vlanTag := true;
      } else if tokens[1] == "disable" {
        ic.vlanTag := false;
      } else {
        return RowExit;
      }
    } else if tokens[0] == "vlanPri" {
      var l := conv.atoi(tokens[1]);
      if l < 0 || l > INTF_VLAN_PRI_MAX {
        return RowExit;
      }
      ic.vlanPri := l;
    } else if tokens[0] == "vlanId" {
      var l := conv.atoi(tokens[1]);
      if l < 0 || l > INTF_VLAN_ID_MAX {
        return RowExit;
      }
      ic.vlanId := l;
    } else {
      return RowExit;
    }
    return RowOk;
  }

  method IntfSchedHandler(ic: IntfConf, text: string, conv: Conv) returns (res: RowResult)
    modifies ic`ipVer, ic`srcIP, ic`dstIP, ic`dscp, ic`ecn, ic`dstPort, ic`updateSeqNo, ic`hwChksumOffload
    ensures IntfHandled(ic, IntfSchedRow(old(IntfOf(ic)), Fields(text, PS.TAB, INTF_TOKENS), conv), res)
  {
    var tokens := SplitFields(text, PS.TAB, INTF_TOKENS);
    if |tokens| != INTF_TOKENS {
      return RowFailed;
    }
    res := SchedFieldHandler(ic, tokens[0], tokens[1], conv);
  }

  /** The strcmp chain over the field names of [INTF_CONFIG_SCHED], then the field's conversion and check. */
  method SchedFieldHandler(ic: IntfConf, field: string, arg: string, conv: Conv) returns (res: RowResult)
    modifies ic`ipVer, ic`srcIP, ic`dstIP, ic`dscp, ic`ecn, ic`dstPort, ic`updateSeqNo, ic`hwChksumOffload
    ensures IntfHandled(ic, SchedField(old(IntfOf(ic)), field, arg, conv), res)
  {
    var name := SchedFieldNamed(field);
    if name == IpVer || name == SrcIp || name == DstIp {
      res := AddressFieldHandler(ic, field, arg, conv);
    } else if name == DscpField || name == EcnField || name == DstPort {
      res := NumericFieldHandler(ic, field, arg, conv);
    } else if name == UpdateSeqNo || name == HwChksumOffload {
      res := SwitchFieldHandler(ic, field, arg, conv);
    } else {
      res := RowExit;
    }
  }

  /** ipVer, srcIP and dstIP. */
  method AddressFieldHandler(ic: IntfConf, field: string, arg: string, conv: Conv) returns (res: RowResult)
    requires SchedFieldNamed(field) in {IpVer, SrcIp, DstIp}
    modifies ic`ipVer, ic`srcIP, ic`dstIP
    ensures IntfHandled(ic, SchedField(old(IntfOf(ic)), field, arg, conv), res)
  {
    res := RowOk;
    match SchedFieldNamed(field)
    case IpVer =>
      if arg != "IPV4" {
        return RowExit;
      }
      ic.ipVer := IP_VERSION_4;
    case SrcIp =>
      var ip := ParseIpv4Str(arg, conv);
      if ip.None? {
        return RowExit;
      }
      ic.srcIP := ip.value;
    case DstIp =>
      var ip := ParseIpv4Str(arg, conv);
      if ip.None? {
        return RowExit;
      }
      ic.dstIP := ip.value;
  }

  /** dscp, ecn and dstPort. */
  method NumericFieldHandler(ic: IntfConf, field: string, arg: string, conv: Conv) returns (res: RowResult)
    requires SchedFieldNamed(field) in {DscpField, EcnField, DstPort}
    modifies ic`dscp, ic`ecn, ic`dstPort
    ensures IntfHandled(ic, SchedField(old(IntfOf(ic)), field, arg, conv), res)
  {
    res := RowOk;
    match SchedFieldNamed(field)
    case DscpField =>
      var dscp := Dscp(conv.strtol(arg));
      if dscp.None? {
        return RowExit;
      }
      ic.dscp := dscp.value;
    case EcnField =>
      var ecn := conv.atoi(arg);
      if ecn < 0 || ecn > ECN_MAX {
        return RowExit;
      }
      ic.ecn := ecn;
    case DstPort =>
      var port := conv.strtol(arg);
      if port < 0 || port > PORT_MAX {
        return RowExit;
      }
      ic.dstPort := port;
  }

  /** updateSeqNo and hwChksumOffload. */
  method SwitchFieldHandler(ic: IntfConf, field: string, arg: string, conv: Conv) returns (res: RowResult)
    requires SchedFieldNamed(field) in {UpdateSeqNo, HwChksumOffload}
    modifies ic`updateSeqNo, ic`hwChksumOffload
    ensures IntfHandled(ic, SchedField(old(IntfOf(ic)), field, arg, conv), res)
  {
    var on := Switch(arg);
    if on.None? {
      return RowExit;
    }
    if SchedFieldNamed(field) == UpdateSeqNo {
      ic.updateSeqNo := on.value;
    } else {
      ic.hwChksumOffload := on.value;
    }
    return RowOk;
  }

  // ---------------------------------------------------------------------
  // Section driver (DaaS/PoCPhase3/tm10/parserCfgIntf.c:221-316)
  // ---------------------------------------------------------------------

  /** Call the handler of section s. */
  method IntfDispatchRow(ic: IntfConf, s: nat, text: string, conv: Conv) returns (res: RowResult)
    modifies ic
    ensures IntfHandled(ic, IntfRow(old(IntfOf(ic)), s, text, conv), res)
  {
    if s == SECT_SCHED_MAC {
      res := PathMacHandler(ic, SchedPath, text, conv);
    } else if s == SECT_L2FWD_MAC {
      res := PathMacHandler(ic, L2fwdPath, text, conv);
    } else if s == SECT_VLAN_ENCAP {
      res := VlanEncapHandler(ic, text, conv);
    } else if s == SECT_INTF_SCHED {
      res := IntfSchedHandler(ic, text, conv);
    } else {
      res := RowOk;
    }
  }

  /** The loop's progress: what is left of the file parses to what the whole file parses to. */
  ghost predicate IntfDriving(ic: IntfConf, v0: IntfView, lines: seq<string>, i: nat, s: nat, sectRow: nat, conv: Conv)
    reads ic
  {
    i <= |lines| && s < |INTF_SECTIONS| &&
    IntfFile(v0, lines, conv) == Drive(IntfOf(ic), lines[i..], INTF_SECTIONS, s, sectRow, IntfRowFn(conv))
  }

  /** One pass of the driver loop, as in the schedule file's driver. */
  method IntfDriveLine(ic: IntfConf, ghost v0: IntfView, lines: seq<string>, i: nat, s: nat, sectRow: nat, conv: Conv)
    returns (ret: int, stop: Option<Outcome>, s': nat, sectRow': nat)
    requires IntfDriving(ic, v0, lines, i, s, sectRow, conv) && i < |lines|
    modifies ic
    ensures var d0 := IntfFile(v0, lines, conv);
      && (stop.Some? ==> OutcomeOf(d0) == stop.value && !stop.value.Returned?)
      && (stop.None? && ret == 0 ==> IntfDriving(ic, v0, lines, i + 1, s', sectRow', conv))
      && (stop.None? && ret != 0 ==> ret == -1 && d0 == DriveFailed(IntfOf(ic)))
  {
    var line := lines[i];
    assert lines[i..][1..] == lines[i + 1..];
    stop, s', sectRow' := None, s, sectRow;
    ret := 0;
    if |line| == 0 || line[0] == '#' {
      return;
    }
    var copied := CopyLine(line);
    if |copied| == 0 {
      return;
    }
    if copied[0] == '[' {
      sectRow' := 0;
      var found := FindSection(copied, INTF_SECTIONS);
      if found == |INTF_SECTIONS| {
        ret := -1;
      } else {
        s' := found;
      }
      return;
    }
    var res := IntfDispatchRow(ic, s, copied, conv);
    if res == RowExit {
      stop := Some(Exited);
    } else if res == RowUndefined {
      stop := Some(Undefined);
    } else if res == RowFailed {
      ret := -1;
    } else {
      sectRow' := sectRow + 1;
    }
  }

  /** app_parse_icf_cfgfile: read the lines in order until the end or the first failure. */
  method ParseIntfCfgFile(ic: IntfConf, lines: seq<string>, conv: Conv) returns (out: Outcome)
    modifies ic
    ensures var d := IntfFile(old(IntfOf(ic)), lines, conv);
      out == OutcomeOf(d) && (d.DriveEnd? || d.DriveFailed? ==> IntfOf(ic) == d.v)
  {
    ghost var v0 := IntfOf(ic);
    var i: nat := 0;
    var s: nat := 0;
    var sectRow: nat := 0;
    var ret := 0;
    assert lines[0..] == lines;
    while i < |lines| && ret >= 0
      invariant i <= |lines| && (ret == 0 || ret == -1)
      invariant ret == 0 ==> IntfDriving(ic, v0, lines, i, s, sectRow, conv)
      invariant ret == -1 ==> IntfFile(v0, lines, conv) == DriveFailed(IntfOf(ic))
      decreases |lines| - i
    {
      var stop;
      ret, stop, s, sectRow := IntfDriveLine(ic, v0, lines, i, s, sectRow, conv);
      if stop.Some? {
        return stop.value;
      }
      i := i + 1;
    }
    if ret == 0 {
      assert lines[i..] == [];
    }
    return Returned(ret);
  }
}
