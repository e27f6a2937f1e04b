/**
 * Receive-side classification (DaaS/PoCPhase3/tm10/tmSched.c:115-124, :277-607).
 *
 * The classifier maps a received frame to a queue id: 0 is the drop queue,
 * 1..15 are GBS queues and 16..23 are the eight EBS classes (16 is the
 * catch-all, lowest class). Classify follows the C code byte for byte,
 * including its host-order loads and byte swaps; ClassifyHeaders states the
 * same decision on decoded header fields, and ClassifyMatchesHeaders proves
 * that the two agree.
 */
module Classifier {
  import opened TmDefs
  import opened PktHdrs
  import opened PktDefs

  /** QID_CATCHALL: the first EBS queue. Queue ids are uint16_t, as in the C code. */
  const QID_CATCHALL: bv16 := 16
  /** QID_DROP */
  const QID_DROP: bv16 := 0
  /** The top EBS class, NUM_GBSQUEUES_MAX + TM_NUM_CLASSES - 1. */
  const QID_TOP_EBS: bv16 := 23

  const VLAN_TABLE_SIZE: nat := 4096
  const MAC_ADDR_LEN: nat := 6
  /** Offset of the source address in the Ethernet header. */
  const SRC_MAC_OFFSET: nat := 6

  /** The classifier reads at most up to the end of a tagged UDP header. */
  const CLASSIFIED_FRAME_MIN: nat := 46

  /** vlanid_table: one entry per VLAN id, each with two 6-byte addresses. */
  predicate ValidVlanTable(t: seq<VlanLookupEntry>)
  {
    |t| == VLAN_TABLE_SIZE &&
    forall i :: 0 <= i < |t| ==> |t[i].macaddr1| == MAC_ADDR_LEN && |t[i].macaddr2| == MAC_ADDR_LEN
  }

  /** The table names GBS queues only (what the mapping rows accept). */
  predicate GbsQidsOnly(t: seq<VlanLookupEntry>)
  {
    forall i :: 0 <= i < |t| ==> t[i].qid1 < 16 && t[i].qid2 < 16
  }

  /** vlanid_table as the mapping rows leave it: 4096 entries, GBS queue ids only. */
  type VlanTable = t: seq<VlanLookupEntry> | ValidVlanTable(t) && GbsQidsOnly(t)
    witness seq(VLAN_TABLE_SIZE, _ => ZERO_VLAN_ENTRY)

  /** mac_address_is_same: compare the six bytes until the first difference. */
  method MacAddressIsSame(mac1: seq<bv8>, mac2: seq<bv8>) returns (same: bool)
    requires |mac1| == MAC_ADDR_LEN && |mac2| == MAC_ADDR_LEN
    ensures same <==> mac1 == mac2
  {
    var ii := 0;
    while ii < MAC_ADDR_LEN && mac1[ii] == mac2[ii]
      invariant 0 <= ii <= MAC_ADDR_LEN
      invariant mac1[..ii] == mac2[..ii]
    {
      ii := ii + 1;
    }
    same := ii == MAC_ADDR_LEN;
    assert same ==> mac1 == mac1[..ii];
    assert !same ==> mac1[ii] != mac2[ii];
  }

  /** The header fields the classifier looks at, in host order. */
  datatype Headers = Headers(
    vlan: bool,
    srcMac: seq<bv8>,
    tci: bv16,
    versionIhl: bv8,
    proto: bv8,
    ttl: bv8,
    srcPort: bv16)

  /** The fields decoded from a frame with the network-order layouts. */
  function HeadersOf(frame: seq<bv8>): (h: Headers)
    requires |frame| >= CLASSIFIED_FRAME_MIN
    ensures |h.srcMac| == MAC_ADDR_LEN
  {
    var vlan := IsVlanPkt(frame);
    var ip := DecodeIpv4(frame[Ipv4HdrOffset(vlan)..]);
    var l4 := DecodeUdp(frame[UdpHdrOffset(vlan)..]);
    Headers(vlan, frame[SRC_MAC_OFFSET..SRC_MAC_OFFSET + MAC_ADDR_LEN], DecodeVlan(frame[VlanHdrOffset()..]).tci,
            ip.versionIhl, ip.nextProtoId, ip.timeToLive, l4.srcPort)
  }

  /** The VLAN id field of a TCI (GET_VLANID_FROM_TCI on a uint16_t). */
  function VlanId(tci: bv16): (v: bv16)
    ensures v < 0x1000
  {
    (VlanIdFromTci(tci as bv32)) as bv16
  }

  /** The priority code point of a TCI (GET_VLANPRI_FROM_TCI on a uint16_t). */
  function Pcp(tci: bv16): (p: bv16)
    ensures p < 8
  {
    (VlanPriFromTci(tci as bv32)) as bv16
  }

  /** The table entry of a VLAN id. */
  function Lookup(vlanTable: seq<VlanLookupEntry>, vid: bv16): (e: VlanLookupEntry)
    requires ValidVlanTable(vlanTable) && vid < 0x1000
    ensures GbsQidsOnly(vlanTable) ==> e.qid1 < 16 && e.qid2 < 16
  {
    vlanTable[vid as int]
  }

  /** Header checks made before any strategy: IPv4 without options, UDP or TCP. */
  predicate Classifiable(versionIhl: bv8, proto: bv8)
  {
    versionIhl == 0x45 && (proto == IPPROTO_UDP || proto == IPPROTO_TCP)
  }

  /** The EBS queue of a priority class, NUM_GBSQUEUES_MAX + PCP. */
  function EbsQid(pcp: bv16): (qid: bv16)
    requires pcp < 8
    ensures 16 <= qid <= QID_TOP_EBS
  {
    16 + pcp
  }

  /** A residue modulo 16, with the never-served queue 0 replaced by `instead`. */
  function GbsOr(r: bv16, instead: bv16): bv16
  {
    if r == 0 then instead else r
  }

  /** The values SchedRxClassifyAndUpdatePkt loads from a frame, before any byte swap. */
  datatype Loaded = Loaded(
    vlan: bool,
    versionIhl: bv8,
    proto: bv8,
    ttl: bv8,
    rawSrcPort: bv16,
    rawTci: bv16,
    srcMac: seq<bv8>)

  /** The little-endian loads the C code makes. */
  function Load(frame: seq<bv8>): (ld: Loaded)
    requires |frame| >= CLASSIFIED_FRAME_MIN
  {
    var vlan := IsVlanPkt(frame);
    var ip := Ipv4HdrOffset(vlan);
    var l4 := UdpHdrOffset(vlan);
    Loaded(vlan, frame[ip], frame[ip + 9], frame[ip + 8],
           HostLoad16(frame[l4], frame[l4 + 1]),
           HostLoad16(frame[VlanHdrOffset()], frame[VlanHdrOffset() + 1]),
           frame[SRC_MAC_OFFSET..SRC_MAC_OFFSET + MAC_ADDR_LEN])
  }

  /** The VLANID_SRCMAC strategy for a tagged frame with host-order TCI `tci`. */
  function SrcMacQid(srcMac: seq<bv8>, tci: bv16, vlanTable: seq<VlanLookupEntry>): (qid: bv16)
    requires ValidVlanTable(vlanTable)
    ensures GbsQidsOnly(vlanTable) ==> qid <= QID_TOP_EBS
  {
    if Pcp(tci) == 7 then
      var e := Lookup(vlanTable, VlanId(tci));
      if srcMac == e.macaddr1 then e.qid1
      else if srcMac == e.macaddr2 then e.qid2
      else QID_CATCHALL
    else EbsQid(Pcp(tci))
  }

  /**
   * The VLANID_TTL strategy. For PCP 7 the C code takes the VLAN id of the
   * TCI as loaded (not yet swapped to host order) and swaps it afterwards.
   */
  function TtlQid(ld: Loaded): (qid: bv16)
    ensures qid <= QID_TOP_EBS
  {
    var cputci := Bswap16(ld.rawTci);
    if ld.vlan then
      if Pcp(cputci) == 7 then GbsOr(Bswap16(VlanId(ld.rawTci)) % 16, EbsQid(Pcp(cputci)))
      else EbsQid(Pcp(cputci))
    else GbsOr((ld.ttl % 16) as bv16, QID_TOP_EBS)
  }

  /** The branch chain of SchedRxClassifyAndUpdatePkt on the loaded values. */
  function Decide(ld: Loaded, classifierType: nat, vlanTable: seq<VlanLookupEntry>): (qid: bv16)
    requires ValidVlanTable(vlanTable)
    ensures GbsQidsOnly(vlanTable) ==> qid <= QID_TOP_EBS
  {
    var srcPort := Bswap16(ld.rawSrcPort);
    if !Classifiable(ld.versionIhl, ld.proto) then QID_DROP
    else if srcPort >= 32768 then QID_CATCHALL
    else if 30000 <= srcPort <= 31000 then 1
    else if classifierType == VLANID_SRCMAC_CLASSIFIER then
      if ld.vlan then SrcMacQid(ld.srcMac, Bswap16(ld.rawTci), vlanTable) else QID_CATCHALL
    else if classifierType == VLANID_TTL_CLASSIFIER then TtlQid(ld)
    else if classifierType == SRCPORT_CLASSIFIER then GbsOr(srcPort % 16, QID_TOP_EBS)
    else QID_CATCHALL
  }

  /** SchedRxClassifyAndUpdatePkt, on the frame bytes as the C code loads them. */
  function Classify(frame: seq<bv8>, classifierType: nat, vlanTable: seq<VlanLookupEntry>): (qid: bv16)
    requires |frame| >= CLASSIFIED_FRAME_MIN && ValidVlanTable(vlanTable)
    ensures GbsQidsOnly(vlanTable) ==> qid <= QID_TOP_EBS
  {
    Decide(Load(frame), classifierType, vlanTable)
  }

  /** The classification decision stated on decoded header fields. */
  function ClassifyHeaders(h: Headers, classifierType: nat, vlanTable: seq<VlanLookupEntry>): (qid: bv16)
    requires ValidVlanTable(vlanTable)
  {
    if !Classifiable(h.versionIhl, h.proto) then QID_DROP
    else if h.srcPort >= 32768 then QID_CATCHALL
    else if 30000 <= h.srcPort <= 31000 then 1
    else if classifierType == VLANID_SRCMAC_CLASSIFIER then
      if !h.vlan then QID_CATCHALL
      else if Pcp(h.tci) < 7 then EbsQid(Pcp(h.tci))
      else if h.srcMac == Lookup(vlanTable, VlanId(h.tci)).macaddr1 then Lookup(vlanTable, VlanId(h.tci)).qid1
      else if h.srcMac == Lookup(vlanTable, VlanId(h.tci)).macaddr2 then Lookup(vlanTable, VlanId(h.tci)).qid2
      else QID_CATCHALL
    else if classifierType == VLANID_TTL_CLASSIFIER then
      if !h.vlan then GbsOr((h.ttl % 16) as bv16, QID_TOP_EBS)
      else if Pcp(h.tci) < 7 then EbsQid(Pcp(h.tci))
      else GbsOr(VlanId(h.tci) % 16, QID_TOP_EBS)
    else if classifierType == SRCPORT_CLASSIFIER then
      GbsOr(h.srcPort % 16, QID_TOP_EBS)
    else QID_CATCHALL
  }

  /** The residue the TTL strategy computes from the raw (unswapped) TCI is the VLAN id mod 16. */
  lemma RawTciResidue(raw: bv16)
    ensures Bswap16(VlanId(raw)) % 16 == VlanId(Bswap16(raw)) % 16
  {
    assert VlanId(raw) == raw & 0xfff;
    assert VlanId(Bswap16(raw)) == Bswap16(raw) & 0xfff;
  }

  /** The header record holds the loaded values, swapped to host order. */
  lemma HeadersOfLoads(frame: seq<bv8>)
    requires |frame| >= CLASSIFIED_FRAME_MIN
    ensures var ld := Load(frame);
      var h := HeadersOf(frame);
      && h.vlan == ld.vlan && h.versionIhl == ld.versionIhl && h.proto == ld.proto && h.ttl == ld.ttl
      && h.srcPort == Bswap16(ld.rawSrcPort) && h.tci == Bswap16(ld.rawTci) && h.srcMac == ld.srcMac
  {
    var vlan := IsVlanPkt(frame);
    var l4 := UdpHdrOffset(vlan);
    NetworkLoad16(frame[l4], frame[l4 + 1]);
    NetworkLoad16(frame[VlanHdrOffset()], frame[VlanHdrOffset() + 1]);
  }

  /** The decision on loaded values equals the header-level statement on their host-order form. */
  lemma DecideMatchesHeaders(ld: Loaded, h: Headers, classifierType: nat, vlanTable: seq<VlanLookupEntry>)
    requires ValidVlanTable(vlanTable)
    requires h.vlan == ld.vlan && h.versionIhl == ld.versionIhl && h.proto == ld.proto && h.ttl == ld.ttl
    requires h.srcPort == Bswap16(ld.rawSrcPort) && h.tci == Bswap16(ld.rawTci) && h.srcMac == ld.srcMac
    ensures Decide(ld, classifierType, vlanTable) == ClassifyHeaders(h, classifierType, vlanTable)
  {
    if classifierType == VLANID_TTL_CLASSIFIER {
      TtlQidMatchesHeaders(ld, h);
    }
  }

  /** The VLANID_TTL strategy agrees with its host-order statement. */
  lemma TtlQidMatchesHeaders(ld: Loaded, h: Headers)
    requires h.vlan == ld.vlan && h.ttl == ld.ttl && h.tci == Bswap16(ld.rawTci)
    ensures TtlQid(ld) == if !h.vlan then GbsOr((h.ttl % 16) as bv16, QID_TOP_EBS)
                          else if Pcp(h.tci) < 7 then EbsQid(Pcp(h.tci))
                          else GbsOr(VlanId(h.tci) % 16, QID_TOP_EBS)
  {
    RawTciResidue(ld.rawTci);
  }

  /** On every frame the byte-level classifier and the header-level statement agree. */
  lemma ClassifyMatchesHeaders(frame: seq<bv8>, classifierType: nat, vlanTable: seq<VlanLookupEntry>)
    requires |frame| >= CLASSIFIED_FRAME_MIN && ValidVlanTable(vlanTable)
    ensures Classify(frame, classifierType, vlanTable) == ClassifyHeaders(HeadersOf(frame), classifierType, vlanTable)
  {
    HeadersOfLoads(frame);
    DecideMatchesHeaders(Load(frame), HeadersOf(frame), classifierType, vlanTable);
  }
}
