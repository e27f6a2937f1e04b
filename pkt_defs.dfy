/**
 * Header offsets, lengths and DS-field helpers of the shaper's packets
 * (DaaS/PoCPhase3/common/OrionPktDefs.h). A frame is its bytes; the
 * Ethernet header is 14 bytes (destination, source, ethertype), optionally
 * followed by one 802.1Q tag, then IPv4 and UDP or TCP.
 */
module PktDefs {
  import opened PktHdrs

  const ETHER_HDR_SIZE: nat := 14
  const ETHER_TYPE_VLAN: bv16 := 0x8100

  /** Byte offset of the ethertype field in the Ethernet header. */
  const ETHER_TYPE_OFFSET: nat := 12

  const IPPROTO_TCP: bv8 := 6
  const IPPROTO_UDP: bv8 := 17

  // ---------------------------------------------------------------------
  // Offsets and lengths (uint16 arithmetic)
  // ---------------------------------------------------------------------

  /** get_vlanhdr_offset: the tag follows the Ethernet header. */
  function VlanHdrOffset(): nat { ETHER_HDR_SIZE }

  /** Size of the optional 802.1Q tag. */
  function TagSize(vlan: bool): nat { if vlan then VLAN_HDR_SIZE else 0 }

  /** get_ipv4hdr_offset */
  function Ipv4HdrOffset(vlan: bool): (r: nat)
    ensures r == (if vlan then 18 else 14)
  {
    ETHER_HDR_SIZE + TagSize(vlan)
  }

  /** get_udphdr_offset */
  function UdpHdrOffset(vlan: bool): (r: nat)
    ensures r == Ipv4HdrOffset(vlan) + IPV4_HDR_SIZE
  {
    ETHER_HDR_SIZE + IPV4_HDR_SIZE + TagSize(vlan)
  }

  /** get_udpdata_offset */
  function UdpDataOffset(vlan: bool): (r: nat)
    ensures r == UdpHdrOffset(vlan) + UDP_HDR_SIZE
  {
    ETHER_HDR_SIZE + IPV4_HDR_SIZE + UDP_HDR_SIZE + TagSize(vlan)
  }

  /** Subtraction in uint16_t: the difference modulo 2^16. */
  function Sub16(a: nat, b: nat): (r: nat)
    requires a < 0x1_0000 && b < 0x1_0000
    ensures r < 0x1_0000
    ensures a >= b ==> r == a - b
    ensures a < b ==> r == a - b + 0x1_0000
  {
    (a - b) % 0x1_0000
  }

  /** get_ipv4len: bytes from the IPv4 header to the end of a pktsz-byte frame. */
  function Ipv4Len(pktsz: nat, vlan: bool): (r: nat)
    requires pktsz < 0x1_0000
    ensures r < 0x1_0000
    ensures pktsz >= Ipv4HdrOffset(vlan) ==> r + Ipv4HdrOffset(vlan) == pktsz
  {
    Sub16(pktsz, Ipv4HdrOffset(vlan))
  }

  /** get_udplen: bytes from the UDP header to the end of a pktsz-byte frame. */
  function UdpLen(pktsz: nat, vlan: bool): (r: nat)
    requires pktsz < 0x1_0000
    ensures r < 0x1_0000
    ensures pktsz >= UdpHdrOffset(vlan) ==> r + UdpHdrOffset(vlan) == pktsz
  {
    Sub16(pktsz, UdpHdrOffset(vlan))
  }

  /** get_udplen_from_pktsize: the header length is accumulated in a uint16 first. */
  function UdpLenFromPktsize(pktsz: nat, vlan: bool): nat
    requires pktsz < 0x1_0000
  {
    var hdrLen := ETHER_HDR_SIZE + IPV4_HDR_SIZE;
    var hdrLen' := if vlan then hdrLen + VLAN_HDR_SIZE else hdrLen;
    Sub16(pktsz, hdrLen')
  }

  /** The two UDP-length helpers agree on every input, wrap-around included. */
  lemma UdpLenHelpersAgree(pktsz: nat, vlan: bool)
    requires pktsz < 0x1_0000
    ensures UdpLenFromPktsize(pktsz, vlan) == UdpLen(pktsz, vlan)
    ensures pktsz >= UdpHdrOffset(vlan) ==> UdpLen(pktsz, vlan) + IPV4_HDR_SIZE == Ipv4Len(pktsz, vlan)
  {
  }

  // ---------------------------------------------------------------------
  // DS field (section 3 of RFC 2474, section 5 of RFC 3168): DSCP[6] ECN[2].
  // The macros take C ints; 32-bit vectors stand for them.
  // ---------------------------------------------------------------------

  /** DSCP_TO_TOS */
  function DscpToTos(dscp: bv32): bv32 { (dscp & 0x3f) << 2 }

  /** DSCP_ECN_TO_TOS */
  function DscpEcnToTos(dscp: bv32, ecn: bv32): bv32 { ((dscp & 0x3f) << 2) | (ecn & 0x3) }

  /** TOS_TO_DSCP */
  function TosToDscp(tos: bv32): bv32 { (tos & 0xfc) >> 2 }

  /** Packing a DSCP and an ECN value yields one byte from which both are recovered. */
  lemma DsFieldRoundTrip(dscp: bv32, ecn: bv32)
    ensures DscpEcnToTos(dscp, ecn) < 0x100
    ensures TosToDscp(DscpEcnToTos(dscp, ecn)) == dscp & 0x3f
    ensures DscpEcnToTos(dscp, ecn) & 0x3 == ecn & 0x3
    ensures DscpToTos(dscp) == DscpEcnToTos(dscp, 0)
  {
  }

  /** Every TOS byte is the packing of its own DSCP and ECN parts. */
  lemma DsFieldRecompose(tos: bv32)
    requires tos < 0x100
    ensures DscpEcnToTos(TosToDscp(tos), tos & 0x3) == tos
  {
  }

  // ---------------------------------------------------------------------
  // The OrionDscp_e code points (class selectors of section 4.2.2 of
  // RFC 2474, assured forwarding of section 6 of RFC 2597, and local
  // experimental values).
  // ---------------------------------------------------------------------

  datatype DscpName =
    | CS0 | CS1 | CS2 | AF11 | AF12 | AF13 | AF21 | AF22 | AF23
    | CS3 | CS4 | CS5 | CS6 | P4IntMdInt | OrionMdInt | OrionTm

  /** The enum as written in the header. */
  function OrionDscpAsWritten(n: DscpName): bv32
  {
    match n
    case CS6 => 0xc0
    case AF11 => 0x08
    case _ => OrionDscp(n)
  }

  /** Two entries of the enum as written are wrong: AF11 collides with CS1, and CS6 is a TOS byte. */
  lemma OrionDscpAsWrittenDefects()
    ensures OrionDscpAsWritten(AF11) == OrionDscpAsWritten(CS1)
    ensures OrionDscpAsWritten(CS6) >= 0x40
    ensures DscpToTos(OrionDscpAsWritten(CS6)) == DscpToTos(OrionDscpAsWritten(CS0)) == 0
  {
  }

  /** The code points with AF11 = 001010 and CS6 = 110000 in binary. */
  function OrionDscp(n: DscpName): (d: bv32)
    ensures d < 0x40
  {
    match n
    case CS0 => 0x00
    case CS1 => 0x08
    case CS2 => 0x10
    case AF11 => 0x0a
    case AF12 => 0x0c
    case AF13 => 0x0e
    case AF21 => 0x12
    case AF22 => 0x14
    case AF23 => 0x16
    case CS3 => 0x18
    case CS4 => 0x20
    case CS5 => 0x28
    case CS6 => 0x30
    case P4IntMdInt => 0x17
    case OrionMdInt => 0x27
    case OrionTm => 0x2b
  }

  /** Corrected, the code points are distinct six-bit values that survive a trip through the TOS byte. */
  lemma OrionDscpWellFormed(a: DscpName, b: DscpName)
    ensures OrionDscp(a) == OrionDscp(b) ==> a == b
    ensures TosToDscp(DscpToTos(OrionDscp(a))) == OrionDscp(a)
    ensures DscpToTos(OrionDscp(CS6)) == 0xc0
  {
  }

  // ---------------------------------------------------------------------
  // Frame inspection
  // ---------------------------------------------------------------------

  /** is_vlan_pkt: the ethertype, loaded in host order, equals rte_cpu_to_be_16(0x8100). */
  function IsVlanPkt(frame: seq<bv8>): bool
    requires |frame| >= ETHER_HDR_SIZE
  {
    HostLoad16(frame[ETHER_TYPE_OFFSET], frame[ETHER_TYPE_OFFSET + 1]) == Bswap16(ETHER_TYPE_VLAN)
  }

  /** A frame is tagged exactly when its ethertype bytes read 0x81 0x00 on the wire. */
  lemma IsVlanPktOnWire(frame: seq<bv8>)
    requires |frame| >= ETHER_HDR_SIZE
    ensures IsVlanPkt(frame) <==> frame[12] == 0x81 && frame[13] == 0x00
  {
    NetworkLoad16(frame[12], frame[13]);
    Be16Inverse(frame[12], frame[13]);
    Be16Inverse(0x81, 0x00);
  }

  /** Result of get_l4data_offset: an offset, or rte_panic on another protocol. */
  datatype L4Offset = L4DataAt(offset: nat) | UnsupportedProtocol(proto: bv8)

  /** get_l4data_offset: the payload follows the UDP (8) or TCP (20) header. */
  function L4DataOffset(frame: seq<bv8>, vlan: bool): (r: L4Offset)
    requires |frame| >= Ipv4HdrOffset(vlan) + IPV4_HDR_SIZE
    ensures var proto := DecodeIpv4(frame[Ipv4HdrOffset(vlan)..]).nextProtoId;
      && (proto == IPPROTO_UDP <==> r == L4DataAt(UdpHdrOffset(vlan) + UDP_HDR_SIZE))
      && (proto == IPPROTO_TCP <==> r == L4DataAt(UdpHdrOffset(vlan) + TCP_HDR_SIZE))
      && (proto != IPPROTO_UDP && proto != IPPROTO_TCP <==> r == UnsupportedProtocol(proto))
  {
    var l2l3HdrSize := ETHER_HDR_SIZE + IPV4_HDR_SIZE + TagSize(vlan);
    var proto := frame[Ipv4HdrOffset(vlan) + 9];
    if proto == IPPROTO_UDP then L4DataAt(l2l3HdrSize + UDP_HDR_SIZE)
    else if proto == IPPROTO_TCP then L4DataAt(l2l3HdrSize + TCP_HDR_SIZE)
    else UnsupportedProtocol(proto)
  }

  // ---------------------------------------------------------------------
  // Frames assembled from headers: the offsets above locate each header.
  // ---------------------------------------------------------------------

  /** An Ethernet header with the given addresses and ethertype. */
  function EtherHdr(dst: seq<bv8>, src: seq<bv8>, etherType: bv16): (b: seq<bv8>)
    requires |dst| == 6 && |src| == 6
    ensures |b| == ETHER_HDR_SIZE
  {
    dst + src + Be16Bytes(etherType)
  }

  /** A UDP/IPv4 frame, tagged when a VLAN header is given. */
  function UdpFrame(dst: seq<bv8>, src: seq<bv8>, tag: VlanHdr, vlan: bool, ip: Ipv4Hdr, udp: UdpHdr,
                    payload: seq<bv8>): (f: seq<bv8>)
    requires |dst| == 6 && |src| == 6
    ensures |f| == UdpDataOffset(vlan) + |payload|
  {
    if vlan then EtherHdr(dst, src, ETHER_TYPE_VLAN) + EncodeVlan(tag) + EncodeIpv4(ip) + EncodeUdp(udp) + payload
    else EtherHdr(dst, src, 0x0800) + EncodeIpv4(ip) + EncodeUdp(udp) + payload
  }

  /** In an assembled frame the tag test holds as built and the offsets find each header. */
  lemma UdpFrameLayout(dst: seq<bv8>, src: seq<bv8>, tag: VlanHdr, vlan: bool, ip: Ipv4Hdr, udp: UdpHdr,
                       payload: seq<bv8>)
    requires |dst| == 6 && |src| == 6
    ensures var f := UdpFrame(dst, src, tag, vlan, ip, udp, payload);
      && IsVlanPkt(f) == vlan
      && DecodeIpv4(f[Ipv4HdrOffset(vlan)..]) == ip
      && DecodeUdp(f[UdpHdrOffset(vlan)..]) == udp
      && f[UdpDataOffset(vlan)..] == payload
      && (vlan ==> DecodeVlan(f[VlanHdrOffset()..]) == tag)
  {
    var f := UdpFrame(dst, src, tag, vlan, ip, udp, payload);
    var et: bv16 := if vlan then ETHER_TYPE_VLAN else 0x0800;
    var eth := EtherHdr(dst, src, et);
    var tagBytes := if vlan then EncodeVlan(tag) else [];
    assert f == eth + tagBytes + EncodeIpv4(ip) + EncodeUdp(udp) + payload;
    IsVlanPktOnWire(f);
    assert f[12..14] == Be16Bytes(et);
    Ipv4RoundTrip(ip);
    UdpRoundTrip(udp);
    assert f[Ipv4HdrOffset(vlan)..][..IPV4_HDR_SIZE] == EncodeIpv4(ip);
    assert f[UdpHdrOffset(vlan)..][..UDP_HDR_SIZE] == EncodeUdp(udp);
    if vlan {
      VlanRoundTrip(tag, EncodeVlan(tag));
      assert f[VlanHdrOffset()..][..VLAN_HDR_SIZE] == EncodeVlan(tag);
    }
  }
}
