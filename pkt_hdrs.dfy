/**
 * Standard packet headers (DaaS/PoCPhase3/common/StdPktHdrs.h): the VLAN
 * tag-control-information macros of IEEE 802.1Q clause 9.6 and the packed
 * layouts of the VLAN, IPv4 (section 3.1 of RFC 791), UDP (RFC 768) and TCP
 * (section 3.1 of RFC 793) headers, as byte sequences in network order.
 *
 * The host is little-endian (x86), so a 16-bit field loaded from memory has
 * its bytes swapped; HostLoad16 and Bswap16 model that load and
 * rte_cpu_to_be_16.
 */
module PktHdrs {

  // ---------------------------------------------------------------------
  // Byte order
  // ---------------------------------------------------------------------

  /** Value of a 16-bit field stored in network order (most significant byte first). */
  function Be16(hi: bv8, lo: bv8): bv16
  {
    (hi as bv16 << 8) | lo as bv16
  }

  /** Value of a 32-bit field stored in network order. */
  function Be32(b0: bv8, b1: bv8, b2: bv8, b3: bv8): bv32
  {
    (b0 as bv32 << 24) | (b1 as bv32 << 16) | (b2 as bv32 << 8) | b3 as bv32
  }

  /** A little-endian host load of the two bytes b0, b1 at increasing addresses. */
  function HostLoad16(b0: bv8, b1: bv8): bv16
  {
    (b1 as bv16 << 8) | b0 as bv16
  }

  /** rte_cpu_to_be_16 / rte_be_to_cpu_16 on a little-endian host: swap the two bytes. */
  function Bswap16(x: bv16): bv16
  {
    (x << 8) | (x >> 8)
  }

  /** rte_cpu_to_be_32 on a little-endian host: reverse the four bytes. */
  function Bswap32(x: bv32): bv32
  {
    (x << 24) | ((x & 0xff00) << 8) | ((x >> 8) & 0xff00) | (x >> 24)
  }

  /** The bytes a little-endian host stores for a 32-bit value, at increasing addresses. */
  function HostBytes32(x: bv32): (b: seq<bv8>)
    ensures |b| == 4
  {
    [(x & 0xff) as bv8, ((x >> 8) & 0xff) as bv8, ((x >> 16) & 0xff) as bv8, (x >> 24) as bv8]
  }

  /** Swapping the bytes of a value and storing it on the host puts the bytes in network order. */
  lemma NetworkStore32(b0: bv8, b1: bv8, b2: bv8, b3: bv8)
    ensures HostBytes32(Bswap32(Be32(b0, b1, b2, b3))) == [b0, b1, b2, b3]
    ensures Bswap32(Bswap32(Be32(b0, b1, b2, b3))) == Be32(b0, b1, b2, b3)
  {
  }

  /** Network-order bytes of a 16-bit value. */
  function Be16Bytes(v: bv16): (b: seq<bv8>)
    ensures |b| == 2 && Be16(b[0], b[1]) == v
  {
    [(v >> 8) as bv8, (v & 0xff) as bv8]
  }

  /** Network-order bytes of a 32-bit value. */
  function Be32Bytes(v: bv32): (b: seq<bv8>)
    ensures |b| == 4 && Be32(b[0], b[1], b[2], b[3]) == v
  {
    [(v >> 24) as bv8, ((v >> 16) & 0xff) as bv8, ((v >> 8) & 0xff) as bv8, (v & 0xff) as bv8]
  }

  /** Swapping the bytes of a host load gives the network-order value. */
  lemma NetworkLoad16(b0: bv8, b1: bv8)
    ensures Bswap16(HostLoad16(b0, b1)) == Be16(b0, b1)
  {
  }

  // ---------------------------------------------------------------------
  // VLAN tag control information (IEEE 802.1Q clause 9.6): PCP[3] DEI[1] VID[12]
  // The macros take C ints; 32-bit vectors stand for them.
  // ---------------------------------------------------------------------

  /** GET_VLANTCI(pri, dei, vid) */
  function VlanTci(pri: bv32, dei: bv32, vid: bv32): bv32
  {
    ((pri & 0x7) << 13) | ((dei & 0x1) << 12) | (vid & 0xfff)
  }

  /** GET_VLANPRI_FROM_TCI(tci) */
  function VlanPriFromTci(tci: bv32): bv32
  {
    (tci >> 13) & 0x7
  }

  /** GET_VLANDEI_FROM_TCI(tci) */
  function VlanDeiFromTci(tci: bv32): bv32
  {
    (tci >> 12) & 0x1
  }

  /** GET_VLANID_FROM_TCI(tci) */
  function VlanIdFromTci(tci: bv32): bv32
  {
    tci & 0xfff
  }

  /** A packed TCI always fits the 16-bit tci field. */
  lemma VlanTciFits(pri: bv32, dei: bv32, vid: bv32)
    ensures VlanTci(pri, dei, vid) < 0x1_0000
  {
  }

  /** Each extractor recovers the (masked) component that was packed. */
  lemma VlanTciRoundTrip(pri: bv32, dei: bv32, vid: bv32)
    ensures VlanPriFromTci(VlanTci(pri, dei, vid)) == pri & 0x7
    ensures VlanDeiFromTci(VlanTci(pri, dei, vid)) == dei & 0x1
    ensures VlanIdFromTci(VlanTci(pri, dei, vid)) == vid & 0xfff
  {
  }

  /** Every 16-bit TCI is the packing of its own three components. */
  lemma VlanTciRecompose(tci: bv32)
    requires tci < 0x1_0000
    ensures VlanTci(VlanPriFromTci(tci), VlanDeiFromTci(tci), VlanIdFromTci(tci)) == tci
  {
  }

  // ---------------------------------------------------------------------
  // Packed header layouts. Multi-byte fields hold their network-order value.
  // ---------------------------------------------------------------------

  const VLAN_HDR_SIZE: nat := 4
  const IPV4_HDR_SIZE: nat := 20
  const UDP_HDR_SIZE: nat := 8
  const TCP_HDR_SIZE: nat := 20

  /** VlanHdr: tci, encapsulated type. */
  datatype VlanHdr = VlanHdr(tci: bv16, etherType: bv16)

  /** Ipv4Hdr (section 3.1 of RFC 791), 20 bytes without options. */
  datatype Ipv4Hdr = Ipv4Hdr(
    versionIhl: bv8,
    typeOfService: bv8,
    totalLength: bv16,
    packetId: bv16,
    fragmentOffset: bv16,
    timeToLive: bv8,
    nextProtoId: bv8,
    hdrChecksum: bv16,
    srcAddr: bv32,
    dstAddr: bv32)

  /** UdpHdr (RFC 768). */
  datatype UdpHdr = UdpHdr(srcPort: bv16, dstPort: bv16, dgramLen: bv16, dgramCksum: bv16)

  /** TcpHdr (section 3.1 of RFC 793), 20 bytes without options. */
  datatype TcpHdr = TcpHdr(
    srcPort: bv16,
    dstPort: bv16,
    sentSeq: bv32,
    recvAck: bv32,
    dataOff: bv8,
    tcpFlags: bv8,
    rxWin: bv16,
    cksum: bv16,
    tcpUrp: bv16)

  function EncodeVlan(h: VlanHdr): (b: seq<bv8>)
    ensures |b| == VLAN_HDR_SIZE
  {
    Be16Bytes(h.tci) + Be16Bytes(h.etherType)
  }

  function DecodeVlan(b: seq<bv8>): VlanHdr
    requires |b| >= VLAN_HDR_SIZE
  {
    VlanHdr(Be16(b[0], b[1]), Be16(b[2], b[3]))
  }

  function EncodeIpv4(h: Ipv4Hdr): (b: seq<bv8>)
    ensures |b| == IPV4_HDR_SIZE
  {
    [h.versionIhl, h.typeOfService] + Be16Bytes(h.totalLength) + Be16Bytes(h.packetId) +
    Be16Bytes(h.fragmentOffset) + [h.timeToLive, h.nextProtoId] + Be16Bytes(h.hdrChecksum) +
    Be32Bytes(h.srcAddr) + Be32Bytes(h.dstAddr)
  }

  function DecodeIpv4(b: seq<bv8>): Ipv4Hdr
    requires |b| >= IPV4_HDR_SIZE
  {
    Ipv4Hdr(b[0], b[1], Be16(b[2], b[3]), Be16(b[4], b[5]), Be16(b[6], b[7]), b[8], b[9],
            Be16(b[10], b[11]), Be32(b[12], b[13], b[14], b[15]), Be32(b[16], b[17], b[18], b[19]))
  }

  function EncodeUdp(h: UdpHdr): (b: seq<bv8>)
    ensures |b| == UDP_HDR_SIZE
  {
    Be16Bytes(h.srcPort) + Be16Bytes(h.dstPort) + Be16Bytes(h.dgramLen) + Be16Bytes(h.dgramCksum)
  }

  function DecodeUdp(b: seq<bv8>): UdpHdr
    requires |b| >= UDP_HDR_SIZE
  {
    UdpHdr(Be16(b[0], b[1]), Be16(b[2], b[3]), Be16(b[4], b[5]), Be16(b[6], b[7]))
  }

  function EncodeTcp(h: TcpHdr): (b: seq<bv8>)
    ensures |b| == TCP_HDR_SIZE
  {
    Be16Bytes(h.srcPort) + Be16Bytes(h.dstPort) + Be32Bytes(h.sentSeq) + Be32Bytes(h.recvAck) +
    [h.dataOff, h.tcpFlags] + Be16Bytes(h.rxWin) + Be16Bytes(h.cksum) + Be16Bytes(h.tcpUrp)
  }

  function DecodeTcp(b: seq<bv8>): TcpHdr
    requires |b| >= TCP_HDR_SIZE
  {
    TcpHdr(Be16(b[0], b[1]), Be16(b[2], b[3]), Be32(b[4], b[5], b[6], b[7]), Be32(b[8], b[9], b[10], b[11]),
           b[12], b[13], Be16(b[14], b[15]), Be16(b[16], b[17]), Be16(b[18], b[19]))
  }

  /** Network-order value of two bytes is unique: decoding inverts Be16Bytes. */
  lemma Be16Inverse(hi: bv8, lo: bv8)
    ensures Be16Bytes(Be16(hi, lo)) == [hi, lo]
  {
  }

  lemma Be32Inverse(b0: bv8, b1: bv8, b2: bv8, b3: bv8)
    ensures Be32Bytes(Be32(b0, b1, b2, b3)) == [b0, b1, b2, b3]
  {
  }

  /** The VLAN header is 4 bytes and decoding inverts encoding, both ways. */
  lemma VlanRoundTrip(h: VlanHdr, b: seq<bv8>)
    requires |b| == VLAN_HDR_SIZE
    ensures DecodeVlan(EncodeVlan(h)) == h
    ensures EncodeVlan(DecodeVlan(b)) == b
  {
    Be16Inverse(b[0], b[1]);
    Be16Inverse(b[2], b[3]);
    assert b == b[0..2] + b[2..4];
  }

  /** The IPv4 header is 20 bytes and decoding inverts encoding. */
  lemma Ipv4RoundTrip(h: Ipv4Hdr)
    ensures DecodeIpv4(EncodeIpv4(h)) == h
  {
  }

  /** Two bytes of a buffer read as a 16-bit field and written back. */
  lemma Be16Slice(b: seq<bv8>, i: nat)
    requires i + 2 <= |b|
    ensures Be16Bytes(Be16(b[i], b[i + 1])) == b[i..i + 2]
  {
    Be16Inverse(b[i], b[i + 1]);
  }

  /** Four bytes of a buffer read as a 32-bit field and written back. */
  lemma Be32Slice(b: seq<bv8>, i: nat)
    requires i + 4 <= |b|
    ensures Be32Bytes(Be32(b[i], b[i + 1], b[i + 2], b[i + 3])) == b[i..i + 4]
  {
    Be32Inverse(b[i], b[i + 1], b[i + 2], b[i + 3]);
  }

  /** A 20-byte buffer is the concatenation of its IPv4 field slices. */
  lemma Ipv4Cut<T>(b: seq<T>)
    requires |b| == IPV4_HDR_SIZE
    ensures b == b[0..2] + b[2..4] + b[4..6] + b[6..8] + b[8..10] + b[10..12] + b[12..16] + b[16..20]
  {
  }

  /** A header whose fields are the IPv4 field slices of b encodes to b. */
  lemma Ipv4FromFields(h: Ipv4Hdr, b: seq<bv8>)
    requires |b| == IPV4_HDR_SIZE
    requires [h.versionIhl, h.typeOfService] == b[0..2] && [h.timeToLive, h.nextProtoId] == b[8..10]
    requires Be16Bytes(h.totalLength) == b[2..4] && Be16Bytes(h.packetId) == b[4..6]
    requires Be16Bytes(h.fragmentOffset) == b[6..8] && Be16Bytes(h.hdrChecksum) == b[10..12]
    requires Be32Bytes(h.srcAddr) == b[12..16] && Be32Bytes(h.dstAddr) == b[16..20]
    ensures EncodeIpv4(h) == b
  {
    Ipv4Cut(b);
  }

  /** Every 20 bytes are the encoding of the header they decode to. */
  lemma Ipv4Exhaustive(b: seq<bv8>)
    requires |b| == IPV4_HDR_SIZE
    ensures EncodeIpv4(DecodeIpv4(b)) == b
  {
    Be16Slice(b, 2);
    Be16Slice(b, 4);
    Be16Slice(b, 6);
    Be16Slice(b, 10);
    Be32Slice(b, 12);
    Be32Slice(b, 16);
    Ipv4FromFields(DecodeIpv4(b), b);
  }

  /** The UDP header is 8 bytes and decoding inverts encoding. */
  lemma UdpRoundTrip(h: UdpHdr)
    ensures DecodeUdp(EncodeUdp(h)) == h
  {
  }

  /** The TCP header is 20 bytes and decoding inverts encoding. */
  lemma TcpRoundTrip(h: TcpHdr)
    ensures DecodeTcp(EncodeTcp(h)) == h
  {
  }

  /**
   * UDP and TCP headers both begin with the source and then the destination
   * port, so reading a TCP header through the UDP layout gives its ports.
   */
  lemma L4PortsShared(t: TcpHdr)
    ensures DecodeUdp(EncodeTcp(t)).srcPort == t.srcPort
    ensures DecodeUdp(EncodeTcp(t)).dstPort == t.dstPort
  {
  }
}
