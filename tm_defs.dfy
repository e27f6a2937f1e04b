/**
 * Constants, enumerations and configuration/state records of the traffic
 * manager (DaaS/PoCPhase3/tm10/tmDefs.h).
 *
 * C integer widths are kept as the range of the Dafny values; counters that
 * the source keeps in fixed-width registers are unbounded here (see README).
 */
module TmDefs {

  // ---------------------------------------------------------------------
  // Frame overhead constants (IEEE 802.3 clause 3.1.1 frame format:
  // preamble 7, start-frame delimiter 1, FCS 4; clause 4.4.2 inter-packet gap 12)
  // ---------------------------------------------------------------------

  const UDP_HDR_LEN: nat := 8
  const IP_HDR_LEN: nat := 20
  const ETH_HDR_LEN: nat := 14
  const VLAN_HDR_LEN: nat := 4
  const ETH_CRC_LEN: nat := 4
  const PREAMBLE_LEN: nat := 7
  const SFD_LEN: nat := 1
  const IPG_LEN: nat := 12

  const ETHER_DL_FRAME_OVERHEAD: nat := UDP_HDR_LEN + IP_HDR_LEN + ETH_HDR_LEN + VLAN_HDR_LEN
  const ETHER_PHY_FRAME_OVERHEAD: nat := ETH_CRC_LEN + PREAMBLE_LEN + SFD_LEN + IPG_LEN

  /** The build selects POC_XC: one extra telemetry hop of 16 bytes. */
  const NUM_HOPS: nat := 1
  const TELEMETRY_DATA_LEN: nat := NUM_HOPS * 16

  // ---------------------------------------------------------------------
  // Scheduler dimensions
  // ---------------------------------------------------------------------

  const NUM_TIMESLOTS_MAX: nat := 40000
  const TM_NUM_RX_RINGS: nat := 16
  const NUM_GBSQUEUES_MAX: nat := TM_NUM_RX_RINGS
  const TM_NUM_CLASSES: nat := 8
  const TM_CLASS_MASK: nat := 0x7
  const QUEUES_PER_BUNDLE_MAX: nat := 16
  const NUM_STREAMS_MAX: nat := TM_NUM_RX_RINGS

  /** Number of configuration generations selected by confId. */
  const NUM_GENERATIONS: nat := 2

  // ---------------------------------------------------------------------
  // Classifier types
  // ---------------------------------------------------------------------

  const CLASSIFIER_TYPE_MIN: nat := 1
  const VLANID_SRCMAC_CLASSIFIER: nat := 1
  const VLANID_TTL_CLASSIFIER: nat := 2
  const SRCPORT_CLASSIFIER: nat := 3
  const CLASSIFIER_TYPE_MAX: nat := 3

  /** Integer ranges of the C types used by the configuration records. */
  const U8_LIMIT: nat := 0x100
  const U16_LIMIT: nat := 0x1_0000
  const U32_LIMIT: nat := 0x1_0000_0000
  const U64_LIMIT: nat := 0x1_0000_0000_0000_0000

  predicate IsU16(x: int) { 0 <= x < U16_LIMIT }
  predicate IsU32(x: int) { 0 <= x < U32_LIMIT }
  predicate IsU64(x: int) { 0 <= x < U64_LIMIT }

  /** Values of type uint16_t, uint32_t and uint64_t. */
  type U16 = x: nat | x < U16_LIMIT
  type U32 = x: nat | x < U32_LIMIT
  type U64 = x: nat | x < U64_LIMIT

  /** Integer-to-uint16 conversion of C: keep the value modulo 2^16. */
  function ToU16(x: int): (r: U16)
    ensures IsU16(r)
    ensures 0 <= x < U16_LIMIT ==> r == x
  {
    x % U16_LIMIT
  }

  /** Integer-to-uint32 conversion of C. */
  function ToU32(x: int): (r: U32)
    ensures IsU32(r)
    ensures 0 <= x < U32_LIMIT ==> r == x
  {
    x % U32_LIMIT
  }

  // ---------------------------------------------------------------------
  // Enumerations
  // ---------------------------------------------------------------------

  /** enum QueueType_e */
  datatype QueueType = QueueTypeUnknown | QueueTypeGbs | QueueTypeSync | QueueTypeOthers

  /** enum SchedMode_e */
  datatype SchedMode = SchedModeUnknown | SchedModeDcbQ | SchedModeSrr | SchedModeL2fwd | SchedModeOthers

  /** enum StreamType_e: whether a stream is bandwidth- or latency-dominated. */
  datatype StreamType = StreamTypeUnknown | StreamTypeBwDominate | StreamTypeLatDominate | StreamTypeOther

  /** Numeric code of a stream type as stored in StreamCfg.dominance. */
  function StreamTypeCode(t: StreamType): (r: nat)
    ensures r < 4
  {
    match t
    case StreamTypeUnknown => 0
    case StreamTypeBwDominate => 1
    case StreamTypeLatDominate => 2
    case StreamTypeOther => 3
  }

  // ---------------------------------------------------------------------
  // Configuration records
  // ---------------------------------------------------------------------

  /** PathConf: slots that the path's bundles own, and its aggregate rate. */
  datatype PathConf = PathConf(numTimeslots: int, schedRate: int)

  /** BundleConf: an ordered list of member queues and the bundle's slots. */
  datatype BundleConf = BundleConf(
    bid: nat,
    numQueues: nat,
    numTimeslots: int,
    schedRate: int,
    queues: seq<nat>,
    pathId: nat)

  /** StreamCfg without the floating-point fields (rate, latency, on/off times). */
  datatype StreamCfg = StreamCfg(
    streamId: int,
    srcIP: seq<int>,
    dstIP: seq<int>,
    pktsize: nat,
    vlanId: nat,
    vlanPri: nat,
    ttl: nat,
    protocol: nat,
    dominance: StreamType)

  /** VlanLookupEntry: up to two (source MAC, queue) pairs for one VLAN id. */
  datatype VlanLookupEntry = VlanLookupEntry(
    vlanId: nat,
    macaddr1: seq<bv8>,
    macaddr2: seq<bv8>,
    qid1: bv16,
    qid2: bv16)

  /** CreditState: signed 64-bit credit (debt allowed) and unsigned 64-bit time stamp. */
  datatype CreditState = CreditState(value: int, lastRtsc: int)

  /** QueueState of a GBS queue; its ring is kept apart (see Sched). */
  datatype QueueState = QueueState(qtype: QueueType, qid: nat, queueCredit: CreditState)

  // The all-zero values that memset() leaves behind.

  const ZERO_CREDIT: CreditState := CreditState(0, 0)
  const ZERO_PATH: PathConf := PathConf(0, 0)
  const ZERO_BUNDLE: BundleConf := BundleConf(0, 0, 0, 0, seq(QUEUES_PER_BUNDLE_MAX, _ => 0), 0)
  const ZERO_QUEUE: QueueState := QueueState(QueueTypeUnknown, 0, ZERO_CREDIT)
  const ZERO_MAC: seq<bv8> := [0, 0, 0, 0, 0, 0]
  const ZERO_VLAN_ENTRY: VlanLookupEntry := VlanLookupEntry(0, ZERO_MAC, ZERO_MAC, 0, 0)
  const ZERO_STREAM: StreamCfg := StreamCfg(0, [0, 0, 0, 0], [0, 0, 0, 0], 0, 0, 0, 0, 0, StreamTypeUnknown)

  /** A bundle record whose queue table has the C array's fixed size. */
  predicate BundleShaped(bc: BundleConf)
  {
    |bc.queues| == QUEUES_PER_BUNDLE_MAX && bc.numQueues <= QUEUES_PER_BUNDLE_MAX
  }

  /** STREAM_ID_TO_IDX: position of a stream in the streamCfg table. */
  function StreamIdToIdx(streamId: int, streamsBaseNum: int): int
  {
    streamId - streamsBaseNum + 1
  }
}
