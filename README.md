# A Dafny model of the tm10 DPDK traffic shaper

The tm10 shaper receives Ethernet frames, classifies each one onto one of
24 queues and holds it there. Queues 1..15 are guaranteed-bandwidth (GBS)
rings and queues 16..23 are eight best-effort (EBS) class rings. A dequeue
thread then sends the frames out on a fixed schedule. Each schedule
sequence is `timeslotsPerSeq` slots long. The per-sequence slot table
(`pss`) gives each slot a bundle: a group of GBS queues served round-robin.
Three token buckets gate the service: one per path, one per bundle and one
per latency-dominant queue. When no GBS frame leaves in an iteration, the
highest-numbered non-empty EBS class sends one frame. The configuration is
read from tab-separated section files, and the main thread reloads it when
the file's modification time changes. The configuration is double-buffered
(`confId` selects the generation the dequeue loop reads). A reload writes
the other generation and raises `newConfig`, and the loop flips `confId` at
the end of its iteration.

The model is one module per component:

- `TmDefs` (tm_defs.dfy) holds the constants and integer widths of tmDefs.h.
- `PktDefs` and `PktHdrs` (pkt_defs.dfy, pkt_hdrs.dfy) hold the header
  layout helpers: VLAN TCI packing (IEEE 802.1Q clause 9.6), the DS field
  (section 3 of RFC 2474, section 5 of RFC 3168), and L2/L3/L4 offsets
  (section 3.1 of RFC 791, RFC 768, section 3.1 of RFC 793).
- `Credit` (credit.dfy) is the one token-bucket refill shared by the path,
  bundle and queue refills.
- `Bundle` (bundle.dfy) is the round-robin cursor object and the
  empty-bundle test.
- `Ethdev` (ethdev.dfy) holds the power-of-two rounding.
- `Classifier` and `RxSpec` (classifier.dfy, rx_spec.dfy) hold the receive
  side: header loads, the classification chain, enqueue routing with its
  drop counters, and ECN marking.
- `SchedData` (sched_data.dfy) holds the `SchedConf` and `SchedState`
  objects.
- `SchedSpec` (sched_spec.dfy) gives one dequeue iteration as pure phase
  functions.
- `Sched` (sched.dfy) is the imperative loop body, proved against
  `SchedSpec`.
- `SchedProps` (sched_props.dfy) holds the properties of an iteration.
- `ParserLib`, `ParserSched`, `ParserIntf` and `ParserStream`
  (parser_*.dfy) hold line copying, tokenising, the generic section driver
  and the row handlers of the three configuration files.
- `Reload` (reload.dfy) is the hot-reload block of the main thread.

Some things become parameters:

- Rings are bounded sequences of abstract packet records. A DPDK ring of
  262144 entries holds at most 262143.
- The TSC reading `rtscCurr` is a parameter. So are `timeslotTsc` and
  `linkSpeedBpMTsc`, because the C code derives them from floating-point
  constants.
- Numeric conversion of tokens (`atoi`, `strtol`, `sscanf`) is a `Conv`
  parameter of total functions.
- Every C integer of fixed width is an explicit subset type (`U16`, `U32`,
  `U64`). Wrap-around appears where the C code truncates:
  - signed 64-bit credit arithmetic;
  - the 32-bit `overrideths`;
  - the 32-bit queue-credit decrement;
  - `uint16_t` stores in the parsers.

Some places where the code and its description part ways follow the code:

- The top-level row accepts 7 or more tokens, because the tokeniser stops
  at 7. It does not require exactly 7.
- The round-robin cursors start at 0, because `initBundles` (which would
  set them to `NO_QUEUE`) is never called. The first turn of a bundle
  therefore starts at member position 1, not 0.
- The reload's queue-numbering loop uses the `queuesNum` that was in place
  before the new file is parsed.
- Rows that come before any section header go to the DESCRIPTION handler.
- The stream parser's static `streamIdNext` is not reset between reloads.
- `pathConf` and `gbsPath` are not cleared on reload, so the rate row's
  `+=` accumulates (`Reload.PathRecordsAccumulate`).
- `vlanid_table` and the classifier type are single global copies that a
  reload parse rewrites while the old generation is still live.
- `app_parse_scf` and `app_parse_strmcf` exit the process on failure. The
  reload's "ignore" branches are therefore unreachable, and the model
  reports that outcome as `ReloadExited`.

## Model

| member | source | states |
|---|---|---|
| TmDefs.ToU16 | DaaS/PoCPhase3/tm10/parserCfgSched.c:57-61 | the store into a uint16_t field keeps the value modulo 2^16, and leaves a value already in 0..65535 unchanged |
| TmDefs.ToU32 | DaaS/PoCPhase3/tm10/parserCfgSched.c:63 | the store into a uint32_t field keeps the value modulo 2^32, and leaves a value already in range unchanged |
| Credit.Wrap64 | DaaS/PoCPhase3/tm10/tmBundle.c:73 | the (int64_t) cast gives a value in the signed 64-bit range that is congruent to its argument modulo 2^64, and leaves values in range unchanged |
| Credit.Ceiling | DaaS/PoCPhase3/tm10/tmBundle.c:72 | creditths, timeslotTsc times timeslotsPerSeq, is below 2^48, so twice it stays below INT64_CEILING |
| Credit.RawIncrement | DaaS/PoCPhase3/tm10/tmBundle.c:73 | the increment (elapsed ticks times slot count) lies in the signed 64-bit range |
| Credit.ClampedIncrement | DaaS/PoCPhase3/tm10/tmBundle.c:76-79 | the clamped increment is at most INT64_CEILING and equals the raw one below it |
| Credit.Refill | DaaS/PoCPhase3/tm10/tmBundle.c:69-99 | a refilled balance stays in the signed 64-bit range, never exceeds creditths, and is stamped with the current TSC |
| Credit.RefillResets | DaaS/PoCPhase3/tm10/tmBundle.c:82-85 | an increment below zero or above twice creditths sets the balance to creditths |
| Credit.RefillAccumulates | DaaS/PoCPhase3/tm10/tmBundle.c:86-95 | otherwise the increment is added and the sum capped at creditths |
| Credit.RefillZeroElapsed | DaaS/PoCPhase3/tm10/tmBundle.c:69-99 | a refill at the TSC of the last one leaves an in-ceiling credit unchanged |
| Credit.RefillMonotone | DaaS/PoCPhase3/tm10/tmBundle.c:69-99 | a refill never lowers a balance that is within the ceiling |
| Credit.ClampImpliesReset | DaaS/PoCPhase3/tm10/tmBundle.c:76-85 | the 1E18 clamp never decides the outcome: a clamped increment resets the balance either way |
| Credit.DebitTxTime | DaaS/PoCPhase3/tm10/tmBundle.c:101-104 | the path and bundle debits subtract timeslotsPerSeq times the transmit time, with no floor, and keep the refill stamp |
| Credit.DebitTimeslot | DaaS/PoCPhase3/tm10/tmBundle.c:177-180 | the queue debit subtracts timeslotsPerSeq times timeslotTsc whatever the packet's size, and keeps the refill stamp |
| Credit.RefillAfterDebitRecovers | DaaS/PoCPhase3/tm10/tmBundle.c:69-99 | a non-negative increment keeps a non-negative in-ceiling balance non-negative |
| Bundle.NextIndex | DaaS/PoCPhase3/tm10/tmBundle.c:46-61 | the next member position is a valid position, or 0 for a bundle without members |
| Bundle.NextIndexSucceeds | DaaS/PoCPhase3/tm10/tmBundle.c:52-55 | from a cursor before the last member the next position is the following one |
| Bundle.NextIndexRestarts | DaaS/PoCPhase3/tm10/tmBundle.c:46-61 | a fresh cursor (NO_QUEUE), or one at or past the last member, restarts at position 0 |
| Bundle.Services | DaaS/PoCPhase3/tm10/tmBundle.c:41-67 | k successive services yield k positions |
| Bundle.ServicesAt | DaaS/PoCPhase3/tm10/tmBundle.c:41-67 | the j-th of at most numQueues successive services is j positions after the first, wrapping once |
| Bundle.ServicesSnoc | DaaS/PoCPhase3/tm10/tmBundle.c:63 | each service continues from the cursor the previous one stored |
| Bundle.RoundRobinFair | DaaS/PoCPhase3/tm10/tmBundle.c:41-67 | numQueues successive services visit every member position exactly once, whatever the cursor was |
| Bundle.RoundRobin.constructor | DaaS/PoCPhase3/tm10/tmBundle.c:14 | the static cursor table starts all zero |
| Bundle.RoundRobin.InitBundles | DaaS/PoCPhase3/tm10/tmBundle.c:16-22 | every bundle's cursor becomes NO_QUEUE |
| Bundle.RoundRobin.GetNextQueueToServed | DaaS/PoCPhase3/tm10/tmBundle.c:41-67 | only the bundle's own cursor moves, to NextIndex of its old value, and the queue id at the new position is returned |
| Bundle.BundleQueuesAreEmpty | DaaS/PoCPhase3/tm10/tmBundle.c:24-39 | true exactly when every member's ring is empty (and for a bundle without members) |
| Ethdev.RoundUpToPowerOf2 | DaaS/PoCPhase3/tm10/tmEthdev.c:28-52 | the result is a power of two in 1..32768: at least the size and less than twice it for sizes 1..32768, 1 for 0, and 32768 above 32768 |
| Ethdev.RoundDownToPowerOf2 | DaaS/PoCPhase3/tm10/tmEthdev.c:54-77 | the result is a power of two in 1..32768: at most the size and more than half of it for sizes 1..32768, 1 for 0, and 32768 above 32768 |
| Ethdev.RoundUpIsLeast | DaaS/PoCPhase3/tm10/tmEthdev.c:28-52 | rounding up gives the least power of two not below the size |
| Ethdev.RoundDownIsGreatest | DaaS/PoCPhase3/tm10/tmEthdev.c:54-77 | rounding down gives the greatest power of two not above the size |
| Ethdev.RoundingFixesPowers | DaaS/PoCPhase3/tm10/tmEthdev.c:28-77 | a power of two in range is left unchanged by both roundings |
| PktDefs.Ipv4HdrOffset | DaaS/PoCPhase3/common/OrionPktDefs.h:91 | the IPv4 header starts at byte 18 of a tagged frame and byte 14 of an untagged one |
| PktDefs.UdpHdrOffset | DaaS/PoCPhase3/common/OrionPktDefs.h:92 | the UDP header follows the 20-byte IPv4 header |
| PktDefs.UdpDataOffset | DaaS/PoCPhase3/common/OrionPktDefs.h:93 | the UDP payload follows the 8-byte UDP header |
| PktDefs.Sub16 | DaaS/PoCPhase3/common/OrionPktDefs.h:100-101 | uint16_t subtraction: the difference when it is not negative, otherwise the difference plus 2^16 |
| PktDefs.Ipv4Len | DaaS/PoCPhase3/common/OrionPktDefs.h:100 | for a frame that reaches the IPv4 header, its offset plus the result is the frame size; the result is a uint16_t in every case |
| PktDefs.UdpLen | DaaS/PoCPhase3/common/OrionPktDefs.h:101 | for a frame that reaches the UDP header, its offset plus the result is the frame size; the result is a uint16_t in every case |
| PktDefs.UdpLenHelpersAgree | DaaS/PoCPhase3/common/OrionPktDefs.h:105-112 | get_udplen_from_pktsize and get_udplen agree on every size, wrap-around included, and the UDP length is the IPv4 length less 20 |
| PktDefs.DsFieldRoundTrip | DaaS/PoCPhase3/common/OrionPktDefs.h:43-45 | packing a DSCP and an ECN value gives one byte from which TOS_TO_DSCP and the low two bits recover both; DSCP_TO_TOS is the packing with ECN 0 |
| PktDefs.DsFieldRecompose | DaaS/PoCPhase3/common/OrionPktDefs.h:43-45 | every TOS byte is the packing of its own DSCP and ECN parts |
| PktDefs.OrionDscpAsWrittenDefects | DaaS/PoCPhase3/common/OrionPktDefs.h:24-42 | as written, AF11 has the value of CS1, and CS6 (0xc0) is not a six-bit code point, so DSCP_TO_TOS maps it to 0 like CS0 |
| PktDefs.OrionDscp | DaaS/PoCPhase3/common/OrionPktDefs.h:24-42 | every corrected code point is a six-bit value |
| PktDefs.OrionDscpWellFormed | DaaS/PoCPhase3/common/OrionPktDefs.h:24-45 | the corrected code points are distinct, survive DSCP_TO_TOS followed by TOS_TO_DSCP, and CS6 gives the TOS byte 0xc0 |
| PktDefs.IsVlanPktOnWire | DaaS/PoCPhase3/common/OrionPktDefs.h:103 | a frame is tagged exactly when its ethertype bytes are 0x81 0x00 on the wire |
| PktDefs.L4DataOffset | DaaS/PoCPhase3/common/OrionPktDefs.h:114-125 | the payload offset is past the UDP header for UDP and past the TCP header for TCP; any other protocol is the rte_panic case |
| PktDefs.UdpFrameLayout | DaaS/PoCPhase3/common/OrionPktDefs.h:90-103 | in a frame assembled from headers, the tag test answers as built and each offset function finds its header and the payload |
| PktHdrs.HostBytes32 | DaaS/PoCPhase3/common/StdPktHdrs.h:60-61 | a 32-bit address field occupies four bytes |
| PktHdrs.NetworkStore32 | DaaS/PoCPhase3/common/StdPktHdrs.h:60-61 | byte-swapping a network-order address before a little-endian store lays its bytes out in network order, and the swap is its own inverse |
| PktHdrs.Be16Bytes | DaaS/PoCPhase3/common/StdPktHdrs.h:65-75 | the two network-order bytes of a 16-bit field read back as that field |
| PktHdrs.Be32Bytes | DaaS/PoCPhase3/common/StdPktHdrs.h:60-61 | the four network-order bytes of a 32-bit field read back as that field |
| PktHdrs.NetworkLoad16 | DaaS/PoCPhase3/common/StdPktHdrs.h:65-67 | a little-endian load of a big-endian field, byte-swapped, is the field's network-order value |
| PktHdrs.VlanTciFits | DaaS/PoCPhase3/common/StdPktHdrs.h:40-43 | GET_VLANTCI always fits the 16-bit tci field |
| PktHdrs.VlanTciRoundTrip | DaaS/PoCPhase3/common/StdPktHdrs.h:43-46 | each GET_VLAN*_FROM_TCI macro recovers the masked priority, drop-eligible bit or VLAN id that GET_VLANTCI packed |
| PktHdrs.VlanTciRecompose | DaaS/PoCPhase3/common/StdPktHdrs.h:43-46 | every 16-bit TCI is GET_VLANTCI of its own three components |
| PktHdrs.EncodeVlan | DaaS/PoCPhase3/common/StdPktHdrs.h:29-42 | the VLAN header is 4 bytes |
| PktHdrs.EncodeIpv4 | DaaS/PoCPhase3/common/StdPktHdrs.h:48-63 | the IPv4 header is 20 bytes |
| PktHdrs.EncodeUdp | DaaS/PoCPhase3/common/StdPktHdrs.h:65-75 | the UDP header is 8 bytes |
| PktHdrs.EncodeTcp | DaaS/PoCPhase3/common/StdPktHdrs.h:77-93 | the TCP header is 20 bytes |
| PktHdrs.Be16Inverse | DaaS/PoCPhase3/common/StdPktHdrs.h:65-75 | reading two bytes as a network-order field and writing it back gives the same bytes |
| PktHdrs.Be32Inverse | DaaS/PoCPhase3/common/StdPktHdrs.h:60-61 | reading four bytes as a network-order field and writing it back gives the same bytes |
| PktHdrs.VlanRoundTrip | DaaS/PoCPhase3/common/StdPktHdrs.h:33-42 | decoding inverts encoding for the VLAN header, in both directions |
| PktHdrs.Ipv4RoundTrip | DaaS/PoCPhase3/common/StdPktHdrs.h:51-63 | decoding an encoded IPv4 header gives back every field |
| PktHdrs.Be16Slice | DaaS/PoCPhase3/common/StdPktHdrs.h:51-63 | any two bytes of a buffer read as a 16-bit field and written back are unchanged |
| PktHdrs.Be32Slice | DaaS/PoCPhase3/common/StdPktHdrs.h:51-63 | any four bytes of a buffer read as a 32-bit field and written back are unchanged |
| PktHdrs.Ipv4Cut | DaaS/PoCPhase3/common/StdPktHdrs.h:51-63 | a 20-byte buffer is the concatenation of the slices of the packed IPv4 fields |
| PktHdrs.Ipv4FromFields | DaaS/PoCPhase3/common/StdPktHdrs.h:51-63 | a header whose fields are the field slices of a 20-byte buffer encodes to that buffer |
| PktHdrs.Ipv4Exhaustive | DaaS/PoCPhase3/common/StdPktHdrs.h:51-63 | every 20-byte buffer is the encoding of the header it decodes to |
| PktHdrs.UdpRoundTrip | DaaS/PoCPhase3/common/StdPktHdrs.h:69-75 | decoding an encoded UDP header gives back every field |
| PktHdrs.TcpRoundTrip | DaaS/PoCPhase3/common/StdPktHdrs.h:82-93 | decoding an encoded TCP header gives back every field |
| PktHdrs.L4PortsShared | DaaS/PoCPhase3/common/StdPktHdrs.h:69-93 | reading a TCP header through the UDP layout gives its source and destination ports |
| Classifier.MacAddressIsSame | DaaS/PoCPhase3/tm10/tmSched.c:115-124 | the byte-by-byte loop answers true exactly when the two six-byte addresses are equal |
| Classifier.HeadersOf | DaaS/PoCPhase3/tm10/tmSched.c:288-312 | the decoded header record carries a six-byte source address |
| Classifier.VlanId | DaaS/PoCPhase3/tm10/tmSched.c:352 | GET_VLANID_FROM_TCI yields a 12-bit VLAN id |
| Classifier.Pcp | DaaS/PoCPhase3/tm10/tmSched.c:353 | GET_VLANPRI_FROM_TCI yields a priority below 8 |
| Classifier.Lookup | DaaS/PoCPhase3/tm10/tmSched.c:373-380 | when the VLAN table only names GBS queues, both queue ids of the looked-up entry are below 16 |
| Classifier.EbsQid | DaaS/PoCPhase3/tm10/tmSched.c:391 | NUM_GBSQUEUES_MAX plus a priority is an EBS queue, 16..23 |
| Classifier.SrcMacQid | DaaS/PoCPhase3/tm10/tmSched.c:339-398 | the VLANID_SRCMAC strategy yields a queue id no greater than 23 when the table only names GBS queues |
| Classifier.TtlQid | DaaS/PoCPhase3/tm10/tmSched.c:415-469 | the VLANID_TTL strategy always yields a queue id no greater than 23 |
| Classifier.Decide | DaaS/PoCPhase3/tm10/tmSched.c:294-503 | the full decision chain (drop filter, port ranges, the three strategies, unknown type) yields a queue id no greater than 23 when the table only names GBS queues |
| Classifier.Classify | DaaS/PoCPhase3/tm10/tmSched.c:278-503 | classification of a frame yields a queue id no greater than 23 when the table only names GBS queues |
| Classifier.RawTciResidue | DaaS/PoCPhase3/tm10/tmSched.c:438 | taking the VLAN id of the unswapped TCI and swapping afterwards gives the same residue mod 16 as the VLAN id of the host-order TCI |
| Classifier.HeadersOfLoads | DaaS/PoCPhase3/tm10/tmSched.c:288-312 | the decoded header fields are the loaded values, with ports and TCI swapped to host order |
| Classifier.DecideMatchesHeaders | DaaS/PoCPhase3/tm10/tmSched.c:294-503 | the decision on loaded values equals the header-level statement of the classifier on their host-order form |
| Classifier.TtlQidMatchesHeaders | DaaS/PoCPhase3/tm10/tmSched.c:415-469 | the VLANID_TTL strategy: untagged frames use TTL mod 16, priority below 7 goes to queue 16 plus the priority, priority 7 uses the VLAN id mod 16, and a residue 0 goes to queue 23 |
| Classifier.ClassifyMatchesHeaders | DaaS/PoCPhase3/tm10/tmSched.c:278-503 | on every frame the byte-level classifier agrees with the header-level statement |
| RxSpec.TosOffset | DaaS/PoCPhase3/tm10/tmSched.c:60-62 | the type-of-service byte lies inside every frame the classifier accepts |
| RxSpec.MaybeMarkEcn | DaaS/PoCPhase3/tm10/tmSched.c:54-71 | marking keeps the frame length |
| RxSpec.MarkEcnSetsCe | DaaS/PoCPhase3/tm10/tmSched.c:54-71 | only the type-of-service byte can change, its DSCP bits are kept, and its ECN bits become CE exactly when marking is on, the ring holds at least the threshold and the packet is ECT(0) or ECT(1) |
| RxSpec.Enqueue | DaaS/PoCPhase3/tm10/tmSched.c:611-655 | queue 0 only counts a drop; any other queue adds the packet's length and its length plus the PHY overhead to the byte counters and touches only its own GBS or EBS ring |
| RxSpec.EnqueueAppends | DaaS/PoCPhase3/tm10/tmSched.c:642-648 | a packet routed to a ring with room is appended, possibly marked, at its tail with no drop counted; a full ring is unchanged and counts one drop |
| RxSpec.EnqueueConserves | DaaS/PoCPhase3/tm10/tmSched.c:611-655 | every packet handed to the enqueue step ends up in exactly one ring or in the drop count |
| RxSpec.Receive | DaaS/PoCPhase3/tm10/tmSched.c:731-737 | classifying and enqueueing a received frame accounts for it once, in a ring or in the drop count |
| SchedData.SchedConf.constructor | DaaS/PoCPhase3/tm10/tmDefs.h:236-278 | a configuration as static storage leaves it: generation 0, no new configuration, every table zero |
| SchedData.SchedState.constructor | DaaS/PoCPhase3/tm10/tmDefs.h:377-414 | a scheduler state as static storage leaves it, with every credit and queue record zero and every ring empty |
| SchedData.IncreaseCredit | DaaS/PoCPhase3/tm10/tmBundle.c:69-99 | the step-by-step credit refill computes exactly the refill function, with the 64-bit wrap of the subtraction and the clamp to one sequence |
| SchedData.IncreasePathCredit | DaaS/PoCPhase3/tm10/tmBundle.c:69-99 | only the path's own credit record changes, and it becomes its refill |
| SchedData.IncreaseBundleCredit | DaaS/PoCPhase3/tm10/tmBundle.c:106-137 | only the bundle's own credit record changes, and it becomes its refill |
| SchedData.IncreaseQueueCredit | DaaS/PoCPhase3/tm10/tmBundle.c:144-175 | only the queue's credit changes, and it becomes its refill; its type and id are kept |
| SchedData.DecreasePathCredit | DaaS/PoCPhase3/tm10/tmBundle.c:101-104 | only the path's credit changes: it loses the packet's wire time times the slots per sequence |
| SchedData.DecreaseBundleCredit | DaaS/PoCPhase3/tm10/tmBundle.c:139-142 | only the bundle's credit changes: it loses the packet's wire time times the slots per sequence |
| SchedData.DecreaseQueueCredit | DaaS/PoCPhase3/tm10/tmBundle.c:177-180 | only the queue's credit changes: it loses one slot's worth, whatever the packet size |
| SchedData.SchedRxEnqueuePkt | DaaS/PoCPhase3/tm10/tmSched.c:611-655 | the rings and enqueue counters become the value-level enqueue of the packet |
| SchedData.ReceivePkt | DaaS/PoCPhase3/tm10/tmSched.c:731-737 | the returned queue is the classifier's decision and the rings and counters become its enqueue |
| Sched.DequeueThread.constructor | DaaS/PoCPhase3/tm10/tmSched.c:903-908 | the loop captures the slot length, the slots per sequence and the path-override threshold once, before it starts |
| Sched.DequeueThread.UpdateSlot | DaaS/PoCPhase3/tm10/tmSched.c:931-973 | the thread state becomes the slot update of the specification at TSC reading rtscCurr: totals, slot index and skipped-slot counters |
| Sched.DequeueThread.CountNewTimeslot | DaaS/PoCPhase3/tm10/tmSched.c:936-973 | a slot change counts one slot, a skipped slot and the largest gap, and a sequence change counts one sequence |
| Sched.DequeueThread.AdvanceSlot | DaaS/PoCPhase3/tm10/tmSched.c:1036-1068 | relinquishing moves one slot on, wrapping into a new sequence, and refills the new slot's bundle, then its path |
| Sched.DequeueThread.MoveToNextSlot | DaaS/PoCPhase3/tm10/tmSched.c:1036-1046 | the index step of an advance, with its slot and sequence counters |
| Sched.DequeueThread.RefillNextSlot | DaaS/PoCPhase3/tm10/tmSched.c:1049-1068 | the new slot's bundle credit is refilled, then its path's when it has one; nothing else changes |
| Sched.DequeueThread.RefillScheduled | DaaS/PoCPhase3/tm10/tmSched.c:993-1002 | the scheduled bundle's path credit is refilled first, then the bundle's |
| Sched.DequeueThread.SelectSlot | DaaS/PoCPhase3/tm10/tmSched.c:975-1115 | the thread state becomes the specification's selection: refill, then relinquish the slot when the bundle's credit is negative, its path is short and it is below the override threshold, or its queues are empty |
| Sched.DequeueThread.TxEnqueue | DaaS/PoCPhase3/tm10/tmSched.c:1238-1275 | a dequeued packet joins the tx ring, or counts as a tx-ring drop when the ring is full (the EBS branch repeats this at tmSched.c:1408-1448) |
| Sched.DequeueThread.DebitCredits | DaaS/PoCPhase3/tm10/tmSched.c:1167-1191 | a dequeued GBS packet debits its queue by one slot and its bundle and path by its wire time |
| Sched.DequeueThread.ServeQueue | DaaS/PoCPhase3/tm10/tmSched.c:1152-1275 | the head of the GBS ring is dequeued, the credits debited and the packet transmitted, as the specification states |
| Sched.DequeueThread.VisitQueue | DaaS/PoCPhase3/tm10/tmSched.c:1136-1302 | a latency-dominated member is refilled first; the member is served when its credit and ring allow, and the result says whether it was |
| Sched.DequeueThread.ScanMember | DaaS/PoCPhase3/tm10/tmSched.c:1134-1303 | one pass of the member scan moves the bundle's round-robin cursor and visits that member |
| Sched.DequeueThread.ScanNext | DaaS/PoCPhase3/tm10/tmSched.c:1132-1303 | one more pass extends the scan of the first i passes to i + 1 |
| Sched.DequeueThread.ScanBundle | DaaS/PoCPhase3/tm10/tmSched.c:1132-1303 | the member scan visits as many members as the bundle has queues, without stopping early, and computes the specification's scan |
| Sched.DequeueThread.ServeEbs | DaaS/PoCPhase3/tm10/tmSched.c:1325-1471 | when nothing was dequeued, one packet is taken from the highest-numbered non-empty EBS class |
| Sched.DequeueThread.FlipConfig | DaaS/PoCPhase3/tm10/tmSched.c:1482-1487 | a pending configuration is installed by switching generations and clearing the flag |
| Sched.DequeueThread.ServeGbs | DaaS/PoCPhase3/tm10/tmSched.c:1118-1305 | the member scan runs exactly when the bundle is eligible (non-negative credit and a path that has credit or is overridden); otherwise nothing changes |
| Sched.DequeueThread.ScheduleGbs | DaaS/PoCPhase3/tm10/tmSched.c:931-1305 | phases 1 to 3 (slot update, selection, GBS scan) compute the specification's GBS phase |
| Sched.DequeueThread.FinishStep | DaaS/PoCPhase3/tm10/tmSched.c:1325-1487 | the EBS fallback and the flip finish the specification's iteration |
| Sched.DequeueThread.Step | DaaS/PoCPhase3/tm10/tmSched.c:915-1488 | one iteration of the DCB_Q loop computes the specification's step at TSC reading rtscCurr |
| Sched.TopNonEmptyIs | DaaS/PoCPhase3/tm10/tmSched.c:1325-1470 | the downward search over the classes finds the highest class that holds a packet |
| Sched.TopNonEmptyNone | DaaS/PoCPhase3/tm10/tmSched.c:1325-1470 | with every class empty the downward search finds nothing |
| SchedSpec.SumLensUpdate | DaaS/PoCPhase3/tm10/tmSched.c:1155 | replacing one ring changes the packet total by the difference of the two ring lengths |
| SchedSpec.CaptureLocals | DaaS/PoCPhase3/tm10/tmSched.c:906-908 | the captured slot length and sequence length are the configured ones, and the override threshold, computed in 32-bit unsigned arithmetic, is below 2^32 divided by the override factor |
| SchedSpec.RefillPath | DaaS/PoCPhase3/tm10/tmSched.c:998 | refilling a path keeps the state valid and changes only the path credit table |
| SchedSpec.RefillBundle | DaaS/PoCPhase3/tm10/tmSched.c:1002 | refilling a bundle keeps the state valid and changes only the bundle credit table |
| SchedSpec.RefillQueue | DaaS/PoCPhase3/tm10/tmSched.c:1139-1142 | refilling a queue keeps the state valid and changes only the queue table |
| SchedSpec.SlotIndex | DaaS/PoCPhase3/tm10/tmSched.c:931-934 | the slot index of a TSC reading lies inside the sequence |
| SchedSpec.SlotDistance | DaaS/PoCPhase3/tm10/tmSched.c:943-951 | the forward distance from the previous slot to the current one is less than a sequence and reaches it, wrapping at most once |
| SchedSpec.NewTimeslot | DaaS/PoCPhase3/tm10/tmSched.c:936-973 | a slot change records the current slot as the previous one and changes only the sequence marker and the counters |
| SchedSpec.SlotUpdate | DaaS/PoCPhase3/tm10/tmSched.c:931-973 | the slot index becomes that of the TSC reading; rings, tx drops and the generation are kept |
| SchedSpec.SlotBundle | DaaS/PoCPhase3/tm10/tmSched.c:975 | the bundle scheduled in the current slot is a valid bundle id |
| SchedSpec.SlotBundleConf | DaaS/PoCPhase3/tm10/tmSched.c:978 | the scheduled bundle's configuration is well formed |
| SchedSpec.NextSlot | DaaS/PoCPhase3/tm10/tmSched.c:1037-1046 | the next slot is one on, modulo the sequence length |
| SchedSpec.Advance | DaaS/PoCPhase3/tm10/tmSched.c:1036-1046 | an advance moves to the next slot and changes only the slot indices, the sequence marker and the counters |
| SchedSpec.AdvanceAndRefill | DaaS/PoCPhase3/tm10/tmSched.c:1036-1068 | relinquishing moves to the next slot; rings, tx drops and the generation are kept |
| SchedSpec.RefillAdvanced | DaaS/PoCPhase3/tm10/tmSched.c:1049-1068 | the refill after an advance changes only the path and bundle credit tables |
| SchedSpec.RefillSlot | DaaS/PoCPhase3/tm10/tmSched.c:993-1002 | the refill of a scheduled bundle changes only the path and bundle credit tables |
| SchedSpec.Select | DaaS/PoCPhase3/tm10/tmSched.c:975-1115 | the selection keeps the slot or moves exactly one slot on, and always moves when the slot holds no bundle; rings and the generation are kept |
| SchedSpec.Transmit | DaaS/PoCPhase3/tm10/tmSched.c:1239-1275 | transmitting changes only the tx ring and counters, and accounts for the packet once, in the ring or in the drop count (the EBS branch repeats this at tmSched.c:1410-1448) |
| SchedSpec.PopGbs | DaaS/PoCPhase3/tm10/tmSched.c:1152-1155 | dequeueing removes exactly one packet and changes only the GBS rings |
| SchedSpec.DebitAll | DaaS/PoCPhase3/tm10/tmSched.c:1167-1191 | the debits of a GBS packet change only the credit tables |
| SchedSpec.ServeMember | DaaS/PoCPhase3/tm10/tmSched.c:1152-1275 | serving a member conserves packets and keeps the generation, the slot, the EBS rings and the cursors |
| SchedSpec.AdvanceCursor | DaaS/PoCPhase3/tm10/tmSched.c:1134 | the bundle's cursor, and only it, moves to the next round-robin position |
| SchedSpec.NextMember | DaaS/PoCPhase3/tm10/tmSched.c:1134-1135 | the member the scan visits is a valid GBS queue id |
| SchedSpec.VisitMember | DaaS/PoCPhase3/tm10/tmSched.c:1136-1302 | a visit conserves packets and keeps the generation, the slot, the EBS rings and the cursors |
| SchedSpec.ScanStep | DaaS/PoCPhase3/tm10/tmSched.c:1134-1302 | one pass conserves packets, keeps the slot and the generation, and moves the selected bundle's cursor once |
| SchedSpec.ScanN | DaaS/PoCPhase3/tm10/tmSched.c:1132-1303 | any number of passes conserves packets and keeps the slot, the generation and the EBS rings |
| SchedSpec.Scan | DaaS/PoCPhase3/tm10/tmSched.c:1132-1303 | the scan keeps the state valid |
| SchedSpec.TopNonEmpty | DaaS/PoCPhase3/tm10/tmSched.c:1325-1470 | the search returns -1 or a non-empty class, and every class above it is empty |
| SchedSpec.Ebs | DaaS/PoCPhase3/tm10/tmSched.c:1325-1471 | the EBS phase conserves packets and keeps the slot and the GBS rings |
| SchedSpec.Selected | DaaS/PoCPhase3/tm10/tmSched.c:931-1115 | the state before the scan keeps the rings, the tx drops and the generation |
| SchedSpec.Served | DaaS/PoCPhase3/tm10/tmSched.c:931-1305 | the GBS phase keeps the selected slot, the generation and the EBS rings and conserves packets |
| SchedSpec.Step | DaaS/PoCPhase3/tm10/tmSched.c:915-1488 | an iteration keeps the state valid and ends in the slot the GBS phase chose |
| SchedSpec.TxTimeTscGrows | DaaS/PoCPhase3/tm10/tmSched.c:863 | the wire time charged for a packet never falls as the packet grows, and it is at least one tick whenever the link speed is at most 320 million bits per million ticks, the bits of the 40 bytes of PHY overhead and telemetry |
| SchedProps.StepConservesPackets | DaaS/PoCPhase3/tm10/tmSched.c:915-1488 | no iteration creates or loses a packet: it only moves packets between rings or counts them as drops |
| SchedProps.StepFlipsGeneration | DaaS/PoCPhase3/tm10/tmSched.c:1482-1487 | the generation changes only at the end of an iteration, exactly when a new configuration is pending, and the flag is clear afterwards |
| SchedProps.StepAdvancesAtMostOnce | DaaS/PoCPhase3/tm10/tmSched.c:931-1115 | an iteration serves the slot of the TSC reading or the one after it, and always the one after when the slot holds no bundle |
| SchedProps.KeptSlotIsEligible | DaaS/PoCPhase3/tm10/tmSched.c:1118-1119 | a scheduled bundle that kept its slot passes the eligibility test (the slot is kept only when the tests at tmSched.c:1007-1009 fail) |
| SchedProps.IneligibleServesNoGbs | DaaS/PoCPhase3/tm10/tmSched.c:1118-1324 | an ineligible bundle moves no GBS packet and the GBS phase reports nothing dequeued |
| SchedProps.EbsOnlyWithoutGbs | DaaS/PoCPhase3/tm10/tmSched.c:1325-1471 | the EBS rings change only when the GBS phase dequeued nothing, and then exactly the head of the highest non-empty class leaves |
| SchedProps.ScanStepServes | DaaS/PoCPhase3/tm10/tmSched.c:1134-1275 | one pass dequeues exactly when its member is not latency-dominated or has non-negative refilled credit, and its ring is non-empty; only that ring loses its head |
| SchedProps.ScanPositions | DaaS/PoCPhase3/tm10/tmSched.c:1132-1134 | the first k passes visit k member positions |
| SchedProps.ScanPositionsAreServices | DaaS/PoCPhase3/tm10/tmSched.c:1132-1134 | the positions the scan visits are the round-robin services from the bundle's cursor |
| SchedProps.ScanVisitsEveryPositionOnce | DaaS/PoCPhase3/tm10/tmSched.c:1132-1134 | the scan of a bundle with n members visits every position 0..n-1 exactly once |
| ParserLib.Find | DaaS/PoCPhase3/tm10/parserLib.c:69-78 | the index of the first sought character within the bound, or the bound when there is none |
| ParserLib.FindIsUnique | DaaS/PoCPhase3/tm10/parserLib.c:69-78 | the first-occurrence index is the only index with those three properties |
| ParserLib.CString | DaaS/PoCPhase3/tm10/parserLib.c:68-75 | the C string a buffer holds is its longest NUL-free prefix, ended by a NUL or by the buffer's end |
| ParserLib.DupStr | DaaS/PoCPhase3/tm10/parserLib.c:64-79 | the copy stops at the first newline within max-1 characters and returns its index (max-1 when there is none); the characters before it are copied, a NUL is written there and at max-1, and no other entry changes |
| ParserLib.CopyLine | DaaS/PoCPhase3/tm10/parserLib.c:64-79 | what a driver sees of a line is its prefix before the first newline |
| ParserLib.DupStrCopiesLine | DaaS/PoCPhase3/tm10/parserLib.c:64-79 | on a line as fgets leaves it, the C string left in the copy is the line before its newline, even when more bytes were copied (as the drivers call it, e.g. parserCfgSched.c:292-299) |
| ParserLib.RunLength | DaaS/PoCPhase3/tm10/parserLib.c:58 | the length of the separator-free run at the head of a string |
| ParserLib.Tokens | DaaS/PoCPhase3/tm10/parserLib.c:58 | every token strtok returns is non-empty and free of separators |
| ParserLib.RunLengthIs | DaaS/PoCPhase3/tm10/parserLib.c:58 | the run length is the only length with its three properties |
| ParserLib.TokensSkip | DaaS/PoCPhase3/tm10/parserLib.c:58 | a separator contributes no token |
| ParserLib.TokensRun | DaaS/PoCPhase3/tm10/parserLib.c:58 | a maximal separator-free run is the next token, and the scan resumes after it |
| ParserLib.Strtok | DaaS/PoCPhase3/tm10/parserLib.c:58 | one strtok call returns the next token and the resume position, or nothing when no token remains |
| ParserLib.OptStrVals | DaaS/PoCPhase3/tm10/parserLib.c:52-61 | the count is the smaller of the number of tokens and the limit; the first that many entries are the tokens in order and the rest of the array is untouched |
| ParserLib.Fields | DaaS/PoCPhase3/tm10/parserLib.c:52-61 | the stored tokens are the first ones strtok returns, at most the limit |
| ParserLib.SplitFields | DaaS/PoCPhase3/tm10/parserLib.c:52-61 | a row handler's strtok loop into a fresh array yields exactly those fields |
| ParserLib.TokensOfJoin | DaaS/PoCPhase3/tm10/parserLib.c:58 | splitting a separator-joined row gives back exactly its fields |
| ParserLib.FieldsOfJoin | DaaS/PoCPhase3/tm10/parserLib.c:52-61 | a row of joined fields yields its first fields; further fields are ignored |
| ParserLib.TokensAreRuns | DaaS/PoCPhase3/tm10/parserLib.c:58 | no token is empty or holds a separator, however many separators stand in a row |
| ParserLib.OptIntVals | DaaS/PoCPhase3/tm10/parserLib.c:18-44 | -1 for a missing string or array, for no values or more than 8; otherwise the count is at most the limit, each value is atol of its token truncated to 32 bits, and the rest of the array is untouched |
| ParserLib.ClassifyLineAsWritten | DaaS/PoCPhase3/tm10/parserCfgSched.c:296-300 | as written, a blank line is not skipped but read as an empty row |
| ParserLib.ClassifyLine | DaaS/PoCPhase3/tm10/parserCfgSched.c:296-300 | as intended, rows are non-empty and otherwise classified as written, and a line is skipped exactly when the code skips it or it is blank |
| ParserLib.BlankLineIsEmptyRow | DaaS/PoCPhase3/tm10/parserCfgSched.c:296-300 | a line holding only a newline is an empty row as written and skipped as intended |
| ParserLib.SectionIndex | DaaS/PoCPhase3/tm10/parserCfgSched.c:304-311 | a header selects the first section whose name is a prefix of it, or none |
| ParserLib.SectionIndexIs | DaaS/PoCPhase3/tm10/parserCfgSched.c:304-311 | the selected section is the only index with those three properties |
| ParserLib.FindSection | DaaS/PoCPhase3/tm10/parserCfgSched.c:304-311 | the name-comparison loop finds exactly that section |
| ParserLib.DriveIgnoresSkippedLine | DaaS/PoCPhase3/tm10/parserCfgSched.c:292-297 | a comment or blank line anywhere in a file does not change what the file parses to |
| ParserLib.DriveStartsInFirstSection | DaaS/PoCPhase3/tm10/parserCfgSched.c:291-329 | rows read before any header go to the first section's handler, as row 0 |
| ParserLib.DriveKeeps | DaaS/PoCPhase3/tm10/parserCfgSched.c:292-330 | a property that every accepted or failed row keeps holds of what a parse that returns leaves behind |
| ParserLib.OutcomeOf | DaaS/PoCPhase3/tm10/parserCfgSched.c:332-349 | a complete parse returns 0 and a failed one -1; an exit or undefined behaviour returns nothing |
| ParserLib.DriveAsWrittenAgrees | DaaS/PoCPhase3/tm10/parserCfgSched.c:292-297 | on a file without a blank line, the driver with the line test as written and the driver that skips blank lines give the same result |
| ParserLib.BlankRowAfterHeader | DaaS/PoCPhase3/tm10/parserCfgStream.c:174-175 | as written, a blank line right after a section header reaches that section's handler as the empty row, so a handler that fails on it fails the file with the handler's state; skipped as intended, the file parses as it would without the line |
| ParserSched.ZeroVlanTable | DaaS/PoCPhase3/tm10/parserCfgSched.c:81 | the cleared VLAN table holds only zero entries |
| ParserSched.SetPss | DaaS/PoCPhase3/tm10/parserCfgSched.c:111 | storing a slot's bundle changes that one entry of the given generation and keeps the other generation |
| ParserSched.SetBundle | DaaS/PoCPhase3/tm10/parserCfgSched.c:112-113 | storing a bundle record changes that one record of the given generation |
| ParserSched.SetBundleTwice | DaaS/PoCPhase3/tm10/parserCfgSched.c:112-152 | a second store into the same bundle record replaces the first |
| ParserSched.SetVlan | DaaS/PoCPhase3/tm10/parserCfgSched.c:225-235 | storing a VLAN entry changes that one entry |
| ParserSched.SetPath | DaaS/PoCPhase3/tm10/parserCfgSched.c:153-154 | storing a path record changes that one record of the given generation |
| ParserSched.TopLvlFields | DaaS/PoCPhase3/tm10/parserCfgSched.c:57-81 | a complete top-level row clears the VLAN table, stores the classifier type in both places and leaves the per-generation tables alone |
| ParserSched.TopLvlRow | DaaS/PoCPhase3/tm10/parserCfgSched.c:32-84 | the row fails, unchanged, exactly when it has fewer than seven fields; it exits exactly when the mode is not DCB_Q, RR or L2FWD; otherwise it clears the VLAN table and keeps the per-generation tables |
| ParserSched.TopLvlOfRow | DaaS/PoCPhase3/tm10/parserCfgSched.c:39-63 | a tab-separated row of seven fields, with or without more, sets the mode and the five 16-bit and one 32-bit fields to the truncated conversions of its fields |
| ParserSched.StoreTopLvl | DaaS/PoCPhase3/tm10/parserCfgSched.c:43-81 | the handler's stores compute the top-level row's configuration |
| ParserSched.TopLvlHandler | DaaS/PoCPhase3/tm10/parserCfgSched.c:32-84 | the handler's result and new configuration are those of the top-level row function on the fields its strtok loop stores |
| ParserSched.PssDecisionAsWritten | DaaS/PoCPhase3/tm10/parserCfgSched.c:94-109 | as written, a row with no field, or only a first field that matches its index, reads an unset token; a row that stores has its index as slot and a 16-bit bundle id below queuesNum; any other row is rejected |
| ParserSched.PssStoresOutOfBoundsAsWritten | DaaS/PoCPhase3/tm10/parserCfgSched.c:97-113 | as written, queuesNum 17 lets bundle 16 through and row 40000 is accepted for slot 40000, both one past their table |
| ParserSched.PssRow | DaaS/PoCPhase3/tm10/parserCfgSched.c:86-116 | the corrected row rejects a slot or bundle outside its table; an accepted row maps the slot to the bundle, names the bundle, adds one to its slot count and changes nothing else; any other result changes nothing |
| ParserSched.PssRowAgreesInBounds | DaaS/PoCPhase3/tm10/parserCfgSched.c:97-109 | within the table bounds the corrected row accepts and rejects exactly as written |
| ParserSched.PssHandler | DaaS/PoCPhase3/tm10/parserCfgSched.c:86-116 | the handler's result and stores are those of the corrected row on the fields its strtok loop stores |
| ParserSched.CountSlots | DaaS/PoCPhase3/tm10/parserCfgSched.c:111-113 | the count of slots mapped to a bundle is at most the number of slots counted |
| ParserSched.CountSlotsPrefix | DaaS/PoCPhase3/tm10/parserCfgSched.c:111-113 | slots at or past k do not change the count below k |
| ParserSched.PssRowCountsSlots | DaaS/PoCPhase3/tm10/parserCfgSched.c:111-113 | after each accepted row every bundle's slot count equals the number of the section's slots that map to it |
| ParserSched.RateRow | DaaS/PoCPhase3/tm10/parserCfgSched.c:118-168 | the row is accepted exactly when its 16-bit bundle and path ids are below 16 and its 32-bit rate is at most the link speed; an accepted row sets the bundle's rate and path and adds the rate (32-bit) and the bundle's slot count into the path; a rejected row leaves the paths alone |
| ParserSched.RateRowBadPathKeepsRate | DaaS/PoCPhase3/tm10/parserCfgSched.c:138-151 | a row whose path id is out of range fails but has already stored its rate in the bundle |
| ParserSched.StoreRate | DaaS/PoCPhase3/tm10/parserCfgSched.c:152-154 | the stores of an accepted rate row: the bundle's path, and the path's rate and slot count |
| ParserSched.RateHandler | DaaS/PoCPhase3/tm10/parserCfgSched.c:118-168 | the handler's result and stores are those of the rate row on the fields its strtok loop stores |
| ParserSched.MapVlanEntry | DaaS/PoCPhase3/tm10/parserCfgSched.c:224-235 | a mapping keeps both addresses six bytes long and both queue ids below 16 |
| ParserSched.MapRow | DaaS/PoCPhase3/tm10/parserCfgSched.c:170-259 | the row is accepted only with bundle and queue ids in 0..15 and room in the bundle, and then appends the queue; it fails exactly when an id is out of range or the bundle is full; a failed row changes nothing, and the VLAN table changes only under the VLAN+MAC classifier |
| ParserSched.MapRowAppends | DaaS/PoCPhase3/tm10/parserCfgSched.c:204-256 | an accepted mapping row appends its queue to the bundle's members and keeps the earlier ones |
| ParserSched.MapVlanSlots | DaaS/PoCPhase3/tm10/parserCfgSched.c:224-235 | the first address mapped for a VLAN id fills slot 1 with its queue and VLAN id; a second fills slot 2, unless the first was for queue 0, in which case it overwrites slot 1 |
| ParserSched.MapHandler | DaaS/PoCPhase3/tm10/parserCfgSched.c:170-259 | the handler's result and stores are those of the mapping row on the fields its strtok loop stores |
| ParserSched.ScfFile | DaaS/PoCPhase3/tm10/parserCfgSched.c:261-350 | a complete parse has non-zero timeslotsPerSeq and queuesNum; a parse that returns leaves what the driver left |
| ParserSched.UnknownSectionFails | DaaS/PoCPhase3/tm10/parserCfgSched.c:300-317 | an unknown section header ends the parse with -1 and leaves the configuration as it was |
| ParserSched.BlankLineAsWritten | DaaS/PoCPhase3/tm10/parserCfgSched.c:296-321 | a blank line reaches the current handler as an empty row: the top-level row fails and the PSS and rate rows read an unset token; skipped as intended, it is harmless (the handlers at parserCfgSched.c:39-41, :94-97 and :126-131) |
| ParserSched.DispatchRow | DaaS/PoCPhase3/tm10/parserCfgSched.c:321 | the section's handler is called and its result is that of the section's row function |
| ParserSched.DriveLine | DaaS/PoCPhase3/tm10/parserCfgSched.c:292-330 | one pass of the loop: an exit or undefined row stops with that outcome, a failed row returns -1 with the failed row's state, and otherwise the loop goes on in step with the driver function. A blank line is skipped, as intended; the code as written reads it as an empty row (see the Findings). |
| ParserSched.ParseScfCfgFile | DaaS/PoCPhase3/tm10/parserCfgSched.c:261-350 | the parse returns the outcome of the file's lines, and on a return the configuration is what the driver and the sanity check leave. A blank line is skipped, as intended; the code as written reads it as an empty row (see the Findings). |
| ParserStream.StreamIdCursor.constructor | DaaS/PoCPhase3/tm10/parserCfgStream.c:46 | the handler's static next-id counter starts at zero |
| ParserStream.SetStream | DaaS/PoCPhase3/tm10/parserCfgStream.c:68-130 | storing a stream record changes that one entry of the given generation |
| ParserStream.QuadBytes | DaaS/PoCPhase3/tm10/parserCfgStream.c:15-20 | the four octets sscanf stores for an address |
| ParserStream.StreamEntry | DaaS/PoCPhase3/tm10/parserCfgStream.c:68-130 | an accepted stream record has the row's id, addresses, packet size, VLAN id and priority, TTL 128 and protocol UDP, and keeps its dominance |
| ParserStream.StreamRow | DaaS/PoCPhase3/tm10/parserCfgStream.c:31-136 | the row returns -1, unchanged, exactly when it does not have ten fields; the other generation is never touched; on a coherent table a ten-field row is accepted exactly when its id is in 1..16 and the next in sequence, both addresses parse, the rate is in range, the 16-bit packet size is in 64..4000, the VLAN id is at most 4095, the priority at most 7 and both times are non-negative, and otherwise the process exits; an accepted row stores its record at the next index, sets the base on the first row, counts the stream and moves the next id on |
| ParserStream.StreamRowKeepsOrder | DaaS/PoCPhase3/tm10/parserCfgStream.c:53-133 | an accepted row appends a stream with the next id, so the table stays in id order |
| ParserStream.StreamFileInOrder | DaaS/PoCPhase3/tm10/parserCfgStream.c:138-224 | a parse that returns leaves streams 1..numStreams in id order, stream k with id base + k - 1 |
| ParserStream.StreamHandler | DaaS/PoCPhase3/tm10/parserCfgStream.c:31-136 | the handler's result and stores are those of the stream row on the fields its token loop stores |
| ParserStream.StrmDriveLine | DaaS/PoCPhase3/tm10/parserCfgStream.c:170-209 | one pass of the loop: an exit stops with that outcome, a failed row returns -1 with its state, and otherwise the loop goes on in step with the driver function. A blank line is skipped, as intended; the code as written reads it as an empty row (see the Findings). |
| ParserStream.ParseStreamFile | DaaS/PoCPhase3/tm10/parserCfgStream.c:138-224 | the parse returns the outcome of the file's lines, and on a return the stream table is what the driver leaves. A blank line is skipped, as intended; the code as written reads it as an empty row (see the Findings). |
| ParserStream.BlankRowFailsAsWritten | DaaS/PoCPhase3/tm10/parserCfgStream.c:174-175 | as written, a blank line inside [CONFIG_STREAMS] reaches the row handler as a row with none of the 10 fields (parserCfgStream.c:40-44), so the parse returns -1 and app_parse_strmcf exits (parserCfgStream.c:234-236); skipped as intended, the file parses as it would without the line |
| ParserIntf.IntfConf.constructor | DaaS/PoCPhase3/tm10/tmDefs.h:209-234 | an interface configuration as static storage leaves it: all zero |
| ParserIntf.ParseIpv4Str | DaaS/PoCPhase3/tm10/parserCfgIntf.c:22-33 | a string without four octets fails; otherwise the stored address holds the octets in order, first octet at the lowest address |
| ParserIntf.ParseIpv4StrPacks | DaaS/PoCPhase3/tm10/parserCfgIntf.c:25-31 | read back in host order, the stored address is a<<24, b<<16, c<<8, d combined |
| ParserIntf.PathMacRow | DaaS/PoCPhase3/tm10/parserCfgIntf.c:44-102 | the row returns -1, unchanged, exactly when it does not have two fields; with two it is accepted exactly when the name is srcMAC or dstMAC and the address parses, and then sets that one address of that path; otherwise the process exits |
| ParserIntf.Switch | DaaS/PoCPhase3/tm10/parserCfgIntf.c:118-121 | "enable" and "disable", exactly, select true and false |
| ParserIntf.VlanEncapRow | DaaS/PoCPhase3/tm10/parserCfgIntf.c:104-143 | the row returns -1, unchanged, exactly when it does not have two fields; with two it is accepted exactly for vlan enable or disable, vlanPri 0..7 or vlanId 0..1023, and then sets that one field; otherwise the process exits |
| ParserIntf.DscpAsWritten | DaaS/PoCPhase3/tm10/parserCfgIntf.c:176-182 | as written, only values above 0x3f are refused, and the long is stored into the 6-bit field modulo 64 |
| ParserIntf.DscpAsWrittenWraps | DaaS/PoCPhase3/tm10/parserCfgIntf.c:176-182 | as written, "-1" is accepted and stored as 63, and -64 as 0 |
| ParserIntf.Dscp | DaaS/PoCPhase3/tm10/parserCfgIntf.c:176-182 | the test the error message describes: 0..63, stored unchanged |
| ParserIntf.DscpAgreesInRange | DaaS/PoCPhase3/tm10/parserCfgIntf.c:176-182 | for non-negative values the corrected test decides as written |
| ParserIntf.SchedFieldNamed | DaaS/PoCPhase3/tm10/parserCfgIntf.c:157-216 | each of the eight field names of the strcmp chain is recognised exactly when the field equals it, and every other string is unknown |
| ParserIntf.SchedField | DaaS/PoCPhase3/tm10/parserCfgIntf.c:157-216 | a field is accepted exactly when it is ipVer IPV4, a dotted-quad srcIP or dstIP, dscp 0..63, ecn 0..3, dstPort 0..0xffff, or an enable/disable switch, and then sets that one field; anything else exits, changing nothing |
| ParserIntf.IntfSchedRow | DaaS/PoCPhase3/tm10/parserCfgIntf.c:145-219 | the row returns -1, unchanged, exactly when it does not have two fields, and only an accepted row changes anything |
| ParserIntf.SchedFieldInRange | DaaS/PoCPhase3/tm10/parserCfgIntf.c:176-196 | each scheduled-packet field is stored only within its checked range |
| ParserIntf.VlanEncapInRange | DaaS/PoCPhase3/tm10/parserCfgIntf.c:125-138 | vlanPri and vlanId are stored only within their checked ranges |
| ParserIntf.PathMacInRange | DaaS/PoCPhase3/tm10/parserCfgIntf.c:56-99 | a MAC row changes no numeric field, so a record in range stays in range |
| ParserIntf.IntfRowInRange | DaaS/PoCPhase3/tm10/parserCfgIntf.c:35-219 | no handler stores a value outside the range it checks |
| ParserIntf.IntfFileInRange | DaaS/PoCPhase3/tm10/parserCfgIntf.c:221-305 | a parse that returns, started from a record in range, leaves every numeric field in range |
| ParserIntf.IntfHeadersSelectOwnSection | DaaS/PoCPhase3/tm10/parserCfgIntf.c:234-273 | prefix matching still tells [INTF_CONFIG_SCHED] from [INTF_CONFIG_SCHED_MAC]: each header selects its own section |
| ParserIntf.PathMacHandler | DaaS/PoCPhase3/tm10/parserCfgIntf.c:44-102 | the handler's result and stores are those of the MAC row on the fields its token loop stores |
| ParserIntf.VlanEncapHandler | DaaS/PoCPhase3/tm10/parserCfgIntf.c:104-143 | the handler's result and stores are those of the VLAN row on the fields its token loop stores |
| ParserIntf.IntfSchedHandler | DaaS/PoCPhase3/tm10/parserCfgIntf.c:145-219 | the handler's result and stores are those of the scheduled-packet row on the fields its token loop stores |
| ParserIntf.SchedFieldHandler | DaaS/PoCPhase3/tm10/parserCfgIntf.c:157-216 | the strcmp chain over the field names computes the field function |
| ParserIntf.AddressFieldHandler | DaaS/PoCPhase3/tm10/parserCfgIntf.c:157-175 | the ipVer, srcIP and dstIP branches compute the field function: IPV4 or a dotted quad is stored, anything else exits |
| ParserIntf.NumericFieldHandler | DaaS/PoCPhase3/tm10/parserCfgIntf.c:176-196 | the dscp, ecn and dstPort branches compute the field function: a value in range is stored, any other exits |
| ParserIntf.SwitchFieldHandler | DaaS/PoCPhase3/tm10/parserCfgIntf.c:197-214 | the updateSeqNo and hwChksumOffload branches compute the field function: enable or disable is stored, anything else exits |
| ParserIntf.IntfDispatchRow | DaaS/PoCPhase3/tm10/parserCfgIntf.c:283 | the section's handler is called and its result is that of the section's row function |
| ParserIntf.IntfDriveLine | DaaS/PoCPhase3/tm10/parserCfgIntf.c:254-292 | one pass of the loop: an exit stops with that outcome, a failed row returns -1 with its state, and otherwise the loop goes on in step with the driver function. A blank line is skipped, as intended; the code as written reads it as an empty row (see the Findings). |
| ParserIntf.ParseIntfCfgFile | DaaS/PoCPhase3/tm10/parserCfgIntf.c:221-305 | the parse returns the outcome of the file's lines, and on a return the record is what the driver leaves. A blank line is skipped, as intended; the code as written reads it as an empty row (see the Findings). |
| ParserIntf.BlankRowFailsAsWritten | DaaS/PoCPhase3/tm10/parserCfgIntf.c:258-259 | as written, a blank line inside any of the four row sections reaches its handler as a row without the 2 tokens (parserCfgIntf.c:52-54), so the row fails unchanged, the parse returns -1 and app_parse_icf exits (parserCfgIntf.c:313-315); skipped as intended, the file parses as it would without the line |
| Reload.OtherGen | DaaS/PoCPhase3/tm10/tmSched.c:1697 | the reload writes the generation the dequeue loop is not reading |
| Reload.ClearConf | DaaS/PoCPhase3/tm10/tmSched.c:1699-1700 | after the memsets no slot of the generation is mapped and no bundle configured; the other generation and every path record are kept |
| Reload.ClearCredits | DaaS/PoCPhase3/tm10/tmSched.c:1701 | after its memset every bundle credit record of the generation is zero; the other generation is kept |
| Reload.NumberedQueuesSaturate | DaaS/PoCPhase3/tm10/tmSched.c:1702-1710 | with the loop bounded by the table, any count of 16 or more numbers all 16 queues as GBS with their own ids and zero credit |
| Reload.NumberingIndicesAsWritten | DaaS/PoCPhase3/tm10/tmSched.c:1704-1710 | as written, the loop stores to queuesNum indices |
| Reload.NumberingOverrunsAsWritten | DaaS/PoCPhase3/tm10/tmSched.c:1704-1710 | a top-level row can set queuesNum to 17, and the loop as written then stores to index 16, one past the end of the table (queuesNum is read at parserCfgSched.c:57) |
| Reload.NumberQueues | DaaS/PoCPhase3/tm10/tmSched.c:1702-1710 | the generation's queue table becomes the first min(queuesNum, 16) queues numbered as GBS, the rest zero; the other generation is kept |
| Reload.PathRecordsAccumulate | DaaS/PoCPhase3/tm10/tmSched.c:1699-1700 | the path records are not cleared, so loading the same rows into a generation a second time doubles path 1's slot count and rate (the += is at parserCfgSched.c:153-154) |
| Reload.ResetStreams | DaaS/PoCPhase3/tm10/tmSched.c:1725-1727 | after the reset the generation's streams are all zero with no stream counted and no base; the other generation and the handler's next id are kept |
| Reload.WithDefaultStream | DaaS/PoCPhase3/tm10/tmMain.c:44-79 | stream 0 takes stream 1's addresses, packet size 512, VLAN 0x100, priority 7, TTL 128 and UDP, and is counted; the other entries, the other generation, the base and the next id are kept |
| Reload.DefaultStreamAfterParsed | DaaS/PoCPhase3/tm10/tmMain.c:44-79 | after a stream parse and the defaults, entry 0 is the default stream and entries 1 .. numStreams-1 hold the file's streams in id order |
| Reload.StoreDefaultStream | DaaS/PoCPhase3/tm10/tmMain.c:47-77 | the stores compute the default stream |
| Reload.SchedRowKeepsOtherGen | DaaS/PoCPhase3/tm10/parserCfgSched.c:86-259 | a scheduler file row that returns writes only its own generation of the slot, bundle and path tables |
| Reload.ScfFileKeepsOtherGen | DaaS/PoCPhase3/tm10/parserCfgSched.c:261-350 | so does a whole scheduler file parse that returns |
| Reload.StreamFileKeepsOtherGen | DaaS/PoCPhase3/tm10/parserCfgStream.c:138-224 | a stream file parse that returns writes only its own generation of the stream table |
| Reload.ReloadedGeneration | DaaS/PoCPhase3/tm10/tmSched.c:1712-1744 | a reload that gets as far as the packet build has parsed both files completely, set a non-zero slot and queue count, left its streams in id order and kept the live generation |
| Reload.ReloadKeepsLiveGeneration | DaaS/PoCPhase3/tm10/tmSched.c:1699-1744 | a reload that returns leaves non-zero slot and queue counts and the live generation's slots, bundles, paths and streams as they were |
| Reload.ReloadGeneration | DaaS/PoCPhase3/tm10/tmSched.c:1694-1744 | the reload's outcome is that of the two parses and the packet build; on success the configuration and streams are the parsed ones, with the default stream once the packets are built; the generation's credits are cleared and its queues numbered with the queue count from before the parse; a new configuration is flagged exactly when everything succeeded |
| Reload.ClearGeneration | DaaS/PoCPhase3/tm10/tmSched.c:1699-1710 | the memsets and numbering clear the generation's slots, bundles and credits and number its queues, and leave the streams alone |
| Reload.ParseNewConf | DaaS/PoCPhase3/tm10/tmSched.c:1699-1713 | the memsets, the numbering and the scheduler file parse give that parse's outcome and configuration, clear the generation's credits, number its queues and leave the streams alone |
| Reload.ParseNewStreams | DaaS/PoCPhase3/tm10/tmSched.c:1722-1728 | the stream reset and parse give the stream file's outcome and streams, and leave the scheduler configuration alone |
| Reload.InstallStreams | DaaS/PoCPhase3/tm10/tmSched.c:1722-1744 | after the scheduler parse, the outcome is that of the stream parse and the packet build; the default stream is added and a new configuration flagged exactly when both succeed; the scheduler configuration is not touched |
| Reload.ReloadWatch.constructor | DaaS/PoCPhase3/tm10/tmSched.c:1622-1624 | the watcher starts unchecked, with nothing to free and generation 0 |
| Reload.UpdateConfig | DaaS/PoCPhase3/tm10/tmSched.c:1694-1747 | the update branch reloads the other generation, records which generation's buffers to free when it succeeded, and records the file's time whatever the outcome |
| Reload.CheckConfig | DaaS/PoCPhase3/tm10/tmSched.c:1672-1747 | a failed stat changes nothing; the first check records the file's time and never reloads; a later, newer time reloads; the generation the loop reads, the rings and the path credits are never written |
| Reload.RingsLostAsWritten | DaaS/PoCPhase3/tm10/tmSched.c:1699-1702 | as written, the rings are installed only in generation 0 and the memset of a generation's queues wipes their pointers: after one reload the scan finds no ring, and after a second the enqueue path finds none either (rings installed at tmSched.c:188, used at :625 and :1135) |

## Left out

- Threads and synchronisation are left out because their point is concurrency. This covers thread roles, the start barriers, `forceQuit`, `rte_mb` and the tx retry spin (tmSched.c:136-161, :918-920, :1527, :1590-1595). Each thread is modelled as a sequence of method calls on shared objects.
- DPDK calls are foreign code:
  - `rte_ring_*` becomes bounded sequences;
  - `rte_eth_rx_burst` and `rte_eth_tx_burst` are left out;
  - `rte_pktmbuf_free` marks a drop by a counter;
  - the MAC rewrite in `update_sched_mac` is left out.
- The IPv4 checksum recomputed by `rte_ipv4_cksum` after ECN marking is a library call, so the checksum field is left abstract.
- File and OS I/O is left out:
  - `stat()` is an `Option` of the modification time;
  - each configuration file is a sequence of lines;
  - `fopen` and `fgets` are not modelled.
- Lines longer than the 254 characters `fgets` reads at once are not split. Each line is one element.
- `atoi`, `strtol`, `sscanf` and `strtof` are given conversions (the `Conv` parameter), and `strdup` and `malloc` become string values.
- Floating-point code is left out because Dafny has no C doubles:
  - the delay-based ECN threshold (parserCfgSched.c:63-74);
  - the stream rate and latency checks (parserCfgStream.c:85-125), which become one boolean per row;
  - dominance classification (tmStreams.c:26-30), which is a per-queue input;
  - `StreamRatesValidate` (tmMain.c:44-79): its rate sum, panic and leftover rate are not modelled, and only the default-stream record is;
  - the timeslot and link-speed derivations (tmMain.c:160-186), which become parameters.
- `StreamPktInit` builds mbuf templates, so its outcome is a boolean parameter of the reload.
- The `freeOldBuffer` loop that frees the old generation's mbufs calls DPDK and reads an uninitialised index. Only the flag is modelled: a reload sets it, and nothing in the model clears it, because the periodic print block that frees the buffers and clears the flag (tmSched.c:1649-1655) is left out.
- ParserSched.ParseScfCfgFile: skips a blank line, as intended, where the code as written hands it to the row handler (see the Findings and `ParserSched.BlankLineAsWritten`).
- ParserStream.ParseStreamFile: skips a blank line, as intended, where the code as written fails the parse and `app_parse_strmcf` exits (see the Findings and `ParserStream.BlankRowFailsAsWritten`).
- ParserIntf.ParseIntfCfgFile: skips a blank line, as intended, where the code as written fails the parse and `app_parse_icf` exits (see the Findings and `ParserIntf.BlankRowFailsAsWritten`).
- The path and bundle slot counts (`numTimeslots`, `int32_t` in tmDefs.h:179, :187) are unbounded integers. Their 32-bit overflow is not modelled. A bundle's count is bounded by the 40000-slot table, but a path's count grows across reloads (see `Reload.PathRecordsAccumulate`).
- Credit values are unbounded integers wrapped explicitly to signed 64 bits where the code adds or multiplies. The refill's cap at 10^18 keeps the increment in range.
- Printing, statistics reporting and the DESCRIPTION section's text are left out (tmStats.c, dumpLib.c). The counters themselves are modelled.
- The second, duplicate `RoundDownToPowerOf2` test in tmEthdev.c is unreachable, so it is not modelled.
- The `IPV4_ADDR` macro shifts a signed int into the sign bit, which is undefined behaviour in C. The model packs into an unsigned 32-bit value.
- Interface rows with more than 2 tokens are modelled as the code treats them: the tokeniser stops at 2, so they are accepted.
- The SRR and L2FWD dequeue threads, INT/TLV insertion and `SchedDequeueThreadIdleWait` are disabled or never called by the DCB_Q mode, so they are not modelled. Their mode names are parsed.
- Reporting, template building and device bring-up are outside the core (tmStats.c, dumpLib.c, tmStreams.c, tmFlow.c, the rest of tmEthdev.c, tmMain.c, parserCmdline.c).
- OrionTMInt.h and OrionP4Int.h contain structures only. tmDefs.h's constants are used instead.

## Findings

| source | as written | input that shows it | evidently intended | confidence | as-written member | corrected member |
|---|---|---|---|---|---|---|
| DaaS/PoCPhase3/tm10/parserCfgSched.c:97-113 | a PSS row's bundle id is checked only against `queuesNum` (up to 65535) and its slot only against its row index, then both index fixed tables of 16 bundles and 40000 slots | `queuesNum` 17 with row `0\t16`, or row 40000 `40000\t0` | reject a bundle id of 16 or more and a slot of 40000 or more | not executed | ParserSched.PssStoresOutOfBoundsAsWritten | ParserSched.PssRowAgreesInBounds |
| DaaS/PoCPhase3/tm10/tmSched.c:1704-1710 | the reload numbers queues 0..queuesNum-1 in a table of 16 | a top-level row with `queuesNum` 17 | stop at the table's 16 entries | not executed | Reload.NumberingOverrunsAsWritten | Reload.NumberedQueuesSaturate |
| DaaS/PoCPhase3/tm10/parserCfgSched.c:296-300 | a line of just a newline is not skipped and reaches the row handler as an empty row | the line `\n` inside the TOPLVL or GBS_PSS section | skip blank lines like comments | not executed | ParserSched.BlankLineAsWritten | ParserLib.DriveIgnoresSkippedLine |
| DaaS/PoCPhase3/tm10/parserCfgStream.c:174-175 | a line of just a newline is not skipped; it reaches the stream handler as a row without its 10 fields, the parse returns -1 and `app_parse_strmcf` exits | the line `\n` inside the CONFIG_STREAMS section | skip blank lines like comments | not executed | ParserStream.BlankRowFailsAsWritten | ParserLib.DriveIgnoresSkippedLine |
| DaaS/PoCPhase3/tm10/parserCfgIntf.c:258-259 | a line of just a newline is not skipped; it reaches the row handler as a row without its 2 tokens, the parse returns -1 and `app_parse_icf` exits | the line `\n` inside the INTF_CONFIG_SCHED section, or any other row section | skip blank lines like comments | not executed | ParserIntf.BlankRowFailsAsWritten | ParserLib.DriveIgnoresSkippedLine |
| DaaS/PoCPhase3/tm10/tmSched.c:1699-1702 | GBS ring pointers live only in generation 0 (tmSched.c:188, :625), the scan reads `gbsQueue[confId]` (tmSched.c:1135), and the reload memset of a generation zeroes its ring pointers | two configuration reloads | keep the rings outside the double-buffered state | not executed | Reload.RingsLostAsWritten | Reload.CheckConfig |
| DaaS/PoCPhase3/common/OrionPktDefs.h:29-38 | AF11 has the value of CS1, and CS6 is written as the TOS byte 0xc0 rather than the code point 0x30 | `DSCP_TO_TOS(DSCP_CS6)` | the code points of section 4.2.2 of RFC 2474 and RFC 2597 | not executed | PktDefs.OrionDscpAsWrittenDefects | PktDefs.OrionDscpWellFormed |
| DaaS/PoCPhase3/tm10/parserCfgIntf.c:176-182 | `dscp` is checked only against 0x3f and then stored in a 6-bit field | the value `-1`, stored as 63 | reject values outside 0..63 | not executed | ParserIntf.DscpAsWrittenWraps | ParserIntf.DscpAgreesInRange |
