/**
 * USB Power Delivery messages as the port policy engine builds and reads them.
 *
 * The 16-bit Message Header follows section 6.2.1.1 of USB Power Delivery
 * Rev 2.0 (4-bit message type, bit 4 and bit 15 reserved); the fixed data
 * objects the firmware sends are decoded field by field against sections
 * 6.4.1 (power data objects), 6.4.2 (request data object) and 6.4.4
 * (vendor defined messages) of that revision.
 */
module PdMessage {

  // Control message types (USB PD Rev 2.0, section 6.3)
  const CTRL_GOOD_CRC: bv4 := 1
  const CTRL_ACCEPT: bv4 := 3
  const CTRL_REJECT: bv4 := 4
  const CTRL_PS_RDY: bv4 := 6
  const CTRL_GET_SINK_CAP: bv4 := 8
  const CTRL_DR_SWAP: bv4 := 9
  const CTRL_PR_SWAP: bv4 := 10

  // Data message types (USB PD Rev 2.0, section 6.4)
  const DATA_SOURCE_CAP: bv4 := 1
  const DATA_REQUEST: bv4 := 2
  const DATA_SINK_CAP: bv4 := 4
  const DATA_VENDOR_DEF: bv4 := 15

  /** Specification Revision field value for Rev 2.0 (PD_REV20). */
  const REV20: bv2 := 1

  /** The fields of a Message Header. */
  datatype Header = Header(
    msgType: bv4,     // bits 3..0
    dataRole: bv1,    // bit 5: 1 = DFP
    specRev: bv2,     // bits 7..6
    powerRole: bv1,   // bit 8: 1 = Source
    msgId: bv3,       // bits 11..9
    count: bv3        // bits 14..12: number of data objects
  )

  /** The header the firmware's PD_HEADER(type, prole, drole, id, cnt, PD_REV20, 0) builds. */
  function PdHeader(msgType: bv4, powerRole: bv1, dataRole: bv1, msgId: bv3, count: bv3): Header
  {
    Header(msgType, dataRole, REV20, powerRole, msgId, count)
  }

  /** Packs a header into its 16-bit wire form. */
  function EncodeHeader(h: Header): (w: bv16)
    ensures (w & 0x8010) == 0  // reserved bits stay clear, so the value fits a non-negative int16_t
  {
    (h.msgType as bv16)
    | ((h.dataRole as bv16) << 5)
    | ((h.specRev as bv16) << 6)
    | ((h.powerRole as bv16) << 8)
    | ((h.msgId as bv16) << 9)
    | ((h.count as bv16) << 12)
  }

  /** Reads the fields back out of a received 16-bit header (PD_HEADER_TYPE, PD_HEADER_CNT, ...). */
  function DecodeHeader(w: bv16): Header
  {
    Header(
      (w & 0xF) as bv4,
      ((w >> 5) & 1) as bv1,
      ((w >> 6) & 3) as bv2,
      ((w >> 8) & 1) as bv1,
      ((w >> 9) & 7) as bv3,
      ((w >> 12) & 7) as bv3)
  }

  lemma DecodeEncodeHeader(h: Header)
    ensures DecodeHeader(EncodeHeader(h)) == h
  {
  }

  lemma EncodeDecodeHeader(w: bv16)
    requires (w & 0x8010) == 0
    ensures EncodeHeader(DecodeHeader(w)) == w
  {
  }

  /** Start-of-packet kinds the firmware transmits with. */
  datatype TxSop = Sop | SopDebugPrimePrime

  /** A message handed to the transceiver: ordered set, header and data objects. */
  datatype Message = Message(sop: TxSop, header: Header, objects: seq<bv32>)

  /** The transceiver sends exactly as many data objects as the header announces. */
  predicate WellFormed(m: Message)
  {
    |m.objects| == m.header.count as int
  }

  // ---------------------------------------------------------------------
  // Field readers for the data objects

  /** Fixed supply power data object: supply type (bits 31..30, 0 = fixed). */
  function PdoSupplyType(o: bv32): bv32 { (o >> 30) & 3 }
  /** Fixed supply PDO: voltage in 50 mV units (bits 19..10). */
  function PdoVoltage50mV(o: bv32): bv32 { (o >> 10) & 0x3FF }
  /** Fixed supply PDO: current in 10 mA units (bits 9..0). */
  function PdoCurrent10mA(o: bv32): bv32 { o & 0x3FF }
  /** Fixed supply PDO: USB Communications Capable (bit 26). */
  function PdoUsbCommCapable(o: bv32): bool { ((o >> 26) & 1) == 1 }

  /** Request data object: Object Position (bits 30..28). */
  function RdoObjectPosition(o: bv32): bv32 { (o >> 28) & 7 }
  /** Request data object: GiveBack flag (bit 27). */
  function RdoGiveBack(o: bv32): bool { ((o >> 27) & 1) == 1 }
  /** Request data object: Capability Mismatch (bit 26). */
  function RdoCapabilityMismatch(o: bv32): bool { ((o >> 26) & 1) == 1 }
  /** Request data object: USB Communications Capable (bit 25). */
  function RdoUsbCommCapable(o: bv32): bool { ((o >> 25) & 1) == 1 }
  /** Request data object: operating current in 10 mA units (bits 19..10). */
  function RdoOperatingCurrent(o: bv32): bv32 { (o >> 10) & 0x3FF }
  /** Request data object: maximum operating current in 10 mA units (bits 9..0). */
  function RdoMaxCurrent(o: bv32): bv32 { o & 0x3FF }

  /** Structured VDM header fields (USB PD Rev 2.0, section 6.4.4.1). */
  datatype VdmHeader = VdmHeader(
    svid: bv16,       // bits 31..16
    structured: bool, // bit 15
    version: bv2,     // bits 14..13
    objPos: bv3,      // bits 10..8
    cmdType: bv2,     // bits 7..6: 0 = REQ, 1 = ACK, 2 = NAK, 3 = BUSY
    command: bv5      // bits 4..0
  )

  const CMD_TYPE_REQ: bv2 := 0
  const CMD_TYPE_ACK: bv2 := 1
  const CMD_DISCOVER_IDENTITY: bv5 := 1
  const PD_SID: bv16 := 0xFF00
  const APPLE_VID: bv16 := 0x05AC

  function DecodeVdmHeader(o: bv32): VdmHeader
  {
    VdmHeader(
      (o >> 16) as bv16,
      ((o >> 15) & 1) == 1,
      ((o >> 13) & 3) as bv2,
      ((o >> 8) & 7) as bv3,
      ((o >> 6) & 3) as bv2,
      (o & 0x1F) as bv5)
  }

  function EncodeVdmHeader(v: VdmHeader): (o: bv32)
    ensures (o & 0x1820) == 0  // reserved bits 12..11 and 5 stay clear
  {
    ((v.svid as bv32) << 16)
    | ((if v.structured then 1 else 0) << 15)
    | ((v.version as bv32) << 13)
    | ((v.objPos as bv32) << 8)
    | ((v.cmdType as bv32) << 6)
    | (v.command as bv32)
  }

  lemma DecodeEncodeVdmHeader(v: VdmHeader)
    ensures DecodeVdmHeader(EncodeVdmHeader(v)) == v
  {
  }

  // ---------------------------------------------------------------------
  // The fixed objects and messages the firmware sends

  /** First object of a Discover Identity request, the only VDM the firmware answers. */
  const DISCOVER_IDENTITY_REQUEST: bv32 := 0xff008001

  /** Structured VDM header of the SET ACTION command used for the serial route and reboot. */
  const SET_ACTION_HEADER: bv32 := 0x5AC8012

  /** The empty debug probe: a one-object vendor message on SOP''_Debug carrying 0. */
  function DebugProbe(): (m: Message)
    ensures WellFormed(m) && m.sop == SopDebugPrimePrime
    ensures m.header.msgType == DATA_VENDOR_DEF && m.objects == [0]
  {
    Message(SopDebugPrimePrime, PdHeader(DATA_VENDOR_DEF, 1, 1, 0, 1), [0])
  }

  /** The Request sent when a Source_Capabilities arrives: position 1, no current. */
  function PowerRequest(): (m: Message)
    ensures WellFormed(m) && m.sop == Sop && m.header.msgType == DATA_REQUEST
    ensures m.header.powerRole == 0 && m.header.dataRole == 0
    ensures |m.objects| == 1
    ensures var rdo := m.objects[0];
      && RdoObjectPosition(rdo) == 1 && RdoUsbCommCapable(rdo)
      && !RdoGiveBack(rdo) && !RdoCapabilityMismatch(rdo)
      && RdoOperatingCurrent(rdo) == 0 && RdoMaxCurrent(rdo) == 0
  {
    Message(Sop, PdHeader(DATA_REQUEST, 0, 0, 0, 1), [0x12000000])
  }

  /** Sink_Capabilities: one fixed PDO, USB communications capable, all else zero. */
  function SinkCapabilities(): (m: Message)
    ensures WellFormed(m) && m.sop == Sop && m.header.msgType == DATA_SINK_CAP
    ensures |m.objects| == 1
    ensures var pdo := m.objects[0];
      && PdoSupplyType(pdo) == 0 && PdoUsbCommCapable(pdo)
      && PdoVoltage50mV(pdo) == 0 && PdoCurrent10mA(pdo) == 0
  {
    Message(Sop, PdHeader(DATA_SINK_CAP, 1, 1, 0, 1), [0x04000000])
  }

  /** Source_Capabilities: one fixed supply PDO of 5 V (100 x 50 mV) at 1.5 A (150 x 10 mA). */
  function SourceCapabilities(): (m: Message)
    ensures WellFormed(m) && m.sop == Sop && m.header.msgType == DATA_SOURCE_CAP
    ensures m.header.powerRole == 1 && m.header.dataRole == 1
    ensures |m.objects| == 1
    ensures var pdo := m.objects[0];
      && PdoSupplyType(pdo) == 0 && PdoUsbCommCapable(pdo)
      && PdoVoltage50mV(pdo) == 100 && PdoCurrent10mA(pdo) == 150
  {
    Message(Sop, PdHeader(DATA_SOURCE_CAP, 1, 1, 0, 1), [0x37019096])
  }

  /** The Discover Identity ACK: the request's VDM header with the command type set to ACK,
    * an ID header VDO for a USB device with Apple's VID, a zero cert stat VDO and a product VDO. */
  function DiscoverIdentityAck(): (m: Message)
    ensures WellFormed(m) && m.sop == Sop && m.header.msgType == DATA_VENDOR_DEF
    ensures |m.objects| == 4
    ensures DecodeVdmHeader(m.objects[0])
      == DecodeVdmHeader(DISCOVER_IDENTITY_REQUEST).(cmdType := CMD_TYPE_ACK)
    ensures DecodeVdmHeader(m.objects[0]).svid == PD_SID
    ensures DecodeVdmHeader(m.objects[0]).command == CMD_DISCOVER_IDENTITY
    ensures ((m.objects[1] >> 30) & 1) == 1 && (m.objects[1] & 0xFFFF) == APPLE_VID as bv32
    ensures m.objects[2] == 0
    ensures (m.objects[3] >> 16) == 1 && (m.objects[3] & 0xFFFF) == 0x100
  {
    Message(Sop, PdHeader(DATA_VENDOR_DEF, 0, 0, 0, 4),
      [0xff008001 | (1 << 6), (1 << 30) | 0x5ac, 0, (0x0001 << 16) | 0x100])
  }

  /** Control messages carry no data objects. */
  function ControlMessage(msgType: bv4): (m: Message)
    ensures WellFormed(m) && m.sop == Sop && m.header.msgType == msgType && m.objects == []
    ensures m.header.powerRole == 1 && m.header.dataRole == 1
  {
    Message(Sop, PdHeader(msgType, 1, 1, 0, 0), [])
  }

  /** SET ACTION asking the device to route its debug UART over SBU1/2. */
  function SbuRouteVdm(): (m: Message)
    ensures WellFormed(m) && m.sop == SopDebugPrimePrime && m.header.msgType == DATA_VENDOR_DEF
    ensures |m.objects| == 2
    ensures DecodeVdmHeader(m.objects[0]).svid == APPLE_VID && DecodeVdmHeader(m.objects[0]).structured
  {
    Message(SopDebugPrimePrime, PdHeader(DATA_VENDOR_DEF, 1, 1, 0, 2), [SET_ACTION_HEADER, 0x01840306])
  }

  /** SET ACTION asking the device to reboot. */
  function RebootVdm(): (m: Message)
    ensures WellFormed(m) && m.sop == SopDebugPrimePrime && m.header.msgType == DATA_VENDOR_DEF
    ensures |m.objects| == 3 && m.objects[0] == SbuRouteVdm().objects[0]
  {
    Message(SopDebugPrimePrime, PdHeader(DATA_VENDOR_DEF, 1, 1, 0, 3),
      [SET_ACTION_HEADER, 0x0105, 0x8000 << 16])
  }
}
