/**
 * The per-port PD policy engine of vdmtool.c, as functions on a value.
 *
 * A Port holds the fields of one `struct vdm_context` (plus whether the port
 * has a hardware binding and whether its interrupt line is armed). Every
 * handler maps a Port and the values it reads from the transceiver to a Step:
 * the new Port and the transceiver/board calls it makes, in order. The class
 * in VdmTool performs the same handlers in place and is proved to follow these
 * functions; the lemmas here state what the handlers promise.
 */
module PortPolicy {
  import opened Wrappers
  import opened PdMessage
  import opened Transceiver

  /** enum state; STATE_INVALID is never assigned and has no counterpart. */
  datatype State = Disconnected | Connected | Ready | DfpVbusOn | DfpConnected | DfpAccept | Idle

  /** A CC level of 2 or more (as reported by the transceiver) means a partner is attached. */
  const ATTACH_THRESHOLD := 2
  /** Ticks in DFP_VBUS_ON before Source_Capabilities is sent again. */
  const SOURCE_CAP_RETRY := 37
  /** Debounce fires once the post-incremented counter was already above this. */
  const DEBOUNCE_LIMIT := 5

  /** The two CC levels one fusb302_tcpm_get_cc call returns. */
  datatype CcReading = CcReading(cc1: int, cc2: int)

  predicate Attached(r: CcReading)
  {
    r.cc1 >= ATTACH_THRESHOLD || r.cc2 >= ATTACH_THRESHOLD
  }

  datatype Port = Port(
    state: State,
    sourceCapTimer: int,
    ccDebounce: int,
    pending: bool,
    verbose: bool,
    escape: bool,     // vdm_escape
    present: bool,    // hw != NULL
    irqArmed: bool)   // level-low interrupt enabled on FUSB_INT
  {
    /** The counters stay in these ranges, so their int16_t fields never overflow. */
    predicate Inv()
    {
      && 0 <= sourceCapTimer <= SOURCE_CAP_RETRY
      && 0 <= ccDebounce <= DEBOUNCE_LIMIT + 1
    }
  }

  /** Only the state and the counters can differ between p and q. */
  predicate SameFlags(p: Port, q: Port)
  {
    && q.pending == p.pending && q.verbose == p.verbose && q.escape == p.escape
    && q.present == p.present && q.irqArmed == p.irqArmed
  }

  /** The outcome of a handler: the new port and the calls made, in order. */
  datatype Step = Step(port: Port, actions: seq<Action>)

  // ---------------------------------------------------------------------
  // Transmit helpers (send_*, debug_poke, vdm_fun, vdm_send_reboot)

  function DebugPoke(): seq<Action> { [Transmit(DebugProbe())] }
  function SendPowerRequest(): seq<Action> { [Transmit(PowerRequest())] }
  function HandleDiscoverIdentity(): seq<Action> { [Transmit(DiscoverIdentityAck())] }
  function VdmFun(): seq<Action> { [Transmit(SbuRouteVdm())] }
  function VdmSendReboot(): seq<Action> { [Transmit(RebootVdm())] }

  function SendSinkCap(p: Port): (s: Step)
    ensures s.port == p.(state := Ready) && Transmitted(s.actions) == [SinkCapabilities()]
  {
    Step(p.(state := Ready), [Transmit(SinkCapabilities())])
  }

  function SendSourceCap(p: Port): (s: Step)
    ensures s.port == p.(sourceCapTimer := 0) && Transmitted(s.actions) == [SourceCapabilities()]
  {
    Step(p.(sourceCapTimer := 0), [Transmit(SourceCapabilities())])
  }

  function HandlePowerRequest(p: Port): (s: Step)
    ensures s.port == p.(state := DfpAccept) && Transmitted(s.actions) == [ControlMessage(CTRL_ACCEPT)]
  {
    Step(p.(state := DfpAccept), [Transmit(ControlMessage(CTRL_ACCEPT))])
  }

  function SendPsRdy(p: Port): (s: Step)
    ensures s.port == p.(state := Idle) && Transmitted(s.actions) == [ControlMessage(CTRL_PS_RDY)]
  {
    Step(p.(state := Idle), [Transmit(ControlMessage(CTRL_PS_RDY))])
  }

  function SendReject(p: Port): (s: Step)
    ensures s.port == p.(state := Idle) && Transmitted(s.actions) == [ControlMessage(CTRL_REJECT)]
  {
    Step(p.(state := Idle), [Transmit(ControlMessage(CTRL_REJECT))])
  }

  // ---------------------------------------------------------------------
  // Attach and detach

  /** evt_dfpconnect: re-read CC; attach as source/DFP or give up. */
  function EvtDfpConnect(p: Port, cc: CcReading): (s: Step)
    ensures !Attached(cc) ==> s == Step(p, [])
    ensures Attached(cc) ==> s.port == p.(state := DfpVbusOn)
  {
    if !Attached(cc) then Step(p, [])
    else
      Step(p.(state := DfpVbusOn),
        [PdReset, SetMsgHeader(1, 1), SetPolarity(if cc.cc1 > cc.cc2 then 0 else 1),
         SetRxEnable(true), VbusOn] + DebugPoke())
  }

  /** What a successful attach leaves in the transceiver and sends. */
  lemma AttachSettings(p: Port, cc: CcReading)
    requires Attached(cc)
    ensures var s := EvtDfpConnect(p, cc);
      && (Last(s.actions, Polarity) == Some(0) <==> cc.cc1 > cc.cc2)
      && (Last(s.actions, Polarity) == Some(1) <==> cc.cc1 <= cc.cc2)
      && RxEnabled(s.actions) && VbusIsOn(s.actions)
      && Transmitted(s.actions) == [DebugProbe()]
  {
    var pol := if cc.cc1 > cc.cc2 then 0 else 1;
    var a := EvtDfpConnect(p, cc).actions;
    assert a == [PdReset, SetMsgHeader(1, 1)] + [SetPolarity(pol)] + [SetRxEnable(true), VbusOn, Transmit(DebugProbe())];
    LastWriter([PdReset, SetMsgHeader(1, 1)], SetPolarity(pol), [SetRxEnable(true), VbusOn, Transmit(DebugProbe())], Polarity);
    assert a == [PdReset, SetMsgHeader(1, 1), SetPolarity(pol)] + [SetRxEnable(true)] + [VbusOn, Transmit(DebugProbe())];
    LastWriter([PdReset, SetMsgHeader(1, 1), SetPolarity(pol)], SetRxEnable(true), [VbusOn, Transmit(DebugProbe())], Rx);
    assert a == [PdReset, SetMsgHeader(1, 1), SetPolarity(pol), SetRxEnable(true)] + [VbusOn] + [Transmit(DebugProbe())];
    LastWriter([PdReset, SetMsgHeader(1, 1), SetPolarity(pol), SetRxEnable(true)], VbusOn, [Transmit(DebugProbe())], Vbus);
    var setup := [PdReset, SetMsgHeader(1, 1), SetPolarity(pol), SetRxEnable(true), VbusOn];
    NoTransmit(setup);
    TransmittedAppend(setup, [Transmit(DebugProbe())]);
  }

  /** evt_disconnect: VBUS off, PD logic reset, RX off, advertise Rp again. */
  function EvtDisconnect(p: Port): (s: Step)
    ensures s.port == p.(state := Disconnected)
  {
    Step(p.(state := Disconnected), [VbusOff, PdReset, SetRxEnable(false), SelectRpUsb, SetCc(CcRp)])
  }

  /** From any port, disconnect leaves VBUS off and RX disabled, sends nothing,
    * and a second disconnect changes nothing further. */
  lemma DisconnectSettles(p: Port)
    ensures var s := EvtDisconnect(p);
      && s.port.state == Disconnected && VbusIsOff(s.actions) && RxDisabled(s.actions)
      && Transmitted(s.actions) == []
      && EvtDisconnect(s.port) == s
  {
    var a := EvtDisconnect(p).actions;
    assert a == [] + [VbusOff] + [PdReset, SetRxEnable(false), SelectRpUsb, SetCc(CcRp)];
    LastWriter([], VbusOff, [PdReset, SetRxEnable(false), SelectRpUsb, SetCc(CcRp)], Vbus);
    assert a == [VbusOff, PdReset] + [SetRxEnable(false)] + [SelectRpUsb, SetCc(CcRp)];
    LastWriter([VbusOff, PdReset], SetRxEnable(false), [SelectRpUsb, SetCc(CcRp)], Rx);
    NoTransmit(a);
  }

  /** Whatever came before, a disconnect leaves the hardware in the same settings. */
  lemma DisconnectIdempotent(p: Port, before: seq<Action>)
    ensures var once := before + EvtDisconnect(p).actions;
      var twice := once + EvtDisconnect(EvtDisconnect(p).port).actions;
      && EvtDisconnect(EvtDisconnect(p).port).port == EvtDisconnect(p).port
      && Last(twice, Vbus) == Last(once, Vbus) == Some(0)
      && Last(twice, Rx) == Last(once, Rx) == Some(0)
      && Last(twice, Polarity) == Last(once, Polarity)
  {
    var d := EvtDisconnect(p).actions;
    DisconnectSettles(p);
    assert EvtDisconnect(EvtDisconnect(p).port).actions == d;
    NoPolarityInDisconnect(p);
    LastAppend(before, d, Vbus);
    LastAppend(before + d, d, Vbus);
    LastAppend(before, d, Rx);
    LastAppend(before + d, d, Rx);
    LastAppend(before, d, Polarity);
    LastAppend(before + d, d, Polarity);
  }

  lemma NoPolarityInDisconnect(p: Port)
    ensures Last(EvtDisconnect(p).actions, Polarity) == None
  {
    LastNone(EvtDisconnect(p).actions, Polarity);
  }

  // ---------------------------------------------------------------------
  // Received messages

  /** One entry popped from the RX FIFO: fusb302_tcpm_get_message either fails
    * (nothing there, or only a GoodCRC) or yields a header and its data objects. */
  datatype RxEntry = NoMessage | Packet(header: bv16, objects: seq<bv32>)

  predicate RxWellFormed(e: RxEntry)
  {
    e.Packet? ==> |e.objects| == DecodeHeader(e.header).count as int
  }

  /** handle_vdm: only a Discover Identity request is answered. */
  function HandleVdm(p: Port, first: bv32): (s: Step)
    ensures first == DISCOVER_IDENTITY_REQUEST ==>
      s.port == p.(state := Ready) && Transmitted(s.actions) == [DiscoverIdentityAck()]
    ensures first != DISCOVER_IDENTITY_REQUEST ==> s == Step(p, [])
  {
    if first == DISCOVER_IDENTITY_REQUEST then Step(p.(state := Ready), HandleDiscoverIdentity())
    else Step(p, [])
  }

  /** handle_msg: dispatch on the object count, then on the message type. */
  function HandleMsg(p: Port, hdr: bv16, objs: seq<bv32>): (s: Step)
    requires |objs| == DecodeHeader(hdr).count as int
    ensures s.port == p.(state := s.port.state)
    ensures |s.actions| <= 1 && (s.actions != [] ==> s.actions[0].Transmit? && WellFormed(s.actions[0].msg))
    ensures s.actions == [] ==> s.port == p
  {
    var h := DecodeHeader(hdr);
    if h.count != 0 then
      if h.msgType == DATA_SOURCE_CAP then Step(p, SendPowerRequest())
      else if h.msgType == DATA_REQUEST then HandlePowerRequest(p)
      else if h.msgType == DATA_VENDOR_DEF then HandleVdm(p, objs[0])
      else Step(p, [])
    else
      if h.msgType == CTRL_PR_SWAP || h.msgType == CTRL_DR_SWAP then SendReject(p)
      else if h.msgType == CTRL_GET_SINK_CAP then SendSinkCap(p)
      else Step(p, [])
  }

  /** The reply and next state for each kind of message the engine recognises;
    * every other message changes nothing and sends nothing. */
  lemma DispatchTable(p: Port, hdr: bv16, objs: seq<bv32>)
    requires |objs| == DecodeHeader(hdr).count as int
    ensures var h := DecodeHeader(hdr); var s := HandleMsg(p, hdr, objs);
      && (h.count != 0 && h.msgType == DATA_REQUEST ==>
            s == Step(p.(state := DfpAccept), [Transmit(ControlMessage(CTRL_ACCEPT))]))
      && (h.count == 0 && (h.msgType == CTRL_PR_SWAP || h.msgType == CTRL_DR_SWAP) ==>
            s == Step(p.(state := Idle), [Transmit(ControlMessage(CTRL_REJECT))]))
      && (h.count == 0 && h.msgType == CTRL_GET_SINK_CAP ==>
            s == Step(p.(state := Ready), [Transmit(SinkCapabilities())]))
      && (h.count != 0 && h.msgType == DATA_VENDOR_DEF && objs[0] == DISCOVER_IDENTITY_REQUEST ==>
            s == Step(p.(state := Ready), [Transmit(DiscoverIdentityAck())]))
      && (h.count != 0 && h.msgType == DATA_SOURCE_CAP ==>
            s == Step(p, [Transmit(PowerRequest())]))
      && (!Recognised(hdr, objs) ==> s == Step(p, []))
  {
  }

  /** The messages handle_msg answers. */
  predicate Recognised(hdr: bv16, objs: seq<bv32>)
    requires |objs| == DecodeHeader(hdr).count as int
  {
    var h := DecodeHeader(hdr);
    if h.count != 0 then
      h.msgType in {DATA_SOURCE_CAP, DATA_REQUEST}
      || (h.msgType == DATA_VENDOR_DEF && objs[0] == DISCOVER_IDENTITY_REQUEST)
    else
      h.msgType in {CTRL_PR_SWAP, CTRL_DR_SWAP, CTRL_GET_SINK_CAP}
  }

  /** evt_packet: a failed read (empty FIFO or GoodCRC) is ignored. */
  function EvtPacket(p: Port, e: RxEntry): (s: Step)
    requires RxWellFormed(e)
    ensures e.NoMessage? ==> s == Step(p, [])
  {
    match e
    case NoMessage => Step(p, [])
    case Packet(hdr, objs) => HandleMsg(p, hdr, objs)
  }

  /** The GCRCSENT loop of handle_irq: every entry up to the empty FIFO, in order. */
  function DrainRx(p: Port, fifo: seq<RxEntry>): (s: Step)
    requires forall i :: 0 <= i < |fifo| ==> RxWellFormed(fifo[i])
    ensures s.port == p.(state := s.port.state)
    decreases |fifo|
  {
    if fifo == [] then Step(p, [])
    else
      var s1 := DrainRx(p, fifo[..|fifo| - 1]);
      var s2 := EvtPacket(s1.port, fifo[|fifo| - 1]);
      Step(s2.port, s1.actions + s2.actions)
  }

  /** Draining the FIFO only transmits, and every message it sends announces
    * exactly as many data objects as it carries. */
  lemma {:induction false} DrainRxSendsWellFormed(p: Port, fifo: seq<RxEntry>)
    requires forall i :: 0 <= i < |fifo| ==> RxWellFormed(fifo[i])
    ensures var a := DrainRx(p, fifo).actions;
      AllWellFormed(a) && forall i :: 0 <= i < |a| ==> a[i].Transmit?
  {
    if fifo != [] {
      DrainRxSendsWellFormed(p, fifo[..|fifo| - 1]);
    }
  }

  /** evt_sent: a completed transmission advances the two transient states. */
  function EvtSent(p: Port): (s: Step)
    ensures p.state == DfpVbusOn ==> s.port == p.(state := DfpConnected) && Transmitted(s.actions) == [SbuRouteVdm()]
    ensures p.state == DfpAccept ==> s.port == p.(state := Idle) && Transmitted(s.actions) == [ControlMessage(CTRL_PS_RDY)]
    ensures p.state !in {DfpVbusOn, DfpAccept} ==> s == Step(p, [])
  {
    match p.state
    case DfpVbusOn => Step(p.(state := DfpConnected), VdmFun())
    case DfpAccept => SendPsRdy(p)
    case _ => Step(p, [])
  }

  /** A Request answered with Accept, then the transmit-complete of that Accept,
    * sends Accept and PS_RDY in that order and settles in IDLE. */
  lemma RequestThenTxSuccessSettlesIdle(p: Port, rdo: bv32)
    ensures var hdr := EncodeHeader(PdHeader(DATA_REQUEST, 0, 0, 0, 1));
      var s1 := HandleMsg(p, hdr, [rdo]);
      var s2 := EvtSent(s1.port);
      && Transmitted(s1.actions + s2.actions) == [ControlMessage(CTRL_ACCEPT), ControlMessage(CTRL_PS_RDY)]
      && s2.port == p.(state := Idle)
  {
    var hdr := EncodeHeader(PdHeader(DATA_REQUEST, 0, 0, 0, 1));
    DecodeEncodeHeader(PdHeader(DATA_REQUEST, 0, 0, 0, 1));
    var s1 := HandleMsg(p, hdr, [rdo]);
    assert s1 == HandlePowerRequest(p);
    TransmittedAppend(s1.actions, EvtSent(s1.port).actions);
  }

  // ---------------------------------------------------------------------
  // Interrupts

  /** The interrupt bits handle_irq tests, read (and cleared) by fusb302_get_irq. */
  datatype IrqStatus = IrqStatus(
    vbusOk: bool,     // INTERRUPT: VBUSOK
    hardReset: bool,  // INTERRUPTA: HARDRESET
    txSuccess: bool,  // INTERRUPTA: TX_SUCCESS
    gcrcSent: bool)   // INTERRUPTB: GCRCSENT

  /** The VBUSOK branch: re-advertise if VBUS is there, disconnect if it is gone. */
  function OnVbusOk(p: Port, vbusPresent: bool): (s: Step)
    ensures vbusPresent ==>
      s.port == p.(sourceCapTimer := 0) && Transmitted(s.actions) == [SourceCapabilities(), DebugProbe()]
    ensures !vbusPresent ==> s == EvtDisconnect(p)
  {
    if vbusPresent then
      var sc := SendSourceCap(p);
      Step(sc.port, sc.actions + DebugPoke())
    else EvtDisconnect(p)
  }

  /** What every interrupt handler keeps: the flags, the debounce counter and the invariant. */
  predicate Kept(p: Port, q: Port)
  {
    SameFlags(p, q) && q.ccDebounce == p.ccDebounce && (p.Inv() ==> q.Inv())
  }

  /** The VBUSOK bit of handle_irq. */
  function IrqVbusOk(p: Port, irq: IrqStatus, vbusPresent: bool): (s: Step)
    ensures Kept(p, s.port)
    ensures irq.vbusOk ==> s == OnVbusOk(p, vbusPresent)
    ensures !irq.vbusOk ==> s == Step(p, [])
  {
    if irq.vbusOk then OnVbusOk(p, vbusPresent) else Step(p, [])
  }

  /** The HARDRESET bit of handle_irq. */
  function IrqHardReset(p: Port, irq: IrqStatus): (s: Step)
    ensures Kept(p, s.port) && s.port.sourceCapTimer == p.sourceCapTimer
    ensures irq.hardReset ==> s.port.state == Disconnected
    ensures !irq.hardReset ==> s == Step(p, [])
  {
    if irq.hardReset then EvtDisconnect(p) else Step(p, [])
  }

  /** The TX_SUCCESS bit of handle_irq. */
  function IrqTxSuccess(p: Port, irq: IrqStatus): (s: Step)
    ensures Kept(p, s.port) && s.port.sourceCapTimer == p.sourceCapTimer
    ensures irq.txSuccess ==> s == EvtSent(p)
    ensures !irq.txSuccess ==> s == Step(p, [])
    ensures p.state == Disconnected ==> s == Step(p, [])
  {
    if irq.txSuccess then EvtSent(p) else Step(p, [])
  }

  /** The GCRCSENT bit of handle_irq. */
  function IrqRx(p: Port, irq: IrqStatus, fifo: seq<RxEntry>): (s: Step)
    requires forall i :: 0 <= i < |fifo| ==> RxWellFormed(fifo[i])
    ensures Kept(p, s.port) && s.port.sourceCapTimer == p.sourceCapTimer
    ensures !irq.gcrcSent ==> s == Step(p, [])
  {
    if irq.gcrcSent then DrainRx(p, fifo) else Step(p, [])
  }

  /** handle_irq: VBUSOK, then HARDRESET, then TX_SUCCESS, then the RX drain. */
  function HandleIrq(p: Port, irq: IrqStatus, vbusPresent: bool, fifo: seq<RxEntry>): (s: Step)
    requires forall i :: 0 <= i < |fifo| ==> RxWellFormed(fifo[i])
    ensures Kept(p, s.port)
    ensures irq.hardReset && !irq.gcrcSent ==> s.port.state == Disconnected
  {
    var s1 := IrqVbusOk(p, irq, vbusPresent);
    var s2 := IrqHardReset(s1.port, irq);
    var s3 := IrqTxSuccess(s2.port, irq);
    var s4 := IrqRx(s3.port, irq, fifo);
    Step(s4.port, s1.actions + s2.actions + s3.actions + s4.actions)
  }

  // ---------------------------------------------------------------------
  // The periodic tick

  /** The switch of state_machine. */
  function Tick(p: Port, poll: CcReading, attach: CcReading): (s: Step)
    ensures p.Inv() ==> s.port.Inv()
    ensures SameFlags(p, s.port)
    ensures p.state != Disconnected ==> s.port.state != Disconnected && s.port.ccDebounce == p.ccDebounce
    ensures p.state == Disconnected && s.port.state != Disconnected ==> Attached(poll) && Attached(attach)
    ensures p.state == Ready ==> s == Step(p.(state := Idle), [])
    ensures p.state !in {DfpVbusOn, Ready, Disconnected} ==> s == Step(p, [])
  {
    match p.state
    case Disconnected =>
      if Attached(poll) then
        var c := EvtDfpConnect(p, attach);
        Step(c.port, [Sleep(200)] + c.actions)
      else Step(p, [Sleep(200)])
    case DfpVbusOn =>
      var q := p.(sourceCapTimer := p.sourceCapTimer + 1);
      if q.sourceCapTimer > SOURCE_CAP_RETRY then
        var sc := SendSourceCap(q);
        Step(sc.port, sc.actions + DebugPoke())
      else Step(q, [])
    case Ready => Step(p.(state := Idle), [])
    case _ => Step(p, [])
  }

  /** The CC debounce at the end of state_machine. */
  function Debounce(p: Port, check: CcReading): (s: Step)
    ensures p.Inv() ==> s.port.Inv()
    ensures SameFlags(p, s.port)
    ensures p.state == Disconnected ==> s == Step(p, [])
    ensures p.state != Disconnected && Attached(check) ==> s == Step(p.(ccDebounce := 0), [])
    ensures p.state != Disconnected && s.port.state == Disconnected ==>
      !Attached(check) && p.ccDebounce > DEBOUNCE_LIMIT && s.port.ccDebounce == 0
    ensures p.state != Disconnected && !Attached(check) && p.ccDebounce <= DEBOUNCE_LIMIT ==>
      s == Step(p.(ccDebounce := p.ccDebounce + 1), [])
  {
    if p.state == Disconnected then Step(p, [])
    else if !Attached(check) then
      var q := p.(ccDebounce := p.ccDebounce + 1);
      if p.ccDebounce > DEBOUNCE_LIMIT then
        var d := EvtDisconnect(q);
        Step(d.port.(ccDebounce := 0), d.actions)
      else Step(q, [])
    else Step(p.(ccDebounce := 0), [])
  }

  /** state_machine: the tick, then the debounce check on a third CC reading. */
  function StateMachine(p: Port, poll: CcReading, attach: CcReading, check: CcReading): (s: Step)
    ensures p.Inv() ==> s.port.Inv()
    ensures SameFlags(p, s.port)
    ensures p.state == Disconnected && s.port.state != Disconnected ==> Attached(poll) && Attached(attach)
  {
    var t := Tick(p, poll, attach);
    var d := Debounce(t.port, check);
    Step(d.port, t.actions + d.actions)
  }

  /** n ticks in a row with the same three readings. */
  function RepeatTicks(p: Port, n: nat, poll: CcReading, attach: CcReading, check: CcReading): Step
  {
    if n == 0 then Step(p, [])
    else
      var s := RepeatTicks(p, n - 1, poll, attach, check);
      var t := StateMachine(s.port, poll, attach, check);
      Step(t.port, s.actions + t.actions)
  }

  /** Six low readings in a row leave a connected port connected, counting. */
  lemma {:induction false} LowReadingsCount(p: Port, n: nat, low: CcReading)
    requires p.state != Disconnected && p.ccDebounce == 0 && !Attached(low) && n <= DEBOUNCE_LIMIT + 1
    ensures RepeatTicks(p, n, low, low, low).port.state != Disconnected
    ensures RepeatTicks(p, n, low, low, low).port.ccDebounce == n
  {
    if n > 0 {
      LowReadingsCount(p, n - 1, low);
    }
  }

  /** The seventh low reading in a row disconnects and clears the counter. */
  lemma SeventhLowReadingDisconnects(p: Port, low: CcReading)
    requires p.state != Disconnected && p.ccDebounce == 0 && !Attached(low)
    ensures RepeatTicks(p, 7, low, low, low).port.state == Disconnected
    ensures RepeatTicks(p, 7, low, low, low).port.ccDebounce == 0
  {
    LowReadingsCount(p, 6, low);
  }

  /** One pass of the state machine in DFP_VBUS_ON with CC present: the timer counts up,
    * and past the retry limit Source_Capabilities and a probe go out and the timer restarts. */
  lemma VbusOnPass(q: Port, cc: CcReading)
    requires q.state == DfpVbusOn && q.ccDebounce == 0 && Attached(cc)
    ensures q.sourceCapTimer < SOURCE_CAP_RETRY ==>
      StateMachine(q, cc, cc, cc) == Step(q.(sourceCapTimer := q.sourceCapTimer + 1), [])
    ensures q.sourceCapTimer == SOURCE_CAP_RETRY ==>
      StateMachine(q, cc, cc, cc) == Step(q.(sourceCapTimer := 0), [Transmit(SourceCapabilities()), Transmit(DebugProbe())])
  {
  }

  /** In DFP_VBUS_ON with CC present, ticks 1..37 send nothing and count up. */
  lemma {:induction false} VbusOnTicksCount(p: Port, n: nat, cc: CcReading)
    requires p.state == DfpVbusOn && p.sourceCapTimer == 0 && p.ccDebounce == 0 && Attached(cc)
    requires n <= SOURCE_CAP_RETRY
    ensures var s := RepeatTicks(p, n, cc, cc, cc);
      && s.port == p.(sourceCapTimer := n)
      && Transmitted(s.actions) == []
  {
    if n > 0 {
      VbusOnTicksCount(p, n - 1, cc);
      var s := RepeatTicks(p, n - 1, cc, cc, cc);
      VbusOnPass(s.port, cc);
      assert s.actions + [] == s.actions;
    }
  }

  /** The 38th tick in DFP_VBUS_ON sends Source_Capabilities and a probe and resets the timer. */
  lemma SourceCapResentOnTick38(p: Port, cc: CcReading)
    requires p.state == DfpVbusOn && p.sourceCapTimer == 0 && p.ccDebounce == 0 && Attached(cc)
    ensures var s := RepeatTicks(p, SOURCE_CAP_RETRY + 1, cc, cc, cc);
      && s.port == p
      && Transmitted(s.actions) == [SourceCapabilities(), DebugProbe()]
  {
    VbusOnTicksCount(p, SOURCE_CAP_RETRY, cc);
    var s := RepeatTicks(p, SOURCE_CAP_RETRY, cc, cc, cc);
    var t := StateMachine(s.port, cc, cc, cc);
    VbusOnPass(s.port, cc);
    assert Transmitted(t.actions) == [SourceCapabilities(), DebugProbe()] by {
      assert t.actions[..1] == [Transmit(SourceCapabilities())];
      assert t.actions[..1][..0] == [];
    }
    TransmittedAppend(s.actions, t.actions);
  }

  // ---------------------------------------------------------------------
  // Bring-up

  /** The DEVICE_ID bit a live FUSB302 always reports as 1. */
  const DEVICE_ID_VALID: bv8 := 0x80

  /** The transceiver bring-up of m1_pd_bmc_fusb_setup once the device id is good:
    * init, PD reset, RX off, CC open, 500 ms, interrupt armed, disconnect, one probe. */
  function StartTransceiver(p: Port): (s: Step)
    ensures s.port == p.(state := Disconnected, irqArmed := true)
  {
    var d := EvtDisconnect(p.(irqArmed := true));
    Step(d.port,
      [TcpmInit, PdReset, SetRxEnable(false), SetCc(CcOpen), Sleep(500), IrqEnable(true)] + d.actions + DebugPoke())
  }

  /** m1_pd_bmc_fusb_setup for a port in range: reset the context, probe the
    * I2C pull-ups and the device id, then bring the transceiver up. The
    * interrupt enable is hardware state that the context reset does not touch. */
  function Setup(p: Port, sclHigh: bool, sdaHigh: bool, deviceId: bv8): (s: Step)
    ensures s.port.present <==> sclHigh && sdaHigh && (deviceId & DEVICE_ID_VALID) != 0
    ensures s.port.state == Disconnected && s.port.Inv()
    ensures !s.port.pending && !s.port.verbose && !s.port.escape
    ensures !s.port.present ==> s.port.irqArmed == p.irqArmed && Transmitted(s.actions) == []
  {
    var base := Port(Disconnected, 0, 0, false, false, false, true, p.irqArmed);
    if !sclHigh || !sdaHigh then Step(base.(present := false), [])
    else if (deviceId & DEVICE_ID_VALID) == 0 then Step(base.(present := false), [LedOn, VbusOff])
    else
      var st := StartTransceiver(base);
      Step(st.port, [LedOn, VbusOff] + st.actions)
  }

  /** A port that passes the probes comes up disconnected, with its interrupt armed,
    * VBUS off, RX disabled and exactly one probe sent. */
  lemma SetupBringsUp(p: Port, deviceId: bv8)
    requires (deviceId & DEVICE_ID_VALID) != 0
    ensures var s := Setup(p, true, true, deviceId);
      && s.port == Port(Disconnected, 0, 0, false, false, false, true, true)
      && VbusIsOff(s.actions) && RxDisabled(s.actions)
      && Transmitted(s.actions) == [DebugProbe()]
  {
    var s := Setup(p, true, true, deviceId);
    var init := [LedOn, VbusOff, TcpmInit, PdReset, SetRxEnable(false), SetCc(CcOpen), Sleep(500), IrqEnable(true)];
    var d := [VbusOff, PdReset, SetRxEnable(false), SelectRpUsb, SetCc(CcRp)];
    assert s.actions == [LedOn, VbusOff] + ([TcpmInit, PdReset, SetRxEnable(false), SetCc(CcOpen), Sleep(500), IrqEnable(true)] + d + [Transmit(DebugProbe())]);
    assert s.actions == init + d + [Transmit(DebugProbe())];
    assert s.actions == init + [VbusOff] + [PdReset, SetRxEnable(false), SelectRpUsb, SetCc(CcRp), Transmit(DebugProbe())];
    LastWriter(init, VbusOff, [PdReset, SetRxEnable(false), SelectRpUsb, SetCc(CcRp), Transmit(DebugProbe())], Vbus);
    assert s.actions == init + [VbusOff, PdReset] + [SetRxEnable(false)] + [SelectRpUsb, SetCc(CcRp), Transmit(DebugProbe())];
    LastWriter(init + [VbusOff, PdReset], SetRxEnable(false), [SelectRpUsb, SetCc(CcRp), Transmit(DebugProbe())], Rx);
    NoTransmit(init + d);
    TransmittedAppend(init + d, [Transmit(DebugProbe())]);
  }
}
