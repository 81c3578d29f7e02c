/**
 * vdmtool.c in its own form: one PortContext object per entry of the static
 * vdm_contexts array, whose handlers update the fields in place and append the
 * transceiver and board calls they make to a ghost trace.
 *
 * Every method is proved to follow the function of the same name in
 * PortPolicy or Console: after the call, Snapshot() is that function's port and
 * the trace has grown by that function's actions. What the functions promise
 * (attach settings, dispatch table, debounce, retransmit timer, escape decoder)
 * is proved about them there.
 */
module VdmTool {
  import opened Wrappers
  import opened PdMessage
  import opened Transceiver
  import P = PortPolicy
  import C = Console

  /** What one m1_pd_bmc_run_one call reads: the interrupt status and VBUS level
    * seen by handle_irq, the RX FIFO entries up to the empty one, the three CC
    * readings of state_machine, and the console bytes available to serial_handler. */
  datatype PassInput = PassInput(
    irq: P.IrqStatus,
    vbusPresent: bool,
    fifo: seq<P.RxEntry>,
    poll: P.CcReading,
    attach: P.CcReading,
    check: P.CcReading,
    console: seq<bv8>)

  predicate InputOk(inp: PassInput)
  {
    forall i :: 0 <= i < |inp.fifo| ==> P.RxWellFormed(inp.fifo[i])
  }

  /** The result of one m1_pd_bmc_run_one call: the step and whether the port was busy. */
  datatype Pass = Pass(step: P.Step, busy: bool)

  /** The pending branch of m1_pd_bmc_run_one: interrupts, one tick, then clear and re-arm. */
  function PendingPass(p: P.Port, inp: PassInput): (s: P.Step)
    requires InputOk(inp)
    ensures !s.port.pending && s.port.irqArmed
    ensures p.Inv() ==> s.port.Inv()
    ensures s.port.present == p.present && s.port.verbose == p.verbose && s.port.escape == p.escape
    ensures |s.actions| > 0 && s.actions[|s.actions| - 1] == IrqEnable(true)
  {
    var h := P.HandleIrq(p, inp.irq, inp.vbusPresent, inp.fifo);
    var m := P.StateMachine(h.port, inp.poll, inp.attach, inp.check);
    P.Step(m.port.(pending := false, irqArmed := true), h.actions + m.actions + [IrqEnable(true)])
  }

  /** m1_pd_bmc_run_one: service a pending interrupt, then the console. */
  function RunOneStep(p: P.Port, inp: PassInput): (r: Pass)
    requires InputOk(inp)
    ensures !r.step.port.pending
    ensures r.busy <==> |inp.console| > 0
    ensures p.Inv() ==> r.step.port.Inv()
    ensures r.step.port.present == p.present
    ensures !p.pending ==>
      r.step.port == p.(verbose := r.step.port.verbose, escape := r.step.port.escape)
    ensures p.pending ==> r.step.port.irqArmed
  {
    var s1 := if p.pending then PendingPass(p, inp) else P.Step(p, []);
    var s2 := C.SerialRun(s1.port, inp.console);
    C.SerialRunFrame(s1.port, inp.console);
    Pass(P.Step(s2.port, s1.actions + s2.actions), |inp.console| > 0 || s2.port.pending)
  }

  /** The body of the loop of m1_pd_bmc_run for one context: run it if present. */
  function VisitStep(p: P.Port, inp: PassInput): (r: Pass)
    requires InputOk(inp)
    ensures !p.present ==> r == Pass(P.Step(p, []), false)
    ensures r.busy <==> p.present && |inp.console| > 0
  {
    if p.present then RunOneStep(p, inp) else Pass(P.Step(p, []), false)
  }

  /** The body of fusb_int_handler for one context. */
  function Interrupt(p: P.Port, intPin: nat, gpio: nat, levelLow: bool): (s: P.Step)
    ensures !p.present ==> s == P.Step(p, [])
    ensures p.present && gpio == intPin && levelLow ==>
      s == P.Step(p.(pending := true, irqArmed := false), [IrqEnable(false)])
    ensures s.port.pending <==> p.pending || (p.present && gpio == intPin && levelLow)
  {
    if p.present && gpio == intPin && levelLow then
      P.Step(p.(pending := true, irqArmed := false), [IrqEnable(false)])
    else P.Step(p, [])
  }

  /** A pending interrupt is serviced exactly once: the pass that services it clears
    * the flag and re-arms the line, and a following pass without a new interrupt
    * changes neither the state nor the counters. */
  lemma ServicedOnce(p: P.Port, first: PassInput, second: PassInput)
    requires InputOk(first) && InputOk(second) && p.pending
    ensures var r1 := RunOneStep(p, first).step.port;
      var r2 := RunOneStep(r1, second).step.port;
      && !r1.pending && r1.irqArmed
      && r2.state == r1.state && r2.sourceCapTimer == r1.sourceCapTimer && r2.ccDebounce == r1.ccDebounce
  {
  }

  /** A port marked absent at setup is never flagged by the interrupt handler and
    * never serviced: an interrupt followed by a turn of the run loop leaves it as
    * it was, with no call made and the turn not busy. */
  lemma AbsentStaysIdle(p: P.Port, intPin: nat, gpio: nat, levelLow: bool, inp: PassInput)
    requires !p.present && InputOk(inp)
    ensures Interrupt(p, intPin, gpio, levelLow).port == p
    ensures VisitStep(Interrupt(p, intPin, gpio, levelLow).port, inp) == Pass(P.Step(p, []), false)
  {
  }

  class PortContext {
    var state: P.State
    var sourceCapTimer: int
    var ccDebounce: int
    var pending: bool
    var verbose: bool
    var vdmEscape: bool
    /** hw != NULL */
    var present: bool
    /** The level-low interrupt on this port's FUSB_INT pin is enabled. */
    var irqArmed: bool
    /** The FUSB_INT pin of the port's hardware description. */
    const intPin: nat
    /** Every transceiver and board call made for this port, in order. */
    ghost var trace: seq<Action>

    ghost function Snapshot(): P.Port
      reads this
    {
      P.Port(state, sourceCapTimer, ccDebounce, pending, verbose, vdmEscape, present, irqArmed)
    }

    /** The object is now at s.port, and the trace has grown from t0 by s.actions. */
    ghost predicate Follows(t0: seq<Action>, s: P.Step)
      reads this
    {
      Snapshot() == s.port && trace == t0 + s.actions
    }

    /** The zero-initialised static context, before setup: no hardware bound. */
    constructor (intPin: nat)
      ensures Snapshot() == P.Port(P.Disconnected, 0, 0, false, false, false, false, false)
      ensures this.intPin == intPin && trace == []
    {
      state := P.Disconnected;
      sourceCapTimer := 0;
      ccDebounce := 0;
      pending := false;
      verbose := false;
      vdmEscape := false;
      present := false;
      irqArmed := false;
      this.intPin := intPin;
      trace := [];
    }

    method Emit(a: Action)
      modifies this
      ensures Snapshot() == old(Snapshot()) && trace == old(trace) + [a]
    {
      trace := trace + [a];
    }

    method DebugPoke()
      modifies this
      ensures Follows(old(trace), P.Step(old(Snapshot()), P.DebugPoke()))
    {
      Emit(Transmit(DebugProbe()));
    }

    method SendSourceCap()
      modifies this
      ensures Follows(old(trace), P.SendSourceCap(old(Snapshot())))
    {
      Emit(Transmit(SourceCapabilities()));
      sourceCapTimer := 0;
    }

    method EvtDfpConnect(cc: P.CcReading)
      modifies this
      ensures Follows(old(trace), P.EvtDfpConnect(old(Snapshot()), cc))
    {
      if cc.cc1 < P.ATTACH_THRESHOLD && cc.cc2 < P.ATTACH_THRESHOLD {
        return;
      }
      Emit(PdReset);
      Emit(SetMsgHeader(1, 1));
      if cc.cc1 > cc.cc2 {
        Emit(SetPolarity(0));
      } else {
        Emit(SetPolarity(1));
      }
      Emit(SetRxEnable(true));
      Emit(VbusOn);
      state := P.DfpVbusOn;
      DebugPoke();
    }

    method EvtDisconnect()
      modifies this
      ensures Follows(old(trace), P.EvtDisconnect(old(Snapshot())))
    {
      Emit(VbusOff);
      Emit(PdReset);
      Emit(SetRxEnable(false));
      Emit(SelectRpUsb);
      Emit(SetCc(CcRp));
      state := P.Disconnected;
    }

    method HandleMsg(hdr: bv16, objs: seq<bv32>)
      requires |objs| == DecodeHeader(hdr).count as int
      modifies this
      ensures Follows(old(trace), P.HandleMsg(old(Snapshot()), hdr, objs))
    {
      var h := DecodeHeader(hdr);
      if h.count != 0 {
        if h.msgType == DATA_SOURCE_CAP {
          Emit(Transmit(PowerRequest()));
        } else if h.msgType == DATA_REQUEST {
          Emit(Transmit(ControlMessage(CTRL_ACCEPT)));
          state := P.DfpAccept;
        } else if h.msgType == DATA_VENDOR_DEF {
          if objs[0] == DISCOVER_IDENTITY_REQUEST {
            Emit(Transmit(DiscoverIdentityAck()));
            state := P.Ready;
          }
        }
      } else {
        if h.msgType == CTRL_PR_SWAP || h.msgType == CTRL_DR_SWAP {
          Emit(Transmit(ControlMessage(CTRL_REJECT)));
          state := P.Idle;
        } else if h.msgType == CTRL_GET_SINK_CAP {
          Emit(Transmit(SinkCapabilities()));
          state := P.Ready;
        }
      }
    }

    method EvtSent()
      modifies this
      ensures Follows(old(trace), P.EvtSent(old(Snapshot())))
    {
      match state
      case DfpVbusOn =>
        state := P.DfpConnected;
        Emit(Transmit(SbuRouteVdm()));
      case DfpAccept =>
        Emit(Transmit(ControlMessage(CTRL_PS_RDY)));
        state := P.Idle;
      case _ =>
    }

    /** The GCRCSENT loop of handle_irq: evt_packet until the RX FIFO is empty. */
    method DrainRx(fifo: seq<P.RxEntry>)
      requires forall i :: 0 <= i < |fifo| ==> P.RxWellFormed(fifo[i])
      modifies this
      ensures Follows(old(trace), P.DrainRx(old(Snapshot()), fifo))
    {
      ghost var p0, t0 := Snapshot(), trace;
      var i := 0;
      while i < |fifo|
        invariant 0 <= i <= |fifo|
        invariant Follows(t0, P.DrainRx(p0, fifo[..i]))
      {
        assert fifo[..i + 1][..i] == fifo[..i];
        ghost var d := P.DrainRx(p0, fifo[..i]);
        if fifo[i].Packet? {
          HandleMsg(fifo[i].header, fifo[i].objects);
        }
        AppendAssoc(t0, d.actions, P.EvtPacket(d.port, fifo[i]).actions);
        i := i + 1;
      }
      assert fifo[..|fifo|] == fifo;
    }

    /** The VBUSOK branch of handle_irq. */
    method OnVbusOk(vbusPresent: bool)
      modifies this
      ensures Follows(old(trace), P.OnVbusOk(old(Snapshot()), vbusPresent))
    {
      if vbusPresent {
        SendSourceCap();
        DebugPoke();
      } else {
        EvtDisconnect();
      }
    }

    /** The VBUSOK test of handle_irq. */
    method IrqVbusOk(irq: P.IrqStatus, vbusPresent: bool)
      modifies this
      ensures Follows(old(trace), P.IrqVbusOk(old(Snapshot()), irq, vbusPresent))
    {
      if irq.vbusOk {
        OnVbusOk(vbusPresent);
      }
    }

    /** The HARDRESET test of handle_irq. */
    method IrqHardReset(irq: P.IrqStatus)
      modifies this
      ensures Follows(old(trace), P.IrqHardReset(old(Snapshot()), irq))
    {
      if irq.hardReset {
        EvtDisconnect();
      }
    }

    /** The TX_SUCCESS test of handle_irq. */
    method IrqTxSuccess(irq: P.IrqStatus)
      modifies this
      ensures Follows(old(trace), P.IrqTxSuccess(old(Snapshot()), irq))
    {
      if irq.txSuccess {
        EvtSent();
      }
    }

    /** The GCRCSENT test of handle_irq. */
    method IrqRx(irq: P.IrqStatus, fifo: seq<P.RxEntry>)
      requires forall i :: 0 <= i < |fifo| ==> P.RxWellFormed(fifo[i])
      modifies this
      ensures Follows(old(trace), P.IrqRx(old(Snapshot()), irq, fifo))
    {
      if irq.gcrcSent {
        DrainRx(fifo);
      }
    }

    /** handle_irq: the four interrupt tests, in the order the source makes them. */
    method HandleIrq(irq: P.IrqStatus, vbusPresent: bool, fifo: seq<P.RxEntry>)
      requires forall i :: 0 <= i < |fifo| ==> P.RxWellFormed(fifo[i])
      modifies this
      ensures Follows(old(trace), P.HandleIrq(old(Snapshot()), irq, vbusPresent, fifo))
    {
      ghost var p0, t0 := Snapshot(), trace;
      IrqVbusOk(irq, vbusPresent);
      ghost var s1 := P.IrqVbusOk(p0, irq, vbusPresent);
      IrqHardReset(irq);
      ghost var s2 := P.IrqHardReset(s1.port, irq);
      AppendAssoc(t0, s1.actions, s2.actions);
      IrqTxSuccess(irq);
      ghost var s3 := P.IrqTxSuccess(s2.port, irq);
      AppendAssoc(t0, s1.actions + s2.actions, s3.actions);
      IrqRx(irq, fifo);
      ghost var s4 := P.IrqRx(s3.port, irq, fifo);
      AppendAssoc(t0, s1.actions + s2.actions + s3.actions, s4.actions);
    }

    /** The switch of state_machine. */
    method Tick(poll: P.CcReading, attach: P.CcReading)
      modifies this
      ensures Follows(old(trace), P.Tick(old(Snapshot()), poll, attach))
    {
      match state {
        case Disconnected =>
          Emit(Sleep(200));
          if poll.cc1 >= P.ATTACH_THRESHOLD || poll.cc2 >= P.ATTACH_THRESHOLD {
            EvtDfpConnect(attach);
          }
        case DfpVbusOn =>
          sourceCapTimer := sourceCapTimer + 1;
          if sourceCapTimer > P.SOURCE_CAP_RETRY {
            SendSourceCap();
            DebugPoke();
          }
        case Ready =>
          state := P.Idle;
        case _ =>
      }
    }

    /** The CC debounce at the end of state_machine. */
    method Debounce(check: P.CcReading)
      modifies this
      ensures Follows(old(trace), P.Debounce(old(Snapshot()), check))
    {
      if state != P.Disconnected {
        if check.cc1 < P.ATTACH_THRESHOLD && check.cc2 < P.ATTACH_THRESHOLD {
          var before := ccDebounce;
          ccDebounce := ccDebounce + 1;
          if before > P.DEBOUNCE_LIMIT {
            EvtDisconnect();
            ccDebounce := 0;
          }
        } else {
          ccDebounce := 0;
        }
      }
    }

    method StateMachine(poll: P.CcReading, attach: P.CcReading, check: P.CcReading)
      modifies this
      ensures Follows(old(trace), P.StateMachine(old(Snapshot()), poll, attach, check))
    {
      ghost var p0, t0 := Snapshot(), trace;
      Tick(poll, attach);
      ghost var t := P.Tick(p0, poll, attach);
      Debounce(check);
      ghost var d := P.Debounce(t.port, check);
      AppendAssoc(t0, t.actions, d.actions);
    }

    /** The switch of serial_handler, reached with the escape armed. */
    method Command(c: bv8)
      modifies this
      ensures Follows(old(trace), C.Command(old(Snapshot()), c))
    {
      if c == C.CMD_DUT_RESET {
        Emit(Transmit(RebootVdm()));
      } else if c == C.CMD_WATCHDOG {
        Emit(WatchdogReboot);
      } else if c == C.CMD_BOOTLOADER {
        Emit(RebootToBootloader);
      } else if c == C.ESCAPE {
        Emit(UartPut(c));
      } else if c == C.CMD_TOGGLE_DEBUG {
        verbose := !verbose;
      } else if c == C.CMD_BREAK {
        Emit(UartBreak);
      } else if c == C.CMD_PROBE {
        DebugPoke();
      } else if c == C.CMD_HELP {
        Emit(Help);
      }
    }

    /** One pass of the loop of serial_handler. */
    method ConsoleByte(c: bv8)
      modifies this
      ensures Follows(old(trace), C.ConsoleByte(old(Snapshot()), c))
    {
      if !vdmEscape && c != C.ESCAPE {
        Emit(UartPut(c));
      } else if !vdmEscape {
        vdmEscape := true;
      } else {
        Command(c);
        vdmEscape := false;
      }
    }

    method SerialHandler(input: seq<bv8>) returns (active: bool)
      modifies this
      ensures Follows(old(trace), C.SerialRun(old(Snapshot()), input))
      ensures active <==> |input| > 0
    {
      ghost var p0, t0 := Snapshot(), trace;
      active := false;
      var i := 0;
      while i < |input|
        invariant 0 <= i <= |input|
        invariant Follows(t0, C.SerialRun(p0, input[..i]))
        invariant active <==> i > 0
      {
        assert input[..i + 1][..i] == input[..i];
        var c := input[i];
        active := true;
        ghost var r := C.SerialRun(p0, input[..i]);
        ConsoleByte(c);
        AppendAssoc(t0, r.actions, C.ConsoleByte(r.port, c).actions);
        i := i + 1;
      }
      assert input[..|input|] == input;
    }

    /** m1_pd_bmc_fusb_setup for this context. */
    method Setup(sclHigh: bool, sdaHigh: bool, deviceId: bv8)
      modifies this
      ensures Follows(old(trace), P.Setup(old(Snapshot()), sclHigh, sdaHigh, deviceId))
    {
      ghost var t0 := trace;
      state, sourceCapTimer, ccDebounce := P.Disconnected, 0, 0;
      pending, verbose, vdmEscape := false, false, false;
      present := true;
      if !sclHigh || !sdaHigh {
        present := false;
        return;
      }
      Emit(LedOn);
      Emit(VbusOff);
      if (deviceId & P.DEVICE_ID_VALID) == 0 {
        present := false;
        return;
      }
      assert trace == t0 + [LedOn, VbusOff];
      ghost var base := Snapshot();
      StartTransceiver();
      AppendAssoc(t0, [LedOn, VbusOff], P.StartTransceiver(base).actions);
    }

    /** The transceiver bring-up at the end of m1_pd_bmc_fusb_setup. */
    method StartTransceiver()
      modifies this
      ensures Follows(old(trace), P.StartTransceiver(old(Snapshot())))
    {
      ghost var t0 := trace;
      Emit(TcpmInit);
      Emit(PdReset);
      Emit(SetRxEnable(false));
      Emit(SetCc(CcOpen));
      Emit(Sleep(500));
      irqArmed := true;
      Emit(IrqEnable(true));
      ghost var init := [TcpmInit, PdReset, SetRxEnable(false), SetCc(CcOpen), Sleep(500), IrqEnable(true)];
      assert trace == t0 + init;
      ghost var d := P.EvtDisconnect(Snapshot());
      EvtDisconnect();
      AppendAssoc(t0, init, d.actions);
      DebugPoke();
      AppendAssoc(t0, init + d.actions, P.DebugPoke());
    }

    /** The body of fusb_int_handler for this context. */
    method OnInterrupt(gpio: nat, levelLow: bool)
      modifies this
      ensures Follows(old(trace), Interrupt(old(Snapshot()), intPin, gpio, levelLow))
    {
      if !present {
        return;
      }
      if gpio == intPin && levelLow {
        pending := true;
        irqArmed := false;
        Emit(IrqEnable(false));
      }
    }

    /** The pending branch of m1_pd_bmc_run_one. */
    method ServicePending(inp: PassInput)
      requires InputOk(inp)
      modifies this
      ensures Follows(old(trace), PendingPass(old(Snapshot()), inp))
    {
      ghost var p0, t0 := Snapshot(), trace;
      HandleIrq(inp.irq, inp.vbusPresent, inp.fifo);
      ghost var h := P.HandleIrq(p0, inp.irq, inp.vbusPresent, inp.fifo);
      StateMachine(inp.poll, inp.attach, inp.check);
      ghost var m := P.StateMachine(h.port, inp.poll, inp.attach, inp.check);
      AppendAssoc(t0, h.actions, m.actions);
      pending := false;
      irqArmed := true;
      Emit(IrqEnable(true));
      AppendAssoc(t0, h.actions + m.actions, [IrqEnable(true)]);
    }

    /** m1_pd_bmc_run_one. */
    method RunOne(inp: PassInput) returns (busy: bool)
      requires InputOk(inp)
      modifies this
      ensures Follows(old(trace), RunOneStep(old(Snapshot()), inp).step)
      ensures busy == RunOneStep(old(Snapshot()), inp).busy
    {
      ghost var p0, t0 := Snapshot(), trace;
      if pending {
        ServicePending(inp);
      }
      ghost var s1 := if p0.pending then PendingPass(p0, inp) else P.Step(p0, []);
      assert Follows(t0, s1);
      var active := SerialHandler(inp.console);
      ghost var s2 := C.SerialRun(s1.port, inp.console);
      AppendAssoc(t0, s1.actions, s2.actions);
      busy := active || pending;
    }

    /** One turn of the loop of m1_pd_bmc_run for this context. */
    method Visit(inp: PassInput) returns (busy: bool)
      requires InputOk(inp)
      modifies this
      ensures Follows(old(trace), VisitStep(old(Snapshot()), inp).step)
      ensures busy == VisitStep(old(Snapshot()), inp).busy
    {
      busy := false;
      if present {
        busy := RunOne(inp);
      }
    }
  }

  /** No two entries of the array are the same context. */
  predicate Distinct(ports: seq<PortContext>)
  {
    forall i, j :: 0 <= i < j < |ports| ==> ports[i] != ports[j]
  }

  /** fusb_int_handler: flag and mask every present port whose FUSB_INT pin raised
    * a level-low event; absent ports are skipped. */
  method FusbIntHandler(ports: seq<PortContext>, gpio: nat, levelLow: bool)
    requires Distinct(ports)
    modifies set i | 0 <= i < |ports| :: ports[i]
    ensures forall i :: 0 <= i < |ports| ==>
      ports[i].Follows(old(ports[i].trace), Interrupt(old(ports[i].Snapshot()), ports[i].intPin, gpio, levelLow))
  {
    var i := 0;
    while i < |ports|
      invariant 0 <= i <= |ports|
      invariant forall j :: 0 <= j < i ==>
        ports[j].Follows(old(ports[j].trace), Interrupt(old(ports[j].Snapshot()), ports[j].intPin, gpio, levelLow))
      invariant forall j :: i <= j < |ports| ==>
        ports[j].Snapshot() == old(ports[j].Snapshot()) && ports[j].trace == old(ports[j].trace)
    {
      ports[i].OnInterrupt(gpio, levelLow);
      i := i + 1;
    }
  }

  /** m1_pd_bmc_fusb_setup: a port number past the array changes nothing. */
  method FusbSetup(ports: seq<PortContext>, port: nat, sclHigh: bool, sdaHigh: bool, deviceId: bv8)
    modifies if port < |ports| then {ports[port]} else {}
    ensures port < |ports| ==>
      ports[port].Follows(old(ports[port].trace), P.Setup(old(ports[port].Snapshot()), sclHigh, sdaHigh, deviceId))
  {
    if port >= |ports| {
      return;
    }
    ports[port].Setup(sclHigh, sdaHigh, deviceId);
  }

  /** One round of the endless loop of m1_pd_bmc_run: every present port runs once,
    * in index order; absent ports are not serviced. The round is busy iff some
    * present port had console input. */
  method RunPass(ports: seq<PortContext>, inputs: seq<PassInput>) returns (busy: bool)
    requires Distinct(ports) && |inputs| == |ports|
    requires forall i :: 0 <= i < |inputs| ==> InputOk(inputs[i])
    modifies set i | 0 <= i < |ports| :: ports[i]
    ensures forall i :: 0 <= i < |ports| ==>
      ports[i].Follows(old(ports[i].trace), VisitStep(old(ports[i].Snapshot()), inputs[i]).step)
    ensures busy <==> exists i :: 0 <= i < |ports| && old(ports[i].present) && |inputs[i].console| > 0
  {
    busy := false;
    ghost var who := 0;
    var i := 0;
    while i < |ports|
      invariant 0 <= i <= |ports|
      invariant forall j :: 0 <= j < i ==>
        ports[j].Follows(old(ports[j].trace), VisitStep(old(ports[j].Snapshot()), inputs[j]).step)
      invariant forall j :: i <= j < |ports| ==> unchanged(ports[j])
      invariant !busy ==> forall j :: 0 <= j < i ==> !old(ports[j].present) || |inputs[j].console| == 0
      invariant busy ==> 0 <= who < i && old(ports[who].present) && |inputs[who].console| > 0
    {
      var b := ports[i].Visit(inputs[i]);
      if b && !busy {
        who := i;
      }
      busy := busy || b;
      i := i + 1;
    }
  }
}
