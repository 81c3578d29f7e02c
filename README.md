# Central Scrutinizer firmware core, in Dafny

The Central Scrutinizer is RP2040 firmware that sits between a host and up to two
USB-C devices under test. For each port it runs a small USB Power Delivery policy
engine on an FUSB302 transceiver. The engine:

- attaches as source/DFP and powers VBUS;
- asks the device to route its debug UART over SBU1/2;
- answers the few PD messages it expects;
- bridges the port's UART to a host-visible serial channel, with an escape-coded
  command set.

This project models that core and proves what it promises:

- the policy engine, interrupt pass and console decoder of `vdmtool.c`;
- the upstream byte plumbing and pin set-up of `start.c`;
- the USB string-descriptor encoder of `usb_descriptors.c`.

Layout, one module per file:

| file | module | models |
|---|---|---|
| `wrappers.dfy` | `Wrappers` | `Option` |
| `pd_message.dfy` | `PdMessage` | the Message Header record (section 6.2.1.1 of USB Power Delivery Rev 2.0); the fixed data objects the firmware sends, decoded field by field (sections 6.4.1, 6.4.2 and 6.4.4 of that revision) |
| `transceiver.dfy` | `Transceiver` | the transceiver and board as an abstract interface. Every call becomes an `Action` in a ghost trace. Observers recover from a trace the VBUS, RX-enable and polarity settings and the messages and UART bytes sent |
| `port_policy.dfy` | `PortPolicy` | every `vdmtool.c` handler as a function from a `Port` (the fields of one `struct vdm_context`) and its inputs to a `Step`: the new port and the calls made, in order |
| `console.dfy` | `Console` | the escape decoder of `serial_handler` as functions |
| `vdm_tool.dfy` | `VdmTool` | `vdmtool.c` in its own form. One `PortContext` object per context, whose methods update the fields in place. Each method is proved to follow the `PortPolicy`/`Console` function of the same name. Also the interrupt handler, setup and one round of the run loop over all contexts |
| `ring_buffer.dfy` | `RingBuffer` | the 256-slot `uart1_buf` ring on an `array<bv8>` with modulo-256 cursors. It is proved against an abstract contents sequence |
| `upstream.dfy` | `Upstream` | the `upstream_ops` selector, the UART receive interrupts, `serial1_rx_byte` and `upstream_tx_str` |
| `gpio_setup.dfy` | `GpioSetup` | `m1_pd_bmc_gpio_setup_one` / `m1_pd_bmc_system_init` as GPIO call sequences, a pin-state meaning for them, and the two boards' pin tables |
| `usb_descriptors.dfy` | `UsbDescriptors` | `USB_DESC_STRLEN`, `str8_to_str16` (a loop into the caller's array) and `tud_descriptor_string_cb` (a class owning the static 20-word buffer) |

Values read from hardware are parameters of the operations that read them:

- the CC levels, the VBUS level and the interrupt status bits;
- the RX FIFO contents up to the empty entry;
- the I2C pull-up probe and the DEVICE_ID register;
- the console bytes available, and the UART bytes readable;
- the USB byte ready for `serial1_rx_byte`;
- the 8-byte board id.

Some behaviour of the code worth knowing when reading the model:

- **Debounce.** The disconnect debounce fires on the 7th consecutive low CC reading: the counter is post-incremented and then compared with `> 5`.
- **Source cap.** The Source_Capabilities object `0x37019096` is a fixed 5 V / 1.5 A supply PDO.
- **CC tie.** When both CC lines read the same level, CC2 is selected (polarity 1).
- **Absent features.** The code has no VCONN control and no serial-route selection, so the model has none either. The `SBU_SWAP` and `SEL_USB` pins are set up as outputs driven low, and nothing drives them afterwards.

## Model

| member | source | states |
|---|---|---|
| PdMessage.EncodeHeader | vdmtool.c:77 | a PD_HEADER-built header word keeps its reserved bits 4 and 15 clear, so it is a non-negative int16_t |
| PdMessage.DecodeEncodeHeader | vdmtool.c:280-281 | PD_HEADER_TYPE/PD_HEADER_CNT read back exactly the fields the header was built from |
| PdMessage.EncodeDecodeHeader | vdmtool.c:280-281 | a received header with clear reserved bits is determined by its decoded fields |
| PdMessage.DecodeEncodeVdmHeader | vdmtool.c:264-265 | the structured VDM header fields round-trip through their 32-bit form |
| PdMessage.DebugProbe | vdmtool.c:75-82 | the probe is a one-object vendor message on SOP''_Debug carrying 0, and its header announces one object |
| PdMessage.PowerRequest | vdmtool.c:142-154 | the Request is a sink/UFP message whose single RDO asks for object position 1, USB communications capable, no give-back, no mismatch, 0 mA operating and maximum |
| PdMessage.SinkCapabilities | vdmtool.c:156-167 | Sink_Capabilities carries one fixed-supply PDO, USB communications capable, 0 V and 0 mA |
| PdMessage.SourceCapabilities | vdmtool.c:169-177 | Source_Capabilities is a source/DFP message with one fixed-supply PDO of 100 x 50 mV (5 V) and 150 x 10 mA (1.5 A), USB communications capable |
| PdMessage.DiscoverIdentityAck | vdmtool.c:211-231 | the reply is the Discover Identity request header with the command type changed to ACK (PD SID, command 1), then an ID header VDO (USB device, Apple VID 0x05AC), a zero cert-stat VDO and a product VDO (PID 1, bcdDevice 0x100); four objects announced |
| PdMessage.ControlMessage | vdmtool.c:233-259 | Accept, PS_RDY and Reject are source/DFP control messages with no data objects |
| PdMessage.SbuRouteVdm | vdmtool.c:396-411 | the SBU-route SET ACTION goes on SOP''_Debug with two objects, the first a structured VDM header for Apple's VID |
| PdMessage.RebootVdm | vdmtool.c:413-419 | the reboot SET ACTION goes on SOP''_Debug with three objects, sharing the route VDM's header |
| PortPolicy.SendSinkCap | vdmtool.c:156-167 | send_sink_cap transmits exactly Sink_Capabilities and moves to READY, nothing else changing |
| PortPolicy.SendSourceCap | vdmtool.c:169-177 | send_source_cap transmits exactly Source_Capabilities and zeroes the retransmit timer, nothing else changing |
| PortPolicy.HandlePowerRequest | vdmtool.c:233-240 | a Request is answered with Accept alone and moves to DFP_ACCEPT |
| PortPolicy.SendPsRdy | vdmtool.c:242-249 | send_ps_rdy transmits PS_RDY alone and moves to IDLE |
| PortPolicy.SendReject | vdmtool.c:251-259 | send_reject transmits Reject alone and moves to IDLE |
| PortPolicy.EvtDfpConnect | vdmtool.c:84-107 | with both CC readings below 2 the port and trace are untouched; otherwise the state becomes DFP_VBUS_ON and nothing else in the context changes |
| PortPolicy.AttachSettings | vdmtool.c:84-107 | after an attach the polarity is 0 iff cc1 > cc2 and 1 iff cc1 <= cc2 (a tie gives CC2); RX is enabled, VBUS is on, and exactly one debug probe was sent |
| PortPolicy.EvtDisconnect | vdmtool.c:131-140 | disconnect moves to DISCONNECTED and changes nothing else in the context |
| PortPolicy.DisconnectSettles | vdmtool.c:131-140 | from any port, disconnect leaves VBUS off and RX disabled, transmits nothing, and disconnecting again gives the same step |
| PortPolicy.DisconnectIdempotent | vdmtool.c:131-140 | after any history, a second disconnect leaves the port, VBUS, RX and polarity settings as the first left them |
| PortPolicy.HandleVdm | vdmtool.c:261-275 | a VDM whose first word is 0xff008001 is answered with the Discover Identity ACK and moves to READY; any other VDM changes nothing and sends nothing |
| PortPolicy.HandleMsg | vdmtool.c:277-330 | handle_msg changes at most the state, sends at most one well-formed message, and changes nothing when it sends nothing |
| PortPolicy.DispatchTable | vdmtool.c:277-330 | Request leads to Accept and DFP_ACCEPT; PR_Swap/DR_Swap to Reject and IDLE; Get_Sink_Cap to Sink_Capabilities and READY; Discover Identity to the ACK and READY; Source_Capabilities to the Request with the state kept; every other message to no transmit and no change |
| PortPolicy.EvtPacket | vdmtool.c:332-345 | a failed FIFO read (empty, or a GoodCRC) changes nothing |
| PortPolicy.DrainRx | vdmtool.c:389-393 | draining the RX FIFO changes at most the state |
| PortPolicy.DrainRxSendsWellFormed | vdmtool.c:389-393 | draining the FIFO only transmits, and every message sent announces as many objects as it carries |
| PortPolicy.EvtSent | vdmtool.c:349-362 | transmit-complete moves DFP_VBUS_ON to DFP_CONNECTED sending the SBU-route VDM, DFP_ACCEPT to IDLE sending PS_RDY, and leaves every other state unchanged with nothing sent |
| PortPolicy.RequestThenTxSuccessSettlesIdle | vdmtool.c:233-249 | a Request followed by the Accept's transmit-complete sends Accept then PS_RDY and settles in IDLE |
| PortPolicy.OnVbusOk | vdmtool.c:370-380 | with VBUS present, Source_Capabilities then a probe are sent and the timer zeroed; without it, the port disconnects |
| PortPolicy.IrqVbusOk | vdmtool.c:370-380 | the VBUSOK branch keeps the flags, the debounce counter and the counter ranges, runs the VBUS handling when the bit is set and does nothing when it is clear |
| PortPolicy.IrqHardReset | vdmtool.c:381-384 | a HARDRESET bit disconnects, keeping the flags, the debounce counter and the source-cap timer; without the bit nothing happens |
| PortPolicy.IrqTxSuccess | vdmtool.c:385-388 | with the TX_SUCCESS bit set the port takes the sent-message event, without it nothing happens; either way the flags, the debounce counter and the source-cap timer are kept, and nothing happens in DISCONNECTED |
| PortPolicy.IrqRx | vdmtool.c:389-393 | the GCRCSENT branch keeps the flags, the debounce counter, the source-cap timer and the counter ranges; without the bit the FIFO is not read |
| PortPolicy.HandleIrq | vdmtool.c:364-394 | handle_irq runs VBUSOK, HARDRESET, TX_SUCCESS and the RX drain in that order, keeping the flags, the debounce counter and the counter ranges; a hard reset with no RX drain ends DISCONNECTED |
| PortPolicy.Tick | vdmtool.c:495-534 | the state switch keeps the counter ranges and flags; a connected port stays connected with its debounce counter; leaving DISCONNECTED needs both the poll and the re-read to show attach; READY moves to IDLE with no action; states other than DFP_VBUS_ON, READY and DISCONNECTED do nothing |
| PortPolicy.Debounce | vdmtool.c:535-548 | no check in DISCONNECTED; an attached reading zeroes the counter; a low reading counts up while the counter is at most 5; the disconnect happens only on a low reading with the counter above 5, and leaves the counter 0 |
| PortPolicy.StateMachine | vdmtool.c:495-549 | state_machine keeps the counter ranges (timer 0..37, debounce 0..6, so no int16_t overflow) and the flags, and attaches only on two attached readings |
| PortPolicy.LowReadingsCount | vdmtool.c:535-548 | up to six consecutive low readings leave a connected port connected, with the counter equal to their number |
| PortPolicy.SeventhLowReadingDisconnects | vdmtool.c:539-544 | the 7th consecutive low reading disconnects and leaves the counter 0 |
| PortPolicy.VbusOnPass | vdmtool.c:510-516 | one pass in DFP_VBUS_ON with CC present counts the timer up with no action, and once past the retry limit of 37 sends Source_Capabilities then a probe and restarts the timer |
| PortPolicy.VbusOnTicksCount | vdmtool.c:510-516 | in DFP_VBUS_ON with CC present, ticks 1..37 send nothing and count the timer up |
| PortPolicy.SourceCapResentOnTick38 | vdmtool.c:510-516 | the 38th tick sends Source_Capabilities then a probe and returns the port to where it started, timer 0 |
| PortPolicy.StartTransceiver | vdmtool.c:614-629 | the bring-up arms the interrupt and ends DISCONNECTED |
| PortPolicy.Setup | vdmtool.c:572-630 | after setup the port is present iff SCL and SDA read high and DEVICE_ID bit 7 is set; it is DISCONNECTED with zeroed counters and flags; a port marked absent sends nothing and keeps its interrupt setting |
| PortPolicy.SetupBringsUp | vdmtool.c:597-630 | a port passing both probes comes up DISCONNECTED with its interrupt armed, VBUS off, RX disabled and exactly one probe sent |
| Console.Command | vdmtool.c:455-487 | an escaped byte changes only verbose (toggled iff it is ^D) and forwards a byte only for ^_ (exactly one ^_); ! sends the reboot VDM, ^R resets through the watchdog, ^^ reboots to the USB bootloader, ^@ sends a UART break, Enter sends the debug probe, ? prints the help, and an unrecognised byte does nothing |
| Console.ConsoleByte | vdmtool.c:447-490 | outside escape mode a byte other than 0x1F is forwarded verbatim and 0x1F arms the escape with nothing sent; in escape mode the escape is cleared after the byte; only escape and verbose can change |
| Console.SerialRunFrame | vdmtool.c:442-493 | serial_handler changes no field but the escape and verbose flags |
| Console.SerialRunAppend | vdmtool.c:447-490 | decoding two chunks in turn is decoding their concatenation |
| Console.PassThrough | vdmtool.c:450-453 | outside escape mode, text without 0x1F reaches the UART verbatim with nothing sent and nothing changed |
| Console.Quote | vdmtool.c:465-472 | quoting data (doubling every ^_) never shortens it |
| Console.QuoteByteDecodes | vdmtool.c:465-472 | the quoted form of one byte forwards exactly that byte |
| Console.QuoteRoundTrip | vdmtool.c:465-472 | a quoted stream decodes back to the original data with no command run, nothing transmitted and the escape disarmed |
| Console.UnknownCommandIgnored | vdmtool.c:455-489 | ^_ followed by an unrecognised byte forwards nothing and changes nothing |
| Console.ToggleDebug | vdmtool.c:473-475 | ^_ ^D toggles verbose and does nothing else |
| Console.EscapeNulSendsBreak | vdmtool.c:476-480 | ^_ ^@ asserts a UART break and forwards nothing |
| Console.EscapeBangReboots | vdmtool.c:456-458 | ^_ ! sends the reboot VDM and nothing else |
| Console.EscapeEnterProbes | vdmtool.c:481-483 | ^_ Enter sends the debug probe and nothing else |
| Console.EscapeCtrlRWatchdog | vdmtool.c:459-461 | ^_ ^R arms the watchdog reset and nothing else |
| Console.EscapeCaretBootloader | vdmtool.c:462-464 | ^_ ^^ reboots to the USB bootloader and nothing else |
| Console.EscapeQuestionHelps | vdmtool.c:484-486 | ^_ ? prints the help and nothing else |
| Console.EscapeEscapeForwardsOne | vdmtool.c:465-472 | ^_ ^_ forwards exactly one ^_ and disarms the escape |
| VdmTool.PendingPass | vdmtool.c:634-639 | the pending branch clears pending and re-arms the interrupt as its last call, keeping the counter ranges and the present, verbose and escape flags |
| VdmTool.RunOneStep | vdmtool.c:632-642 | after m1_pd_bmc_run_one pending is clear and the result is true iff console bytes were consumed; without a pending interrupt only the escape and verbose flags can change |
| VdmTool.VisitStep | vdmtool.c:651-654 | an absent port is not run and is not busy; a present one is busy iff it had console input |
| VdmTool.Interrupt | vdmtool.c:558-569 | a present port whose FUSB_INT pin raised a level-low event is flagged pending and its interrupt masked; every other port is unchanged |
| VdmTool.ServicedOnce | vdmtool.c:632-642 | a pending interrupt is serviced once: the servicing pass clears pending and re-arms, and a next pass with no interrupt leaves state and counters alone |
| VdmTool.AbsentStaysIdle | vdmtool.c:561-562 | a port marked absent is left unchanged by the interrupt handler, and the run-loop turn that follows makes no call and is not busy |
| VdmTool.PortContext.constructor | vdmtool.c:37 | the zero-initialised static context: DISCONNECTED, counters 0, flags clear, no hardware |
| VdmTool.PortContext.DebugPoke | vdmtool.c:75-82 | debug_poke transmits the probe and changes no field |
| VdmTool.PortContext.SendSourceCap | vdmtool.c:169-177 | in place, follows PortPolicy.SendSourceCap |
| VdmTool.PortContext.EvtDfpConnect | vdmtool.c:84-107 | in place, follows PortPolicy.EvtDfpConnect |
| VdmTool.PortContext.EvtDisconnect | vdmtool.c:131-140 | in place, follows PortPolicy.EvtDisconnect |
| VdmTool.PortContext.HandleMsg | vdmtool.c:277-330 | in place, follows PortPolicy.HandleMsg |
| VdmTool.PortContext.EvtSent | vdmtool.c:349-362 | in place, follows PortPolicy.EvtSent |
| VdmTool.PortContext.DrainRx | vdmtool.c:389-393 | the FIFO loop, entry by entry, follows PortPolicy.DrainRx |
| VdmTool.PortContext.OnVbusOk | vdmtool.c:370-380 | in place, follows PortPolicy.OnVbusOk |
| VdmTool.PortContext.IrqVbusOk | vdmtool.c:370-380 | in place, follows PortPolicy.IrqVbusOk |
| VdmTool.PortContext.IrqHardReset | vdmtool.c:381-384 | in place, follows PortPolicy.IrqHardReset |
| VdmTool.PortContext.IrqTxSuccess | vdmtool.c:385-388 | in place, follows PortPolicy.IrqTxSuccess |
| VdmTool.PortContext.IrqRx | vdmtool.c:389-393 | in place, follows PortPolicy.IrqRx |
| VdmTool.PortContext.HandleIrq | vdmtool.c:364-394 | the four bit tests in source order follow PortPolicy.HandleIrq |
| VdmTool.PortContext.Tick | vdmtool.c:495-534 | in place, follows PortPolicy.Tick |
| VdmTool.PortContext.Debounce | vdmtool.c:535-548 | in place, follows PortPolicy.Debounce |
| VdmTool.PortContext.StateMachine | vdmtool.c:495-549 | in place, follows PortPolicy.StateMachine |
| VdmTool.PortContext.Command | vdmtool.c:455-487 | in place, follows Console.Command |
| VdmTool.PortContext.ConsoleByte | vdmtool.c:447-490 | in place, follows Console.ConsoleByte |
| VdmTool.PortContext.SerialHandler | vdmtool.c:442-493 | the byte loop follows Console.SerialRun and returns true iff at least one byte was consumed |
| VdmTool.PortContext.Setup | vdmtool.c:572-630 | in place, follows PortPolicy.Setup |
| VdmTool.PortContext.StartTransceiver | vdmtool.c:614-629 | in place, follows PortPolicy.StartTransceiver |
| VdmTool.PortContext.OnInterrupt | vdmtool.c:559-568 | in place, follows VdmTool.Interrupt |
| VdmTool.PortContext.ServicePending | vdmtool.c:634-639 | in place, follows VdmTool.PendingPass |
| VdmTool.PortContext.RunOne | vdmtool.c:632-642 | in place, follows VdmTool.RunOneStep, returning its busy flag |
| VdmTool.PortContext.Visit | vdmtool.c:651-654 | in place, follows VdmTool.VisitStep |
| VdmTool.FusbIntHandler | vdmtool.c:556-570 | every context follows VdmTool.Interrupt for the raised pin |
| VdmTool.FusbSetup | vdmtool.c:572-583 | the addressed context follows PortPolicy.Setup; a port number past the array changes nothing |
| VdmTool.RunPass | vdmtool.c:644-658 | one round of the run loop: every context follows VdmTool.VisitStep, in index order; the round is busy iff some present context had console input |
| RingBuffer.LastBytes | start.c:153-159 | the last at most 255 bytes of a sequence, oldest first |
| RingBuffer.ReceiveAllKeepsLast | start.c:153-159 | whatever arrives, the ring holds exactly the last 255 bytes of everything held and received, in arrival order (drop-oldest, FIFO) |
| RingBuffer.ReceiveKeepsLast | start.c:154-158 | one arriving byte keeps the ring equal to the last 255 bytes |
| RingBuffer.FullBurst | start.c:153-159 | 256 bytes into an empty ring leave all but the first |
| RingBuffer.Next | start.c:154 | the uint8_t increment of a cursor wraps 255 to 0 |
| RingBuffer.Count | start.c:104-105 | the bytes between the cursors are their uint8_t difference |
| RingBuffer.Uart1Buffer.constructor | start.c:99-107 | the static ring starts empty |
| RingBuffer.Uart1Buffer.IsEmpty | start.c:258 | the ring is empty iff prod == cons |
| RingBuffer.Uart1Buffer.Push | start.c:153-159 | storing at prod and advancing (and cons too when they meet) appends the byte, dropping the oldest when 255 were held, and keeps the cursor/contents invariant |
| RingBuffer.Uart1Buffer.Pop | start.c:256-263 | an empty ring gives -1 and changes nothing; otherwise the oldest byte comes out and leaves; prod is never moved |
| Upstream.CollapseExpand | start.c:278-295 | the line-feed rewrite loses nothing: dropping each carriage return after a line feed gives the text back |
| Upstream.ExpandLength | start.c:278-295 | the rewritten text is longer by exactly the number of line feeds |
| Upstream.ExpandAppend | start.c:278-295 | the rewrite works piece by piece |
| Upstream.ExpandPlain | start.c:278-295 | text without line feeds is unchanged |
| Upstream.PerBytePayload | start.c:112-115 | forwarding byte by byte delivers the bytes in order |
| Upstream.Calls | start.c:280-294 | every scan of upstream_tx_str makes at least one call |
| Upstream.TxStrPayload | start.c:278-295 | upstream_tx_str sends exactly the text with each line feed followed by a carriage return, in order, nothing added or removed |
| Upstream.CallsSentBy | start.c:278-295 | every call goes to the selected transport and the given port |
| Upstream.TxStrEmpty | start.c:280-289 | an empty string still makes one zero-length call |
| Upstream.TxStrPlain | start.c:280-289 | a string without line feeds goes out in a single call |
| Upstream.FindLineEnd | start.c:281-284 | the cursor stops at the first line feed at or after the start, or at the end; the bytes passed over join the current line |
| Upstream.Link.constructor | start.c:276 | no transport chosen yet, and an empty ring |
| Upstream.Link.SetUpstreamOps | start.c:297-311 | after set_upstream_ops, upstream_is_serial holds iff true was passed |
| Upstream.Link.TxBytes | start.c:114 | a tx_bytes call is logged with the selected transport |
| Upstream.Link.ForwardUart | start.c:109-116 | uart_irq_fn sends every readable byte in its own call, in order |
| Upstream.Link.Uart0Irq | start.c:141-144 | port 0 always forwards |
| Upstream.Link.Uart1Irq | start.c:146-160 | on the USB link port 1 forwards and the ring is untouched; on the serial link the bytes go into the ring (ReceiveAll) and nothing is sent |
| Upstream.Link.Serial1RxByte | start.c:246-266 | a USB byte comes first and leaves the ring untouched; otherwise the ring's oldest byte, or -1 with nothing changed when it is empty |
| Upstream.Link.UpstreamTxStr | start.c:278-295 | the calls made are exactly TxStr of the string, on the selected transport |
| Upstream.Link.SendLine | start.c:281-294 | one pass of the do-while: a line's call, then "\n\r" if a line feed ended it; done when the string ends there |
| GpioSetup.SetupOne | start.c:179-192 | a skipped entry makes no call, and every call is on the entry's own pin |
| GpioSetup.SystemInit | start.c:194-200 | the pin loop makes the calls of each entry in index order |
| GpioSetup.SetupOneConfigures | start.c:179-192 | a skipped entry changes no pin; otherwise the entry's pin gets its function, init and direction only for SIO, a level only for SIO outputs, and a pull-up iff pu; no other pin changes |
| GpioSetup.SetupOneOwnPin | start.c:183-191 | an entry's own calls leave its pin as the entry asks |
| GpioSetup.SystemInitConfigures | start.c:194-200 | with distinct pins, every entry's pin ends as the entry asks (untouched if skipped), and pins outside the table are untouched |
| GpioSetup.Port1LeavesLed | start.c:54-96 | port 1's set-up never touches the LED pin 25 and leaves pins 21 and 6 SIO outputs driven low |
| GpioSetup.TablesDriveLow | start.c:10-97 | both tables name distinct pins, ask for no pull-up and drive every output low |
| UsbDescriptors.DescStrLen | usb_descriptors.c:95 | the header word has the STRING type 3 in its high byte and 2(l+1) in its low byte; the length never reaches the type byte |
| UsbDescriptors.CLen | usb_descriptors.c:101 | the copy stops at the first NUL |
| UsbDescriptors.Chars | usb_descriptors.c:101 | at most 19 characters are copied |
| UsbDescriptors.Encoded | usb_descriptors.c:97-105 | a descriptor is 1 to 20 words |
| UsbDescriptors.Str8ToStr16 | usb_descriptors.c:97-105 | the first words of the buffer become the header and the characters up to the NUL or 19, widened; every later word keeps its value |
| UsbDescriptors.EncodedDecodes | usb_descriptors.c:97-105 | a descriptor built by str8_to_str16 reads back as the string cut at 19 characters |
| UsbDescriptors.HexDigit | usb_descriptors.c:126 | "%X" yields an uppercase hexadecimal digit |
| UsbDescriptors.HexSerial | usb_descriptors.c:125-128 | the serial number has two hex digits per id byte |
| UsbDescriptors.HexSerialRoundTrip | usb_descriptors.c:125-128 | the serial-number digits read back as the board id, byte by byte in order |
| UsbDescriptors.SerialChars | usb_descriptors.c:120-131 | the serial string is exactly the 16 digits, so its header is 0x0322 (34 bytes) |
| UsbDescriptors.ShortTextWhole | usb_descriptors.c:101 | text without NULs of at most 19 characters is copied whole |
| UsbDescriptors.LanguageDescriptor | usb_descriptors.c:115-118 | index 0 is [0x0304, 0x0409] |
| UsbDescriptors.NamesWhole | usb_descriptors.c:134-140 | "Central Scrutinizer" has exactly 19 characters, and it and the manufacturer name read back whole |
| UsbDescriptors.PortNames | usb_descriptors.c:142-148 | the CDC names read back as "Port-0" and "Port-1", in 14-byte descriptors |
| UsbDescriptors.SerialDescriptor | usb_descriptors.c:120-131 | the serial-number descriptor has header 0x0322 and reads back as the id's hex digits, which parse back to the id |
| UsbDescriptors.StringTable.constructor | usb_descriptors.c:109 | the static buffer has 20 words |
| UsbDescriptors.StringTable.GetString | usb_descriptors.c:107-152 | index 6 or more returns NULL with the buffer untouched; indices 0..5 return the buffer, holding that index's descriptor in its first words and the old contents after |

## Left out

- The FUSB302 driver (`fusb302_tcpm_*`, `fusb302_get_irq`, `tcpc_read`) and `tcpm_driver.c` are not part of this model. Their calls are abstract trace actions, and their reads are inputs.
- The `PD_HEADER` macros are not part of this model. The header is the record of section 6.2.1.1 of USB Power Delivery Rev 2.0. The interrupt status registers are four decoded booleans, because the FUSB302.h bit masks are not part of this model.
- Logging (`printf`, `cprintf`, `dprintf`, `dump_msg`, `help`'s text) is not modelled. `help` is one trace action.
- Timing is not modelled. `sleep_ms` is a trace action with no meaning; the 800 ms inside `vbus_off` and the 1 ms break are folded into their actions; `__wfi` is not modelled.
- Interrupt concurrency is modelled as sequential calls between steps. This covers `fusb_int_handler` against the run loop, and the UART interrupts against `serial1_rx_byte` with its interrupt masking.
- `m1_pd_bmc_run` loops forever. The model has one round of it (`VdmTool.RunPass`), because a non-terminating loop cannot be stated here.
- `evt_connect` is never called in the source, so it is not modelled. `STATE_CONNECTED` is kept as the enumerator `Connected`, which nothing reaches; the tick leaves it unchanged, as the source's empty case does. `STATE_INVALID` is never assigned, so the "Invalid state" branch of `state_machine` is not modelled.
- `std_flag` is never used. `get_hw_from_port` is an accessor with no logic.
- `m1_pd_bmc_fusb_setup` with an out-of-range port logs through an uninitialised pointer. It is modelled as returning with nothing changed.
- `evt_dfpconnect` and `evt_disconnect` log the CC readings, and `handle_irq` logs the interrupt registers. Those logs are not modelled.
- The TinyUSB transport is not modelled: `usb_tx_bytes`, `usb_rx_byte`, `serial1_tx_bytes`, `tud_task` and the flush operation. A `tx_bytes` call is logged with its transport and bytes. The USB byte `serial1_rx_byte` may get is an input.
- `upstream_ops` is NULL before the first `set_upstream_ops`. The operations that call through it therefore require a transport to be set.
- `main`, its LED-blink wait loop, `init_system` (clock, I2C, UART and IRQ configuration) and the device and configuration descriptor tables of `usb_descriptors.c` are not modelled.
- The `langid` argument of `tud_descriptor_string_cb` is unused in the source and is not modelled.
- `pico_get_unique_board_id` is not modelled. Its 8-byte id is an input.
- `snprintf` is modelled only for the one format the source uses: eight `%02X` conversions of bytes.
- In the pin tables, `SBU_SWAP` and `SEL_USB` are taken to follow `UART_RX`, in the order of the initialisers in `start.c`. Their enumerators are missing from `m1-pd-bmc.h`.
- The tables never set `level`, so it is 0.
- Upstream.Link.Uart1Irq: the producer state is the ring's abstract contents; which slot each byte occupies is stated only through the ring's invariant.
- Console.Command: after ^_ ^^ (reset_usb_boot, which never returns) and ^_ ^R (a watchdog reset 1 ms later) the model goes on decoding the remaining bytes; on the device nothing runs after the bootloader reboot, and bytes after the watchdog command may or may not be handled before the reset. The model records the reboot as an action and treats what follows as unreachable in practice rather than cutting the stream.
- Console.Quote: its own contract says only that quoting never shortens data; what quoting means is stated by Console.QuoteRoundTrip.
- Upstream.Calls: its own contract says only that at least one call is made; its meaning is stated by Upstream.TxStrPayload and the lemmas beside it.
