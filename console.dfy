/**
 * The console decoder of serial_handler (vdmtool.c): bytes from the host are
 * passed through to the port UART, except that 0x1F (^_) arms an escape and the
 * byte after it is a one-byte command.
 *
 * ConsoleByte is the body of the decoder loop for one byte, SerialRun the whole
 * loop over the bytes available in one call. The class in VdmTool performs the
 * loop in place and is proved to follow SerialRun.
 */
module Console {
  import opened Wrappers
  import opened PdMessage
  import opened Transceiver
  import opened PortPolicy

  /** ^_ : the escape byte. */
  const ESCAPE: bv8 := 0x1F

  /** The command bytes recognised after an escape. */
  const CMD_BREAK: bv8 := 0x00         // ^@
  const CMD_TOGGLE_DEBUG: bv8 := 0x04  // ^D
  const CMD_PROBE: bv8 := 0x0D         // Enter
  const CMD_WATCHDOG: bv8 := 0x12      // ^R
  const CMD_BOOTLOADER: bv8 := 0x1E    // ^^
  const CMD_DUT_RESET: bv8 := 0x21     // '!'
  const CMD_HELP: bv8 := 0x3F          // '?'

  predicate IsCommand(c: bv8)
  {
    c in {CMD_BREAK, CMD_TOGGLE_DEBUG, CMD_PROBE, CMD_WATCHDOG, CMD_BOOTLOADER, CMD_DUT_RESET, CMD_HELP, ESCAPE}
  }

  /** The switch of serial_handler, reached with the escape armed. */
  function Command(p: Port, c: bv8): (s: Step)
    ensures s.port == p.(verbose := s.port.verbose)
    ensures s.port.verbose == (p.verbose != (c == CMD_TOGGLE_DEBUG))
    ensures Forwarded(s.actions) == (if c == ESCAPE then [ESCAPE] else [])
    ensures !IsCommand(c) ==> s.actions == []
    ensures c == CMD_DUT_RESET ==> s == Step(p, [Transmit(RebootVdm())])
    ensures c == CMD_WATCHDOG ==> s == Step(p, [WatchdogReboot])
    ensures c == CMD_BOOTLOADER ==> s == Step(p, [RebootToBootloader])
    ensures c == CMD_BREAK ==> s == Step(p, [UartBreak])
    ensures c == CMD_PROBE ==> s == Step(p, [Transmit(DebugProbe())])
    ensures c == CMD_HELP ==> s == Step(p, [Help])
  {
    if c == CMD_DUT_RESET then Step(p, VdmSendReboot())
    else if c == CMD_WATCHDOG then Step(p, [WatchdogReboot])
    else if c == CMD_BOOTLOADER then Step(p, [RebootToBootloader])
    else if c == ESCAPE then Step(p, [UartPut(c)])
    else if c == CMD_TOGGLE_DEBUG then Step(p.(verbose := !p.verbose), [])
    else if c == CMD_BREAK then Step(p, [UartBreak])
    else if c == CMD_PROBE then Step(p, DebugPoke())
    else if c == CMD_HELP then Step(p, [Help])
    else Step(p, [])
  }

  /** One pass of the loop in serial_handler. */
  function ConsoleByte(p: Port, c: bv8): (s: Step)
    ensures s.port == p.(verbose := s.port.verbose, escape := s.port.escape)
    ensures !p.escape && c != ESCAPE ==> s == Step(p, [UartPut(c)])
    ensures !p.escape && c == ESCAPE ==> s == Step(p.(escape := true), [])
    ensures p.escape ==> !s.port.escape
    ensures p.escape ==> Forwarded(s.actions) == (if c == ESCAPE then [ESCAPE] else [])
    ensures p.escape && !IsCommand(c) ==> s == Step(p.(escape := false), [])
  {
    if !p.escape && c != ESCAPE then Step(p, [UartPut(c)])
    else if !p.escape then Step(p.(escape := true), [])
    else
      var cmd := Command(p, c);
      Step(cmd.port.(escape := false), cmd.actions)
  }

  /** serial_handler over the bytes available in one call, in order. */
  function SerialRun(p: Port, input: seq<bv8>): Step
    decreases |input|
  {
    if input == [] then Step(p, [])
    else
      var s := SerialRun(p, input[..|input| - 1]);
      var t := ConsoleByte(s.port, input[|input| - 1]);
      Step(t.port, s.actions + t.actions)
  }

  /** The decoder touches only the escape and verbose flags of the port. */
  lemma {:induction false} SerialRunFrame(p: Port, input: seq<bv8>)
    ensures var s := SerialRun(p, input).port;
      s == p.(verbose := s.verbose, escape := s.escape)
  {
    if input != [] {
      SerialRunFrame(p, input[..|input| - 1]);
    }
  }

  /** Running two chunks one after the other is running their concatenation. */
  lemma {:induction false} SerialRunAppend(p: Port, a: seq<bv8>, b: seq<bv8>)
    ensures var s := SerialRun(p, a); var t := SerialRun(s.port, b);
      SerialRun(p, a + b) == Step(t.port, s.actions + t.actions)
  {
    if b == [] {
      assert a + b == a;
    } else {
      var init, last := b[..|b| - 1], b[|b| - 1];
      assert (a + b)[..|a + b| - 1] == a + init;
      assert (a + b)[|a + b| - 1] == last;
      SerialRunAppend(p, a, init);
      var s := SerialRun(p, a);
      var u := SerialRun(s.port, init);
      var t := ConsoleByte(u.port, last);
      assert SerialRun(s.port, b) == Step(t.port, u.actions + t.actions);
      AppendAssoc(s.actions, u.actions, t.actions);
    }
  }

  /** Outside escape mode, text without ^_ reaches the UART verbatim and nothing else happens. */
  lemma {:induction false} PassThrough(p: Port, text: seq<bv8>)
    requires !p.escape
    requires forall i :: 0 <= i < |text| ==> text[i] != ESCAPE
    ensures var s := SerialRun(p, text);
      && s.port == p
      && Forwarded(s.actions) == text
      && Transmitted(s.actions) == []
  {
    if text != [] {
      var init := text[..|text| - 1];
      PassThrough(p, init);
      var s := SerialRun(p, init);
      ForwardedAppend(s.actions, [UartPut(text[|text| - 1])]);
      TransmittedAppend(s.actions, [UartPut(text[|text| - 1])]);
      assert init + [text[|text| - 1]] == text;
    }
  }

  /** The bytes Quote sends for one data byte. */
  function QuoteByte(c: bv8): seq<bv8>
  {
    if c == ESCAPE then [ESCAPE, ESCAPE] else [c]
  }

  /** How to send arbitrary data through the decoder: double every ^_. */
  function Quote(data: seq<bv8>): (q: seq<bv8>)
    ensures |q| >= |data|
    decreases |data|
  {
    if data == [] then []
    else Quote(data[..|data| - 1]) + QuoteByte(data[|data| - 1])
  }

  /** Two bytes are decoded one after the other. */
  lemma SerialRunTwo(p: Port, a: bv8, b: bv8)
    ensures var t1 := ConsoleByte(p, a); var t2 := ConsoleByte(t1.port, b);
      SerialRun(p, [a, b]) == Step(t2.port, t1.actions + t2.actions)
  {
    assert [a, b][..1] == [a];
    assert [a] [..0] == [];
    assert SerialRun(p, [a]) == Step(ConsoleByte(p, a).port, [] + ConsoleByte(p, a).actions);
  }

  /** The quoted form of one byte puts exactly that byte on the UART. */
  lemma QuoteByteDecodes(p: Port, c: bv8)
    requires !p.escape
    ensures SerialRun(p, QuoteByte(c)) == Step(p, [UartPut(c)])
  {
    if c == ESCAPE {
      SerialRunTwo(p, ESCAPE, ESCAPE);
    } else {
      assert [c][..0] == [];
    }
  }

  /** ^_ ^_ is a raw ^_: a quoted stream is decoded back to the original data,
    * with no command run and the escape disarmed at the end. */
  lemma {:induction false} QuoteRoundTrip(p: Port, data: seq<bv8>)
    requires !p.escape
    ensures var s := SerialRun(p, Quote(data));
      && s.port == p
      && Forwarded(s.actions) == data
      && Transmitted(s.actions) == []
  {
    if data != [] {
      var init := data[..|data| - 1];
      var c := data[|data| - 1];
      QuoteRoundTrip(p, init);
      var s := SerialRun(p, Quote(init));
      SerialRunAppend(p, Quote(init), QuoteByte(c));
      QuoteByteDecodes(p, c);
      ForwardedAppend(s.actions, [UartPut(c)]);
      TransmittedAppend(s.actions, [UartPut(c)]);
      assert init + [c] == data;
    }
  }

  /** ^_ followed by a byte that is not a command does nothing at all. */
  lemma UnknownCommandIgnored(p: Port, c: bv8)
    requires !p.escape && !IsCommand(c)
    ensures SerialRun(p, [ESCAPE, c]) == Step(p, [])
  {
    SerialRunTwo(p, ESCAPE, c);
  }

  /** ^_ ^D toggles verbose and nothing else. */
  lemma ToggleDebug(p: Port)
    requires !p.escape
    ensures SerialRun(p, [ESCAPE, CMD_TOGGLE_DEBUG]) == Step(p.(verbose := !p.verbose), [])
  {
    SerialRunTwo(p, ESCAPE, CMD_TOGGLE_DEBUG);
  }

  /** ^_ ^@ asserts a break on the port UART and forwards no byte. */
  lemma EscapeNulSendsBreak(p: Port)
    requires !p.escape
    ensures SerialRun(p, [ESCAPE, CMD_BREAK]) == Step(p, [UartBreak])
  {
    SerialRunTwo(p, ESCAPE, CMD_BREAK);
  }

  /** ^_ ! sends the reboot VDM to the device under test. */
  lemma EscapeBangReboots(p: Port)
    requires !p.escape
    ensures SerialRun(p, [ESCAPE, CMD_DUT_RESET]) == Step(p, [Transmit(RebootVdm())])
  {
    SerialRunTwo(p, ESCAPE, CMD_DUT_RESET);
  }

  /** ^_ Enter sends the debug probe to the port and forwards nothing. */
  lemma EscapeEnterProbes(p: Port)
    requires !p.escape
    ensures SerialRun(p, [ESCAPE, CMD_PROBE]) == Step(p, [Transmit(DebugProbe())])
  {
    SerialRunTwo(p, ESCAPE, CMD_PROBE);
  }

  /** ^_ ^R arms the watchdog to reset the board and forwards nothing. */
  lemma EscapeCtrlRWatchdog(p: Port)
    requires !p.escape
    ensures SerialRun(p, [ESCAPE, CMD_WATCHDOG]) == Step(p, [WatchdogReboot])
  {
    SerialRunTwo(p, ESCAPE, CMD_WATCHDOG);
  }

  /** ^_ ^^ reboots the board into its USB bootloader and forwards nothing. */
  lemma EscapeCaretBootloader(p: Port)
    requires !p.escape
    ensures SerialRun(p, [ESCAPE, CMD_BOOTLOADER]) == Step(p, [RebootToBootloader])
  {
    SerialRunTwo(p, ESCAPE, CMD_BOOTLOADER);
  }

  /** ^_ ? prints the help text and forwards nothing. */
  lemma EscapeQuestionHelps(p: Port)
    requires !p.escape
    ensures SerialRun(p, [ESCAPE, CMD_HELP]) == Step(p, [Help])
  {
    SerialRunTwo(p, ESCAPE, CMD_HELP);
  }

  /** ^_ ^_ forwards exactly one ^_ and disarms the escape. */
  lemma EscapeEscapeForwardsOne(p: Port)
    requires !p.escape
    ensures SerialRun(p, [ESCAPE, ESCAPE]) == Step(p, [UartPut(ESCAPE)])
  {
    SerialRunTwo(p, ESCAPE, ESCAPE);
  }
}
