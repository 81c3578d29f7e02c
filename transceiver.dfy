/**
 * The transceiver and board as the policy engine sees them: every call the
 * firmware makes on the FUSB302 driver, the VBUS switch, the port UART or the
 * board is recorded as an Action in a ghost trace. Reads (CC levels, VBUS
 * level, interrupt status, received messages, console bytes) are not actions:
 * they are inputs of the operations that perform them.
 *
 * The observers below recover, from a trace, the settings the last calls left
 * in the hardware (VBUS, RX enable, CC polarity) and the messages and bytes that
 * went out.
 */
module Transceiver {
  import opened Wrappers
  import opened PdMessage

  /** What fusb302_tcpm_set_cc is asked to present on CC. */
  datatype CcPull = CcOpen | CcRp

  datatype Action =
    | Transmit(msg: Message)                        // fusb302_tcpm_transmit
    | TcpmInit                                      // fusb302_tcpm_init
    | PdReset                                       // fusb302_pd_reset
    | SetMsgHeader(powerRole: bv1, dataRole: bv1)   // fusb302_tcpm_set_msg_header
    | SetPolarity(polarity: nat)                    // fusb302_tcpm_set_polarity: 0 = CC1, 1 = CC2
    | SetRxEnable(enable: bool)                     // fusb302_tcpm_set_rx_enable
    | SelectRpUsb                                   // fusb302_tcpm_select_rp_value(TYPEC_RP_USB)
    | SetCc(pull: CcPull)                           // fusb302_tcpm_set_cc
    | VbusOn                                        // VBUS pin to output, driven high
    | VbusOff                                       // VBUS pin driven low, 800 ms, back to input
    | LedOn                                         // green LED driven high
    | IrqEnable(enable: bool)                       // level-low interrupt on the FUSB_INT pin
    | Sleep(ms: nat)                                // sleep_ms
    | UartPut(c: bv8)                               // uart_putc_raw on the port's UART
    | UartBreak                                     // break asserted for 1 ms, then released
    | WatchdogReboot                                // watchdog_enable(1, 1)
    | RebootToBootloader                            // reset_usb_boot
    | Help                                          // help text printed

  // ---------------------------------------------------------------------
  // Settings left by the last call of each kind

  /** The hardware settings the trace can change. */
  datatype Knob = Vbus | Rx | Polarity

  /** The value an action writes to a knob, if it writes that knob at all. */
  function Writes(a: Action, k: Knob): Option<nat>
  {
    match k
    case Vbus => if a.VbusOn? then Some(1) else if a.VbusOff? then Some(0) else None
    case Rx => if a.SetRxEnable? then Some(if a.enable then 1 else 0) else None
    case Polarity => if a.SetPolarity? then Some(a.polarity) else None
  }

  /** The value the most recent writer of k in tr left, None if nothing in tr wrote it. */
  function Last(tr: seq<Action>, k: Knob): Option<nat>
  {
    if tr == [] then None
    else if Writes(tr[|tr| - 1], k).Some? then Writes(tr[|tr| - 1], k)
    else Last(tr[..|tr| - 1], k)
  }

  predicate VbusIsOn(tr: seq<Action>) { Last(tr, Vbus) == Some(1) }
  predicate VbusIsOff(tr: seq<Action>) { Last(tr, Vbus) == Some(0) }
  predicate RxEnabled(tr: seq<Action>) { Last(tr, Rx) == Some(1) }
  predicate RxDisabled(tr: seq<Action>) { Last(tr, Rx) == Some(0) }

  /** A later writer hides every earlier one; with no writer in b, a + b reads like a. */
  lemma {:induction false} LastAppend(a: seq<Action>, b: seq<Action>, k: Knob)
    ensures Last(a + b, k) == if Last(b, k).Some? then Last(b, k) else Last(a, k)
  {
    if b != [] {
      assert (a + b)[..|a + b| - 1] == a + b[..|b| - 1];
      assert (a + b)[|a + b| - 1] == b[|b| - 1];
      LastAppend(a, b[..|b| - 1], k);
    } else {
      assert a + b == a;
    }
  }

  /** A trace in which nothing writes k leaves k unknown. */
  lemma {:induction false} LastNone(tr: seq<Action>, k: Knob)
    requires forall i :: 0 <= i < |tr| ==> Writes(tr[i], k).None?
    ensures Last(tr, k) == None
  {
    if tr != [] {
      LastNone(tr[..|tr| - 1], k);
    }
  }

  /** The setting of k is the one written by its last writer w. */
  lemma LastWriter(pre: seq<Action>, w: Action, post: seq<Action>, k: Knob)
    requires Writes(w, k).Some?
    requires forall i :: 0 <= i < |post| ==> Writes(post[i], k).None?
    ensures Last(pre + [w] + post, k) == Writes(w, k)
  {
    LastNone(post, k);
    LastAppend(pre + [w], post, k);
    LastAppend(pre, [w], k);
  }

  // ---------------------------------------------------------------------
  // Outgoing traffic

  /** The PD messages the trace hands to the transceiver, in order. */
  function Transmitted(tr: seq<Action>): seq<Message>
  {
    if tr == [] then []
    else Transmitted(tr[..|tr| - 1]) + (if tr[|tr| - 1].Transmit? then [tr[|tr| - 1].msg] else [])
  }

  /** The bytes the trace writes to the port UART, in order. */
  function Forwarded(tr: seq<Action>): seq<bv8>
  {
    if tr == [] then []
    else Forwarded(tr[..|tr| - 1]) + (if tr[|tr| - 1].UartPut? then [tr[|tr| - 1].c] else [])
  }

  lemma {:induction false} TransmittedAppend(a: seq<Action>, b: seq<Action>)
    ensures Transmitted(a + b) == Transmitted(a) + Transmitted(b)
  {
    if b == [] {
      assert a + b == a;
    } else {
      assert (a + b)[..|a + b| - 1] == a + b[..|b| - 1];
      TransmittedAppend(a, b[..|b| - 1]);
    }
  }

  lemma {:induction false} ForwardedAppend(a: seq<Action>, b: seq<Action>)
    ensures Forwarded(a + b) == Forwarded(a) + Forwarded(b)
  {
    if b == [] {
      assert a + b == a;
    } else {
      assert (a + b)[..|a + b| - 1] == a + b[..|b| - 1];
      ForwardedAppend(a, b[..|b| - 1]);
    }
  }

  lemma {:induction false} NoTransmit(tr: seq<Action>)
    requires forall i :: 0 <= i < |tr| ==> !tr[i].Transmit?
    ensures Transmitted(tr) == []
  {
    if tr != [] {
      NoTransmit(tr[..|tr| - 1]);
    }
  }

  /** Every message in the trace carries as many objects as its header announces. */
  predicate AllWellFormed(tr: seq<Action>)
  {
    forall i :: 0 <= i < |tr| && tr[i].Transmit? ==> WellFormed(tr[i].msg)
  }
}
