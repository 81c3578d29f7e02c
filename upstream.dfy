/**
 * The upstream byte plumbing of start.c: which transport the console text goes
 * to (upstream_ops, chosen by set_upstream_ops), the UART receive interrupts that
 * move port bytes upstream, serial1_rx_byte that reads from the host, and
 * upstream_tx_str that writes text with every line feed followed by a carriage
 * return.
 *
 * Every tx_bytes call through upstream_ops is recorded, with the transport that
 * received it, in a ghost log. The bytes the UARTs hold and the byte the USB
 * link has ready are inputs.
 */
module Upstream {
  import opened Wrappers
  import opened RingBuffer

  /** What upstream_ops points at: nothing before the first set_upstream_ops,
    * then the USB CDC transport or the UART1 transport. */
  datatype Ops = Unset | UsbOps | Serial1Ops

  /** One tx_bytes call: the transport, the port argument and the bytes. */
  datatype TxCall = Tx(ops: Ops, port: int, data: seq<bv8>)

  const NL: bv8 := 0x0A
  const CR: bv8 := 0x0D

  // ---------------------------------------------------------------------
  // Text rewriting of upstream_tx_str

  /** The text with every line feed followed by a carriage return. */
  function Expand(s: seq<bv8>): seq<bv8>
  {
    if s == [] then []
    else (if s[0] == NL then [NL, CR] else [s[0]]) + Expand(s[1..])
  }

  /** The inverse of Expand: a carriage return right after a line feed is dropped. */
  function Collapse(s: seq<bv8>): seq<bv8>
  {
    if s == [] then []
    else if s[0] == NL && |s| >= 2 && s[1] == CR then [NL] + Collapse(s[2..])
    else [s[0]] + Collapse(s[1..])
  }

  function CountNL(s: seq<bv8>): nat
  {
    if s == [] then 0 else (if s[0] == NL then 1 else 0) + CountNL(s[1..])
  }

  /** Expand loses nothing: collapsing its output gives the text back. */
  lemma {:induction false} CollapseExpand(s: seq<bv8>)
    ensures Collapse(Expand(s)) == s
  {
    if s != [] {
      CollapseExpand(s[1..]);
      var head := if s[0] == NL then [NL, CR] else [s[0]];
      assert Expand(s) == head + Expand(s[1..]);
      if s[0] == NL {
        assert (head + Expand(s[1..]))[2..] == Expand(s[1..]);
      } else {
        assert (head + Expand(s[1..]))[1..] == Expand(s[1..]);
      }
    }
  }

  /** Expand adds exactly one byte per line feed. */
  lemma {:induction false} ExpandLength(s: seq<bv8>)
    ensures |Expand(s)| == |s| + CountNL(s)
  {
    if s != [] {
      ExpandLength(s[1..]);
    }
  }

  /** Expand distributes over concatenation. */
  lemma {:induction false} ExpandAppend(a: seq<bv8>, b: seq<bv8>)
    ensures Expand(a + b) == Expand(a) + Expand(b)
  {
    if a == [] {
      assert a + b == b;
    } else {
      assert (a + b)[1..] == a[1..] + b;
      ExpandAppend(a[1..], b);
    }
  }

  /** Text without a line feed is sent unchanged. */
  lemma {:induction false} ExpandPlain(s: seq<bv8>)
    requires NoLineFeed(s)
    ensures Expand(s) == s
  {
    if s != [] {
      ExpandPlain(s[1..]);
    }
  }

  predicate NoLineFeed(s: seq<bv8>)
  {
    forall i :: 0 <= i < |s| ==> s[i] != NL
  }

  /** The bytes of a log of calls, in call order. */
  function Payload(calls: seq<TxCall>): seq<bv8>
  {
    if calls == [] then [] else Payload(calls[..|calls| - 1]) + calls[|calls| - 1].data
  }

  lemma {:induction false} PayloadAppend(a: seq<TxCall>, b: seq<TxCall>)
    ensures Payload(a + b) == Payload(a) + Payload(b)
  {
    if b == [] {
      assert a + b == a;
    } else {
      assert (a + b)[..|a + b| - 1] == a + b[..|b| - 1];
      PayloadAppend(a, b[..|b| - 1]);
    }
  }

  /** One tx_bytes call of a single byte per byte, in order, as uart_irq_fn makes them. */
  function PerByte(ops: Ops, port: int, bytes: seq<bv8>): (calls: seq<TxCall>)
    ensures |calls| == |bytes|
  {
    if bytes == [] then [] else PerByte(ops, port, bytes[..|bytes| - 1]) + [Tx(ops, port, [bytes[|bytes| - 1]])]
  }

  /** Forwarding byte by byte delivers the bytes themselves. */
  lemma {:induction false} PerBytePayload(ops: Ops, port: int, bytes: seq<bv8>)
    ensures Payload(PerByte(ops, port, bytes)) == bytes
  {
    if bytes != [] {
      var init := bytes[..|bytes| - 1];
      PerBytePayload(ops, port, init);
      PayloadAppend(PerByte(ops, port, init), [Tx(ops, port, [bytes[|bytes| - 1]])]);
      assert [] + [bytes[|bytes| - 1]] == [bytes[|bytes| - 1]];
      assert init + [bytes[|bytes| - 1]] == bytes;
    }
  }

  // ---------------------------------------------------------------------
  // The selector and the transports

  class Link {
    var ops: Ops
    const ring: Uart1Buffer

    /** Every tx_bytes call made so far. */
    ghost var sent: seq<TxCall>

    ghost predicate Valid()
      reads this, ring, ring.buf
    {
      ring.Valid()
    }

    /** The zero-initialised globals: no transport chosen yet, an empty ring. */
    constructor()
      ensures Valid() && fresh(ring) && fresh(ring.buf)
      ensures ops == Unset && ring.contents == [] && sent == []
    {
      ops := Unset;
      ring := new Uart1Buffer();
      sent := [];
    }

    /** upstream_is_serial */
    predicate IsSerial()
      reads this
    {
      ops == Serial1Ops
    }

    /** set_upstream_ops: after it, the link is serial exactly when serial was passed. */
    method SetUpstreamOps(serial: bool)
      modifies this
      ensures ops == (if serial then Serial1Ops else UsbOps)
      ensures IsSerial() == serial
      ensures sent == old(sent)
    {
      ops := if serial then Serial1Ops else UsbOps;
    }

    /** upstream_ops->tx_bytes */
    method TxBytes(port: int, data: seq<bv8>)
      requires ops != Unset
      modifies this
      ensures sent == old(sent) + [Tx(ops, port, data)]
      ensures ops == old(ops)
    {
      sent := sent + [Tx(ops, port, data)];
    }

    /** uart_irq_fn: every byte the port UART holds goes upstream in a call of its own. */
    method ForwardUart(port: int, readable: seq<bv8>)
      requires ops != Unset
      modifies this
      ensures sent == old(sent) + PerByte(ops, port, readable)
      ensures ops == old(ops)
    {
      var i := 0;
      while i < |readable|
        invariant 0 <= i <= |readable|
        invariant ops == old(ops)
        invariant sent == old(sent) + PerByte(ops, port, readable[..i])
      {
        assert readable[..i + 1][..i] == readable[..i];
        TxBytes(port, [readable[i]]);
        i := i + 1;
      }
      assert readable[..i] == readable;
    }

    /** uart0_irq_fn: port 0 always forwards. */
    method Uart0Irq(readable: seq<bv8>)
      requires ops != Unset
      modifies this
      ensures sent == old(sent) + PerByte(ops, 0, readable)
      ensures ops == old(ops)
    {
      ForwardUart(0, readable);
    }

    /** uart1_irq_fn: on the USB link port 1 forwards like port 0 and the ring is not
      * touched; on the serial link the bytes go into the ring and nothing is sent. */
    method Uart1Irq(readable: seq<bv8>)
      requires Valid()
      requires ops != Unset
      modifies this, ring, ring.buf
      ensures Valid() && ops == old(ops)
      ensures !IsSerial() ==> sent == old(sent) + PerByte(ops, 1, readable)
      ensures !IsSerial() ==> ring.contents == old(ring.contents) && unchanged(ring)
      ensures IsSerial() ==> sent == old(sent)
      ensures IsSerial() ==> ring.contents == ReceiveAll(old(ring.contents), readable)
    {
      if !IsSerial() {
        ForwardUart(1, readable);
        return;
      }
      var i := 0;
      while i < |readable|
        invariant 0 <= i <= |readable|
        invariant Valid() && ops == old(ops) && sent == old(sent)
        invariant ring.contents == ReceiveAll(old(ring.contents), readable[..i])
      {
        assert readable[..i + 1][..i] == readable[..i];
        ring.Push(readable[i]);
        i := i + 1;
      }
      assert readable[..i] == readable;
    }

    /** serial1_rx_byte: a byte the host has sent over USB comes first and leaves the
      * ring alone; otherwise the oldest byte of the ring, or -1 when it is empty. */
    method Serial1RxByte(usbByte: Option<bv8>) returns (val: int)
      requires Valid()
      modifies ring
      ensures Valid() && ring.prod == old(ring.prod)
      ensures usbByte.Some? ==> val == usbByte.value as int && unchanged(ring)
      ensures usbByte.None? && old(ring.contents) == [] ==> val == -1 && unchanged(ring)
      ensures usbByte.None? && old(ring.contents) != [] ==>
        val == old(ring.contents)[0] as int && ring.contents == old(ring.contents)[1..]
    {
      if usbByte.Some? {
        return usbByte.value as int;
      }
      val := ring.Pop();
    }
    /** upstream_tx_str on a NUL-terminated string whose bytes before the NUL are
      * str: it makes exactly the calls TxStr describes. */
    method UpstreamTxStr(port: int, str: seq<bv8>)
      requires ops != Unset
      requires 0 !in str
      modifies this
      ensures ops == old(ops)
      ensures sent == old(sent) + TxStr(ops, port, str)
    {
      var start := 0;
      assert str[0..] == str;
      while true
        invariant start <= |str|
        invariant ops == old(ops)
        invariant sent + Calls(ops, port, [], str[start..]) == old(sent) + TxStr(ops, port, str)
        decreases |str| - start
      {
        var next, done := SendLine(port, str, start);
        if done {
          return;
        }
        start := next;
      }
    }

    /** One pass of the loop in upstream_tx_str: the bytes from start up to the next
      * line feed or the end in one call, then "\n\r" if a line feed was found; done
      * when the string ends there. */
    method SendLine(port: int, str: seq<bv8>, start: nat) returns (next: nat, done: bool)
      requires ops != Unset
      requires start <= |str|
      modifies this
      ensures ops == old(ops)
      ensures done ==> sent == old(sent) + Calls(ops, port, [], str[start..])
      ensures !done ==> start < next <= |str|
      ensures !done ==> sent + Calls(ops, port, [], str[next..]) == old(sent) + Calls(ops, port, [], str[start..])
    {
      var cursor := FindLineEnd(ops, port, str, start);
      TxBytes(port, str[start..cursor]);
      if cursor == |str| {
        LastLine(ops, port, str, start);
        return |str|, true;
      }
      TxBytes(port, [NL, CR]);
      LineFeed(ops, port, str, start, cursor);
      ghost var line := [Tx(ops, port, str[start..cursor]), Tx(ops, port, [NL, CR])];
      if cursor + 1 == |str| {
        assert line + [] == line;
        return |str|, true;
      }
      next, done := cursor + 1, false;
      AppendAssoc(old(sent), line, Calls(ops, port, [], str[next..]));
    }
  }

  /** The calls upstream_tx_str makes on the rest s of the string when the bytes acc
    * of the current line have been scanned already: a line feed ends the line, with
    * a call for the line and one for "\n\r"; the string's end ends the last line;
    * nothing follows a line feed that ends the string. */
  function Calls(ops: Ops, port: int, acc: seq<bv8>, s: seq<bv8>): (calls: seq<TxCall>)
    ensures |calls| >= 1
    decreases |s|
  {
    if s == [] then [Tx(ops, port, acc)]
    else if s[0] == NL then
      [Tx(ops, port, acc), Tx(ops, port, [NL, CR])] + (if |s| == 1 then [] else Calls(ops, port, [], s[1..]))
    else Calls(ops, port, acc + [s[0]], s[1..])
  }

  /** The calls of upstream_tx_str on the whole string. */
  function TxStr(ops: Ops, port: int, str: seq<bv8>): seq<TxCall>
  {
    Calls(ops, port, [], str)
  }

  /** The cursor scan of upstream_tx_str: the first line feed at or after start, or
    * the end of the string; the bytes passed over join the current line. */
  method FindLineEnd(ops: Ops, port: int, str: seq<bv8>, start: nat) returns (cursor: nat)
    requires start <= |str|
    ensures start <= cursor <= |str|
    ensures NoLineFeed(str[start..cursor])
    ensures cursor < |str| ==> str[cursor] == NL
    ensures Calls(ops, port, str[start..cursor], str[cursor..]) == Calls(ops, port, [], str[start..])
  {
    cursor := start;
    assert str[start..start] == [];
    while cursor < |str| && str[cursor] != NL
      invariant start <= cursor <= |str|
      invariant NoLineFeed(str[start..cursor])
      invariant Calls(ops, port, str[start..cursor], str[cursor..]) == Calls(ops, port, [], str[start..])
    {
      ScanByte(ops, port, str, start, cursor);
      cursor := cursor + 1;
    }
  }

  /** Passing over a byte that is not a line feed moves it into the current line. */
  lemma ScanByte(ops: Ops, port: int, str: seq<bv8>, start: nat, cursor: nat)
    requires start <= cursor < |str| && str[cursor] != NL
    requires NoLineFeed(str[start..cursor])
    ensures NoLineFeed(str[start..cursor + 1])
    ensures Calls(ops, port, str[start..cursor], str[cursor..])
      == Calls(ops, port, str[start..cursor + 1], str[cursor + 1..])
  {
    assert str[start..cursor] + [str[cursor]] == str[start..cursor + 1];
    assert str[cursor..][1..] == str[cursor + 1..];
  }

  /** A line that ends the string goes out in one call. */
  lemma LastLine(ops: Ops, port: int, str: seq<bv8>, start: nat)
    requires start <= |str|
    ensures Calls(ops, port, str[start..|str|], str[|str|..]) == [Tx(ops, port, str[start..])]
  {
    assert str[|str|..] == [];
    assert str[start..|str|] == str[start..];
  }

  /** A line ended by a line feed: its call, the "\n\r" call, then the calls of the
    * bytes after the line feed. */
  lemma LineFeed(ops: Ops, port: int, str: seq<bv8>, start: nat, cursor: nat)
    requires start <= cursor < |str| && str[cursor] == NL
    ensures Calls(ops, port, str[start..cursor], str[cursor..])
      == [Tx(ops, port, str[start..cursor]), Tx(ops, port, [NL, CR])]
        + (if cursor + 1 == |str| then [] else Calls(ops, port, [], str[cursor + 1..]))
  {
    assert str[cursor..][1..] == str[cursor + 1..];
  }

  /** Every call went to the given transport and port. */
  predicate SentBy(calls: seq<TxCall>, ops: Ops, port: int)
  {
    forall i :: 0 <= i < |calls| ==> calls[i].ops == ops && calls[i].port == port
  }

  /** The text reaches the transport with every line feed followed by a carriage
    * return, and nothing else: the calls carry Expand(str). */
  lemma TxStrPayload(ops: Ops, port: int, str: seq<bv8>)
    ensures Payload(TxStr(ops, port, str)) == Expand(str)
  {
    CallsPayload(ops, port, [], str);
  }

  lemma {:induction false} CallsPayload(ops: Ops, port: int, acc: seq<bv8>, s: seq<bv8>)
    ensures Payload(Calls(ops, port, acc, s)) == acc + Expand(s)
    decreases |s|
  {
    if s == [] {
      PayloadOne(Tx(ops, port, acc));
    } else if s[0] == NL {
      var line := [Tx(ops, port, acc), Tx(ops, port, [NL, CR])];
      var rest := if |s| == 1 then [] else Calls(ops, port, [], s[1..]);
      if |s| > 1 {
        CallsPayload(ops, port, [], s[1..]);
      }
      assert Payload(rest) == Expand(s[1..]);
      PayloadAppend(line, rest);
      PayloadTwo(line[0], line[1]);
      assert Expand(s) == [NL, CR] + Expand(s[1..]);
      AppendAssoc(acc, [NL, CR], Expand(s[1..]));
    } else {
      CallsPayload(ops, port, acc + [s[0]], s[1..]);
      AppendAssoc(acc, [s[0]], Expand(s[1..]));
    }
  }

  lemma PayloadOne(a: TxCall)
    ensures Payload([a]) == a.data
  {
    assert Payload([a]) == Payload([]) + a.data;
  }

  lemma PayloadTwo(a: TxCall, b: TxCall)
    ensures Payload([a, b]) == a.data + b.data
  {
    assert [a, b][..1] == [a];
    PayloadOne(a);
  }

  /** Every call goes to the transport selected and the port given. */
  lemma {:induction false} CallsSentBy(ops: Ops, port: int, acc: seq<bv8>, s: seq<bv8>)
    ensures SentBy(Calls(ops, port, acc, s), ops, port)
    decreases |s|
  {
    if s != [] {
      if s[0] != NL {
        CallsSentBy(ops, port, acc + [s[0]], s[1..]);
      } else if |s| > 1 {
        CallsSentBy(ops, port, [], s[1..]);
      }
    }
  }

  /** An empty string still makes one call, with no bytes. */
  lemma TxStrEmpty(ops: Ops, port: int)
    ensures TxStr(ops, port, []) == [Tx(ops, port, [])]
  {
  }

  /** A string without line feeds goes out whole, in a single call. */
  lemma TxStrPlain(ops: Ops, port: int, str: seq<bv8>)
    requires NoLineFeed(str)
    ensures TxStr(ops, port, str) == [Tx(ops, port, str)]
  {
    CallsPlain(ops, port, [], str);
    assert [] + str == str;
  }

  lemma {:induction false} CallsPlain(ops: Ops, port: int, acc: seq<bv8>, s: seq<bv8>)
    requires NoLineFeed(s)
    ensures Calls(ops, port, acc, s) == [Tx(ops, port, acc + s)]
    decreases |s|
  {
    if s == [] {
      assert acc + s == acc;
    } else {
      CallsPlain(ops, port, acc + [s[0]], s[1..]);
      AppendAssoc(acc, [s[0]], s[1..]);
      assert [s[0]] + s[1..] == s;
    }
  }
}
