/**
 * uart1_buf (start.c): the 256-slot ring that collects bytes from UART1 while
 * the upstream link is the serial one. The producer (one pass of the loop in
 * uart1_irq_fn) writes at prod and, when the ring would look empty again,
 * advances cons, dropping the oldest byte; the consumer (serial1_rx_byte) reads
 * at cons. The cursors are uint8_t in the source: here they are naturals below
 * 256 and every increment is written out modulo 256.
 *
 * The abstract contents of the ring are the bytes from cons up to prod; the
 * functions Receive and ReceiveAll say what they become when bytes arrive.
 */
module RingBuffer {
  /** Number of slots: the full range of a uint8_t cursor. */
  const SLOTS: nat := 256

  /** The most bytes the ring can hold: one slot always stays free. */
  const CAPACITY: nat := 255

  /** The last (at most) 255 bytes of s. */
  function LastBytes(s: seq<bv8>): (r: seq<bv8>)
    ensures |r| == if |s| <= CAPACITY then |s| else CAPACITY
    ensures forall i :: 0 <= i < |r| ==> r[i] == s[|s| - |r| + i]
  {
    if |s| <= CAPACITY then s else s[|s| - CAPACITY..]
  }

  /** The contents after one byte c arrives: c is appended and, when the ring was
    * full, the oldest byte goes. */
  function Receive(held: seq<bv8>, c: bv8): seq<bv8>
  {
    if |held| >= CAPACITY then held[1..] + [c] else held + [c]
  }

  /** The contents after the bytes arrive one after the other. */
  function ReceiveAll(held: seq<bv8>, bytes: seq<bv8>): seq<bv8>
    decreases |bytes|
  {
    if bytes == [] then held
    else Receive(ReceiveAll(held, bytes[..|bytes| - 1]), bytes[|bytes| - 1])
  }

  /** Whatever arrives, the ring holds exactly the last 255 bytes of everything it
    * held and received, oldest first. */
  lemma {:induction false} ReceiveAllKeepsLast(held: seq<bv8>, bytes: seq<bv8>)
    requires |held| <= CAPACITY
    ensures ReceiveAll(held, bytes) == LastBytes(held + bytes)
    decreases |bytes|
  {
    if bytes != [] {
      var init, c := bytes[..|bytes| - 1], bytes[|bytes| - 1];
      ReceiveAllKeepsLast(held, init);
      assert held + bytes == (held + init) + [c];
      ReceiveKeepsLast(held + init, c);
    }
  }

  /** One step of ReceiveAllKeepsLast. */
  lemma ReceiveKeepsLast(s: seq<bv8>, c: bv8)
    ensures Receive(LastBytes(s), c) == LastBytes(s + [c])
  {
    if |s| >= CAPACITY {
      var l := s[|s| - CAPACITY..];
      assert l[1..] == s[|s| + 1 - CAPACITY..];
      assert (s + [c])[|s| + 1 - CAPACITY..] == s[|s| + 1 - CAPACITY..] + [c];
    }
  }

  /** A burst of 256 bytes into an empty ring leaves all but the first. */
  lemma FullBurst(bytes: seq<bv8>)
    requires |bytes| == SLOTS
    ensures ReceiveAll([], bytes) == bytes[1..]
  {
    ReceiveAllKeepsLast([], bytes);
    assert [] + bytes == bytes;
  }

  /** The uint8_t increment of a cursor. */
  function Next(x: nat): (y: nat)
    requires x < SLOTS
    ensures y == if x + 1 == SLOTS then 0 else x + 1
  {
    (x + 1) % SLOTS
  }

  /** The number of bytes between cons and prod: their uint8_t difference. */
  function Count(prod: nat, cons: nat): (n: nat)
    requires prod < SLOTS && cons < SLOTS
    ensures n == if prod >= cons then prod - cons else prod + SLOTS - cons
  {
    (prod - cons) % SLOTS
  }

  /** The slot k places after slot 0, for k below two turns: k modulo 256. */
  function Slot(k: nat): nat
    requires k < 2 * SLOTS
  {
    if k < SLOTS then k else k - SLOTS
  }

  class Uart1Buffer {
    var prod: nat
    var cons: nat
    const buf: array<bv8>

    /** The bytes waiting to be read, oldest first. */
    ghost var contents: seq<bv8>

    ghost predicate Valid()
      reads this, buf
    {
      && buf.Length == SLOTS
      && prod < SLOTS && cons < SLOTS
      && |contents| == Count(prod, cons)
      && forall i :: 0 <= i < |contents| ==> contents[i] == buf[Slot(cons + i)]
    }

    /** The zero-initialised static ring. */
    constructor()
      ensures Valid() && contents == []
      ensures fresh(buf)
    {
      buf := new bv8[SLOTS](_ => 0);
      prod, cons := 0, 0;
      contents := [];
    }

    /** The ring is empty exactly when the cursors meet. */
    predicate IsEmpty()
      reads this, buf
      requires Valid()
      ensures IsEmpty() <==> contents == []
    {
      prod == cons
    }

    /** One pass of the loop in uart1_irq_fn: store c at prod, advance prod and,
      * if it caught up with cons, push cons forward too. */
    method Push(c: bv8)
      requires Valid()
      modifies this, buf
      ensures Valid()
      ensures contents == Receive(old(contents), c)
    {
      ghost var held, p0, c0 := contents, prod, cons;
      buf[prod] := c;
      prod := Next(prod);
      if prod == cons {
        cons := Next(cons);
        contents := held[1..] + [c];
      } else {
        contents := held + [c];
      }
      forall i | 0 <= i < |contents|
        ensures contents[i] == buf[Slot(cons + i)]
      {
        if i < |contents| - 1 {
          var j := if |held| == CAPACITY then i + 1 else i;
          assert contents[i] == held[j];
          assert Slot(cons + i) == Slot(c0 + j) != p0;
        }
      }
    }

    /** The ring half of serial1_rx_byte: -1 on an empty ring, with nothing
      * changed; otherwise the oldest byte, which leaves the ring. */
    method Pop() returns (val: int)
      requires Valid()
      modifies this
      ensures Valid()
      ensures prod == old(prod)
      ensures old(contents) == [] ==> val == -1 && unchanged(this)
      ensures old(contents) != [] ==> val == old(contents)[0] as int && contents == old(contents)[1..]
    {
      if prod == cons {
        val := -1;
      } else {
        val := buf[cons] as int;
        cons := Next(cons);
        contents := contents[1..];
      }
    }
  }
}
