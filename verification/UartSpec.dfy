/**
 The two rings of a UART as machines: a producer in `vk_uart_putc`, or a
 consumer in `vk_uart_getc`, one memory access at a time, against the interrupt
 handler, which runs whole between any two of its accesses.
 */
module UartSpec {
  import opened Ring
  import opened Words

  // ---- Transmission

  /** Where the producer is in `vk_uart_putc`. */
  datatype TxPc =
    | Outside
    | Poll(c: byte)             // in the loop that waits for room
    | Store(c: byte, next: nat) // found room, about to write the slot
    | Publish(c: byte, next: nat) // about to write tx_head
    | Kick                      // about to mask interrupts and kick

  /** `put` and `sent` are histories: the bytes published by the producer, and those moved to TDR. */
  datatype Tx = Tx(buf: seq<byte>, head: nat, tail: nat, busy: bool, txeie: bool, pc: TxPc,
                   put: seq<byte>, sent: seq<byte>)
  {
    ghost predicate Shaped() { |buf| == 256 && head < 256 && tail < 256 }

    function Buffered(): seq<byte>
      requires |buf| == 256 && head < 256 && tail < 256
    {
      Contents(buf, head, tail)
    }

    /**
     Bytes sent and bytes buffered make up the bytes put; `tx_busy` mirrors
     TXEIE; buffered bytes imply `tx_busy` except before the kick.
     */
    ghost predicate Inv() {
      && Shaped()
      && sent + Buffered() == put
      && busy == txeie
      && (Buffered() != [] ==> busy || pc.Kick?)
      && (pc.Store? ==> pc.next == Succ(head) && pc.next != tail)
      && (pc.Publish? ==> pc.next == Succ(head) && pc.next != tail && buf[head] == pc.c)
    }
  }

  datatype TxEvent =
    | Call(c: byte)  // vk_uart_putc is called
    | Step           // its next memory access
    | Txe            // the handler runs with TXE set in ISR

  predicate TxEnabled(t: Tx, e: TxEvent) {
    match e
    case Call(_) => t.pc.Outside?
    case Step => !t.pc.Outside?
    case Txe => true
  }

  function TxStep(t: Tx): (r: Tx)
    requires t.Shaped() && (t.pc.Store? || t.pc.Publish? ==> t.pc.next < 256)
    ensures r.Shaped()
  {
    match t.pc
    case Outside => t
    case Poll(c) => if Succ(t.head) == t.tail then t else t.(pc := Store(c, Succ(t.head)))
    case Store(c, next) => t.(buf := t.buf[..t.head] + [c] + t.buf[t.head + 1..], pc := Publish(c, next))
    case Publish(c, next) => t.(head := next, pc := Kick, put := t.put + [c])
    case Kick => t.(busy := true, txeie := t.txeie || !t.busy, pc := Outside)
  }

  /** The TX part of `vk_uart_isr`. */
  function TxIsr(t: Tx): (r: Tx)
    requires t.Shaped()
    ensures r.Shaped()
  {
    if t.tail != t.head then t.(tail := Succ(t.tail), sent := t.sent + [t.buf[t.tail]])
    else t.(txeie := false, busy := false)
  }

  function TxNext(t: Tx, e: TxEvent): (r: Tx)
    requires t.Inv() && TxEnabled(t, e)
  {
    match e
    case Call(c) => t.(pc := Poll(c))
    case Step => TxStep(t)
    case Txe => TxIsr(t)
  }

  lemma TxNextInv(t: Tx, e: TxEvent)
    requires t.Inv() && TxEnabled(t, e)
    ensures TxNext(t, e).Inv()
  {
    match e
    case Call(c) =>
    case Step => TxStepInv(t);
    case Txe => TxIsrInv(t);
  }

  lemma TxStepInv(t: Tx)
    requires t.Inv()
    ensures TxStep(t).Inv()
  {
    match t.pc
    case Outside =>
    case Poll(c) =>
    case Store(c, next) => StoreInv(t);
    case Publish(c, next) => PublishInv(t);
    case Kick =>
  }

  lemma StoreInv(t: Tx)
    requires t.Inv() && t.pc.Store?
    ensures TxStep(t).Inv()
  {
    hide Contents;
    assert TxStep(t).buf == t.buf[t.head := t.pc.c];
    HeadSlotFree(t.buf, t.head, t.tail, t.pc.c);
  }

  lemma PublishInv(t: Tx)
    requires t.Inv() && t.pc.Publish?
    ensures TxStep(t).Inv()
  {
    hide Contents;
    assert t.buf[t.head := t.pc.c] == t.buf;
    PushAppends(t.buf, t.head, t.tail, t.pc.c);
    assert t.sent + (t.Buffered() + [t.pc.c]) == t.put + [t.pc.c];
  }

  lemma TxIsrInv(t: Tx)
    requires t.Inv()
    ensures TxIsr(t).Inv()
  {
    if t.tail != t.head {
      PopRemoves(t.buf, t.head, t.tail);
      assert t.sent + ([t.buf[t.tail]] + TxIsr(t).Buffered()) == (t.sent + [t.buf[t.tail]]) + TxIsr(t).Buffered();
      assert |TxIsr(t).Buffered()| < 255;
    }
  }

  ghost predicate TxCanRun(t: Tx, es: seq<TxEvent>)
    requires t.Inv()
    decreases |es|
  {
    es == [] || (TxEnabled(t, es[0]) && (TxNextInv(t, es[0]); TxCanRun(TxNext(t, es[0]), es[1..])))
  }

  ghost function TxRun(t: Tx, es: seq<TxEvent>): (r: Tx)
    requires t.Inv() && TxCanRun(t, es)
    ensures r.Inv()
    decreases |es|
  {
    if es == [] then t else
      TxNextInv(t, es[0]);
      TxRun(TxNext(t, es[0]), es[1..])
  }

  /** After any interleaving the ring is a FIFO of capacity 255 between `put` and `sent`: nothing is lost, added or reordered. */
  lemma TxFifo(t: Tx, es: seq<TxEvent>)
    requires t.Inv() && TxCanRun(t, es)
    ensures var r := TxRun(t, es);
      r.sent <= r.put && r.put[|r.sent|..] == r.Buffered() && |r.put| - |r.sent| <= 255
  {
  }

  /** A producer that finds the ring full can count on an interrupt, TXEIE being set; after one it finds room. */
  lemma FullMeansInterrupt(t: Tx)
    requires t.Inv() && t.pc.Poll?
    ensures Succ(t.head) == t.tail ==> t.txeie
    ensures TxStep(TxIsr(t)).pc.Store?
  {
  }

  /** `n` interrupts in a row. */
  function Irqs(t: Tx, n: nat): (r: Tx)
    requires t.Shaped()
    ensures r.Shaped()
    decreases n
  {
    if n == 0 then t else Irqs(TxIsr(t), n - 1)
  }

  /**
   Progress: with the producer outside, every TXE interrupt up to the n-th sends
   the next of the n buffered bytes with TXEIE still set, and the one after them
   clears TXEIE and `tx_busy`.
   */
  lemma {:induction false} Drains(t: Tx, j: nat)
    requires t.Inv() && t.pc.Outside? && t.busy
    ensures Irqs(t, j).Inv()
    ensures j <= |t.Buffered()| ==> Irqs(t, j).txeie && Irqs(t, j).sent == t.sent + t.Buffered()[..j]
    ensures j > |t.Buffered()| ==> !Irqs(t, j).txeie && !Irqs(t, j).busy && Irqs(t, j).sent == t.put
    decreases j
  {
    if j > 0 {
      TxIsrInv(t);
      if t.tail != t.head {
        PopRemoves(t.buf, t.head, t.tail);
        Drains(TxIsr(t), j - 1);
        assert j <= |t.Buffered()| ==> t.Buffered()[..j] == [t.buf[t.tail]] + TxIsr(t).Buffered()[..j - 1];
      } else {
        StaysQuiet(TxIsr(t), j - 1);
      }
    }
  }

  lemma {:induction false} StaysQuiet(t: Tx, j: nat)
    requires t.Shaped() && t.head == t.tail && !t.txeie && !t.busy
    ensures Irqs(t, j) == t
    decreases j
  {
    if j > 0 {
      StaysQuiet(TxIsr(t), j - 1);
    }
  }

  // ---- Reception

  /** Where the consumer is in `vk_uart_getc`. */
  datatype RxPc =
    | Away
    | Check            // about to compare head and tail
    | Load             // not empty, about to read the slot
    | Advance(c: byte) // about to move rx_tail

  /** `got` and `accepted` are histories: the bytes returned, and those the handler stored. */
  datatype Rx = Rx(buf: seq<byte>, head: nat, tail: nat, pc: RxPc, got: seq<byte>, accepted: seq<byte>)
  {
    ghost predicate Shaped() { |buf| == 256 && head < 256 && tail < 256 }

    function Unread(): seq<byte>
      requires |buf| == 256 && head < 256 && tail < 256
    {
      Contents(buf, head, tail)
    }

    ghost predicate Inv() {
      && Shaped() && got + Unread() == accepted
      && (pc.Load? || pc.Advance? ==> head != tail)
      && (pc.Advance? ==> pc.c == buf[tail])
    }
  }

  datatype RxEvent =
    | Get              // vk_uart_getc is called
    | Access           // its next memory access
    | Rxne(b: byte)    // the handler runs with RXNE set and `b` in RDR

  predicate RxEnabled(r: Rx, e: RxEvent) {
    match e
    case Get => r.pc.Away?
    case Access => !r.pc.Away?
    case Rxne(_) => true
  }

  function RxStep(r: Rx): (s: Rx)
    requires r.Shaped()
    ensures s.Shaped()
  {
    match r.pc
    case Away => r
    case Check => r.(pc := if r.head == r.tail then Away else Load)
    case Load => r.(pc := Advance(r.buf[r.tail]))
    case Advance(c) => r.(tail := Succ(r.tail), got := r.got + [c], pc := Away)
  }

  /** The RX part of `vk_uart_isr`: the byte is dropped when 255 are unread. */
  function RxIsr(r: Rx, b: byte): (s: Rx)
    requires r.Shaped()
    ensures s.Shaped()
  {
    if Succ(r.head) != r.tail
    then r.(buf := r.buf[..r.head] + [b] + r.buf[r.head + 1..], head := Succ(r.head), accepted := r.accepted + [b])
    else r
  }

  function RxNext(r: Rx, e: RxEvent): (s: Rx)
    requires r.Shaped() && RxEnabled(r, e)
    ensures s.Shaped()
  {
    match e
    case Get => r.(pc := Check)
    case Access => RxStep(r)
    case Rxne(b) => RxIsr(r, b)
  }

  lemma RxNextInv(r: Rx, e: RxEvent)
    requires r.Inv() && RxEnabled(r, e)
    ensures RxNext(r, e).Inv()
  {
    match e
    case Get =>
    case Access => RxStepInv(r);
    case Rxne(b) => RxIsrInv(r, b);
  }

  lemma RxStepInv(r: Rx)
    requires r.Inv()
    ensures RxStep(r).Inv()
  {
    if r.pc.Advance? {
      PopRemoves(r.buf, r.head, r.tail);
      assert r.got + ([r.pc.c] + RxStep(r).Unread()) == (r.got + [r.pc.c]) + RxStep(r).Unread();
    }
  }

  /** `r` after `vk_uart_getc` has taken the oldest unread byte. */
  function Taken(r: Rx): (s: Rx)
    requires r.Shaped()
    ensures s.Shaped()
  {
    r.(tail := Succ(r.tail), got := r.got + [r.buf[r.tail]])
  }

  /** The three accesses of an undisturbed `vk_uart_getc` take the oldest unread byte and no other. */
  lemma GetWhole(r: Rx)
    requires r.Inv() && r.pc.Away? && r.head != r.tail
    ensures RxStep(RxStep(RxStep(RxNext(r, Get)))) == Taken(r)
    ensures Taken(r).Inv() && r.Unread() == [r.buf[r.tail]] + Taken(r).Unread()
  {
    PopRemoves(r.buf, r.head, r.tail);
    var a := r.(pc := Advance(r.buf[r.tail]));
    assert a.Unread() == r.Unread();
    RxStepInv(a);
  }

  /** The handler takes a byte iff fewer than 255 are unread, and then appends it; the slot being read stays. */
  lemma RxIsrInv(r: Rx, b: byte)
    requires r.Inv()
    ensures RxIsr(r, b).Inv()
    ensures RxIsr(r, b).Unread() == if |r.Unread()| < 255 then r.Unread() + [b] else r.Unread()
    ensures r.head != r.tail ==> RxIsr(r, b).buf[r.tail] == r.buf[r.tail]
  {
    if Succ(r.head) != r.tail {
      assert RxIsr(r, b).buf == r.buf[r.head := b];
      PushAppends(r.buf, r.head, r.tail, b);
      assert r.got + (r.Unread() + [b]) == (r.got + r.Unread()) + [b];
    }
  }

  ghost predicate RxCanRun(r: Rx, es: seq<RxEvent>)
    requires r.Shaped()
    decreases |es|
  {
    es == [] || (RxEnabled(r, es[0]) && RxCanRun(RxNext(r, es[0]), es[1..]))
  }

  ghost function RxRun(r: Rx, es: seq<RxEvent>): (s: Rx)
    requires r.Shaped() && RxCanRun(r, es)
    ensures s.Shaped()
    decreases |es|
  {
    if es == [] then r else RxRun(RxNext(r, es[0]), es[1..])
  }

  /** The bytes of a run that arrive while fewer than 255 are unread. */
  ghost function Arrivals(r: Rx, es: seq<RxEvent>): (a: seq<byte>)
    requires r.Shaped() && RxCanRun(r, es)
    decreases |es|
  {
    if es == [] then []
    else (if es[0].Rxne? && |r.Unread()| < 255 then [es[0].b] else []) + Arrivals(RxNext(r, es[0]), es[1..])
  }

  /** Over any interleaving `vk_uart_getc` returns exactly the bytes that arrived with room, in order, up to those still unread. */
  lemma {:induction false} RxFifo(r: Rx, es: seq<RxEvent>)
    requires r.Inv() && RxCanRun(r, es)
    ensures RxRun(r, es).Inv() && RxRun(r, es).got + RxRun(r, es).Unread() == RxRun(r, es).accepted
    ensures RxRun(r, es).accepted == r.accepted + Arrivals(r, es)
    decreases |es|
  {
    hide Contents;
    if es != [] {
      RxNextInv(r, es[0]);
      RxFifo(RxNext(r, es[0]), es[1..]);
    }
  }

  /** Carriage return or line feed. */
  predicate IsEnd(c: byte) {
    c == 10 || c == 13
  }

  /** How many bytes `vk_uart_readline` takes from a stream `s` into a buffer with room for `room` of them. */
  function LineLength(s: seq<byte>, room: nat): (n: nat)
    ensures n <= |s| && n <= room
  {
    if s == [] || room == 0 || IsEnd(s[0]) then 0 else 1 + LineLength(s[1..], room - 1)
  }

  /** It is the length up to the first line end, the end of the room, or the end of the stream. */
  lemma {:induction false} LineLengthIs(s: seq<byte>, room: nat, n: nat)
    requires n <= |s| && n <= room && forall i :: 0 <= i < n ==> !IsEnd(s[i])
    requires n == room || n == |s| || IsEnd(s[n])
    ensures n == LineLength(s, room)
    decreases n
  {
    if n > 0 {
      LineLengthIs(s[1..], room - 1, n - 1);
    }
  }

  /**
   A consumer that took the bytes `line` after `g0`, none a line end, and then
   the byte `term` if there is one, has read a whole line of the accepted stream:
   it stopped at the end of the room, at a line end, or where the stream stops.
   */
  lemma LineRead(g0: seq<byte>, line: seq<byte>, term: seq<byte>, accepted: seq<byte>, room: nat)
    requires g0 + line + term <= accepted && |line| <= room
    requires forall i :: 0 <= i < |line| ==> !IsEnd(line[i])
    requires if term != [] then |term| == 1 && IsEnd(term[0]) && |line| < room
             else |line| == room || accepted == g0 + line
    ensures |line| == LineLength(accepted[|g0|..], room)
    ensures term != [] ==> |line| < |accepted| - |g0| && accepted[|g0| + |line|] == term[0]
    ensures accepted[..|g0| + |line| + |term|] == g0 + line + term
  {
    var s := accepted[|g0|..];
    forall i | 0 <= i < |line|
      ensures s[i] == line[i]
    {
      assert (g0 + line + term)[|g0| + i] == line[i];
    }
    if term != [] {
      assert (g0 + line + term)[|g0| + |line|] == term[0];
    }
    LineLengthIs(s, room, |line|);
  }
}
