/** hal/vulcan_uart.c on its ring arrays: single accesses and the handler, then the functions built on them. */
module Uart {
  import opened Basics
  import opened Ring
  import opened UartSpec
  import opened Words
  import opened Format

  class Uart {
    const txBuf: array<byte>
    var txHead: nat
    var txTail: nat
    var txBusy: bool
    var txeie: bool           // bit TXEIE of CR1
    const rxBuf: array<byte>
    var rxHead: nat
    var rxTail: nat

    ghost var txPc: TxPc      // where the producer is
    ghost var put: seq<byte>
    ghost var sent: seq<byte>
    ghost var rxPc: RxPc      // where the consumer is
    ghost var got: seq<byte>
    ghost var accepted: seq<byte>

    ghost function TxView(): Tx
      reads this, txBuf
    {
      Tx(txBuf[..], txHead, txTail, txBusy, txeie, txPc, put, sent)
    }

    ghost function RxView(): Rx
      reads this, rxBuf
    {
      Rx(rxBuf[..], rxHead, rxTail, rxPc, got, accepted)
    }

    ghost predicate Valid()
      reads this, txBuf, rxBuf
    {
      txBuf != rxBuf && TxView().Inv() && RxView().Inv()
    }

    /** The ring part of `vk_uart_init`. */
    constructor ()
      ensures Valid() && fresh(txBuf) && fresh(rxBuf)
      ensures txPc.Outside? && rxPc.Away? && put == sent == got == accepted == []
    {
      txBuf, rxBuf := new byte[256](_ => 0), new byte[256](_ => 0);
      txHead, txTail, rxHead, rxTail := 0, 0, 0, 0;
      txBusy, txeie := false, false;
      txPc, rxPc := Outside, Away;
      put, sent, got, accepted := [], [], [], [];
    }

    // ---- vk_uart_isr

    /** The TX branch of `vk_uart_isr`; `tdr` is the byte written to TDR, if any. */
    method IsrTx() returns (tdr: Option<byte>)
      requires Valid()
      modifies this`txTail, this`txBusy, this`txeie, this`sent
      ensures Valid() && TxView() == TxIsr(old(TxView()))
      ensures sent == old(sent) + (if tdr.Some? then [tdr.value] else [])
    {
      hide Contents;
      TxIsrInv(TxView());
      if txTail != txHead {
        tdr := Some(txBuf[txTail]);
        sent := sent + [txBuf[txTail]];
        txTail := (txTail + 1) % 256;
      } else {
        tdr := None;
        txeie := false;
        txBusy := false;
      }
    }

    /** The RX branch of `vk_uart_isr`, with `b` in RDR. */
    method IsrRx(b: byte)
      requires Valid()
      modifies this`rxHead, this`accepted, rxBuf
      ensures Valid() && RxView() == RxIsr(old(RxView()), b)
    {
      hide Contents;
      RxIsrInv(RxView(), b);
      ghost var r := RxView();
      var next := (rxHead + 1) % 256;
      if next != rxTail {
        rxBuf[rxHead] := b;
        rxHead := next;
        accepted := accepted + [b];
        assert rxBuf[..] == RxIsr(r, b).buf;
      }
    }

    /** `vk_uart_isr`, with RXNE and `b` in RDR, or TXE, or both, or neither. */
    method Isr(rxne: bool, b: byte, txe: bool) returns (tdr: Option<byte>)
      requires Valid()
      modifies this`txTail, this`txBusy, this`txeie, this`sent, this`rxHead, this`accepted, rxBuf
      ensures Valid()
      ensures RxView() == if rxne then RxIsr(old(RxView()), b) else old(RxView())
      ensures TxView() == if txe then TxIsr(old(TxView())) else old(TxView())
      ensures sent == old(sent) + (if tdr.Some? then [tdr.value] else [])
    {
      hide Contents;
      tdr := None;
      if rxne {
        IsrRx(b);
      }
      if txe {
        tdr := IsrTx();
      }
    }

    /** Any number of interrupts with any flags and any bytes. */
    method Interrupts()
      requires Valid()
      modifies this`txTail, this`txBusy, this`txeie, this`sent, this`rxHead, this`accepted, rxBuf
      ensures Valid() && old(sent) <= sent && old(accepted) <= accepted
    {
      hide Contents;
      var n: nat := *;
      while n > 0
        invariant Valid() && old(sent) <= sent && old(accepted) <= accepted
      {
        var rxne: bool, b: byte, txe: bool := *, *, *;
        var tdr := Isr(rxne, b, txe);
        n := n - 1;
      }
    }

    // ---- vk_uart_putc, access by access

    /** One look for room: (head + 1) % 256 against the tail. */
    method PutPoll() returns (room: bool, next: nat)
      requires Valid() && txPc.Poll?
      modifies this`txPc
      ensures Valid() && TxView() == TxStep(old(TxView()))
      ensures room == txPc.Store? && next == Succ(txHead)
    {
      next := (txHead + 1) % 256;
      room := next != txTail;
      if room {
        txPc := Store(txPc.c, next);
      }
    }

    method PutStore(c: byte, next: nat)
      requires Valid() && txPc == Store(c, next)
      modifies this`txPc, txBuf
      ensures Valid() && TxView() == TxStep(old(TxView()))
    {
      TxStepInv(TxView());
      ghost var t := TxView();
      txBuf[txHead] := c;
      txPc := Publish(c, next);
      assert txBuf[..] == TxStep(t).buf;
    }

    method PutPublish(next: nat)
      requires Valid() && txPc.Publish? && txPc.next == next
      modifies this`txPc, this`txHead, this`put
      ensures Valid() && TxView() == TxStep(old(TxView()))
    {
      TxStepInv(TxView());
      put := put + [txPc.c];
      txHead := next;
      txPc := Kick;
    }

    /** The critical section that starts the transmitter. */
    method PutKick()
      requires Valid() && txPc.Kick?
      modifies this`txPc, this`txBusy, this`txeie
      ensures Valid() && TxView() == TxStep(old(TxView()))
    {
      if !txBusy {
        txBusy := true;
        txeie := true;
      }
      txPc := Outside;
    }

    /** `vk_uart_putc`, with any interrupts before each of its accesses. */
    method Putc(c: byte)
      requires Valid() && txPc.Outside?
      modifies this`txPc, this`txHead, this`put, txBuf
      modifies this`txTail, this`txBusy, this`txeie, this`sent, this`rxHead, this`accepted, rxBuf
      ensures Valid() && txPc.Outside? && put == old(put) + [c] && txBusy
    {
      hide Contents;
      var next := AwaitRoom(c);
      Interrupts();
      PutStore(c, next);
      Interrupts();
      PutPublish(next);
      Interrupts();
      PutKick();
    }

    /**
     Its loop.  It may look in vain any number of times, `patience`, before the
     TXE interrupt comes that is due as long as the ring is full.
     */
    method AwaitRoom(c: byte) returns (next: nat)
      requires Valid() && txPc.Outside?
      modifies this`txPc
      modifies this`txTail, this`txBusy, this`txeie, this`sent, this`rxHead, this`accepted, rxBuf
      ensures Valid() && txPc == Store(c, next) && put == old(put)
    {
      hide Contents;
      txPc := Poll(c);
      Interrupts();
      var room;
      room, next := PutPoll();
      var patience: nat := *;
      while !room
        invariant Valid() && put == old(put)
        invariant if room then txPc == Store(c, next) else txPc == Poll(c)
        decreases !room, patience
      {
        Interrupts();
        if patience > 0 {
          patience := patience - 1;
        } else {
          FullMeansInterrupt(TxView());
          var tdr := IsrTx();
        }
        room, next := PutPoll();
      }
    }

    // ---- vk_uart_puts and vk_uart_printf

    /** `vk_uart_puts` of the bytes before the terminator. */
    method Puts(s: seq<byte>)
      requires Valid() && txPc.Outside? && 0 !in s
      modifies this`txPc, this`txHead, this`put, txBuf
      modifies this`txTail, this`txBusy, this`txeie, this`sent, this`rxHead, this`accepted, rxBuf
      ensures Valid() && txPc.Outside? && put == old(put) + s
    {
      hide Valid;
      var i := 0;
      while i < |s|
        invariant 0 <= i <= |s| && Valid() && txPc.Outside? && put == old(put) + s[..i]
      {
        Putc(s[i]);
        i := i + 1;
      }
    }

    /** The digit loops: collect the digits from the right in `tmp`, then put them in reverse. */
    method PutNumber(u: nat, b: nat, upper: bool)
      requires Valid() && txPc.Outside? && (b == 10 || b == 16) && u < 0x1_0000_0000
      modifies this`txPc, this`txHead, this`put, txBuf
      modifies this`txTail, this`txBusy, this`txeie, this`sent, this`rxHead, this`accepted, rxBuf
      ensures Valid() && txPc.Outside? && put == old(put) + Print(u, b, upper)
    {
      hide Valid;
      if u == 0 {
        Putc(48);
        return;
      }
      var tmp, n := Collect(u, b, upper);
      PutReversed(tmp, n, Print(u, b, upper));
    }

    /** The second of them. */
    method PutReversed(tmp: array<byte>, n: nat, ghost whole: seq<byte>)
      requires Valid() && txPc.Outside? && tmp != txBuf && tmp != rxBuf && n == |whole| <= tmp.Length
      requires forall j :: 0 <= j < n ==> tmp[j] == whole[n - 1 - j]
      modifies this`txPc, this`txHead, this`put, txBuf
      modifies this`txTail, this`txBusy, this`txeie, this`sent, this`rxHead, this`accepted, rxBuf
      ensures Valid() && txPc.Outside? && put == old(put) + whole
    {
      hide Valid;
      var i := n;
      while i > 0
        invariant 0 <= i <= n && Valid() && txPc.Outside?
        invariant forall j :: 0 <= j < n ==> tmp[j] == whole[n - 1 - j]
        invariant put == old(put) + whole[..n - i]
      {
        i := i - 1;
        assert whole[..n - i] == whole[..n - 1 - i] + [tmp[i]];
        Putc(tmp[i]);
      }
      assert whole[..n] == whole;
    }

    /** The first of them: `tmp` holds the digits, the last one first, and never overflows. */
    method Collect(u: nat, b: nat, upper: bool) returns (tmp: array<byte>, n: nat)
      requires (b == 10 || b == 16) && 0 < u < 0x1_0000_0000
      ensures fresh(tmp) && n == |Print(u, b, upper)| <= tmp.Length == 32
      ensures forall i :: 0 <= i < n ==> tmp[i] == Print(u, b, upper)[n - 1 - i]
    {
      assert |Print(u, b, upper)| <= 32 by {
        Print32(u, upper);
      }
      hide Print;
      tmp := new byte[32](_ => 0);
      n := 0;
      ghost var whole := Print(u, b, upper);
      var v: nat := u;
      while v > 0
        invariant n <= |whole| && whole[..|whole| - n] == if v == 0 then [] else Print(v, b, upper)
        invariant forall i :: 0 <= i < n ==> tmp[i] == whole[|whole| - 1 - i]
        decreases v
      {
        NextDigit(whole, n, v, b, upper);
        tmp[n] := Digit(v % b, upper);
        n := n + 1;
        v := v / b;
      }
    }

    /** `vk_uart_printf`. */
    method Printf(fmt: seq<byte>, args: seq<Arg>)
      requires Valid() && txPc.Outside? && WellFormed(fmt, args)
      modifies this`txPc, this`txHead, this`put, txBuf
      modifies this`txTail, this`txBusy, this`txeie, this`sent, this`rxHead, this`accepted, rxBuf
      ensures Valid() && txPc.Outside? && put == old(put) + Render(fmt, args)
    {
      hide Valid;
      var i, k := 0, 0;
      while i < |fmt|
        invariant 0 <= i <= |fmt| && 0 <= k <= |args| && Valid() && txPc.Outside?
        invariant WellFormed(fmt[i..], args[k..])
        invariant put + Render(fmt[i..], args[k..]) == old(put) + Render(fmt, args)
        decreases |fmt| - i
      {
        ghost var before := put;
        ghost var out;
        i, k, out := PutNext(fmt, i, args, k);
        Regroup(before, out, Render(fmt[i..], args[k..]));
      }
    }

    static lemma Regroup(a: seq<byte>, b: seq<byte>, c: seq<byte>)
      ensures (a + b) + c == a + (b + c)
    {
    }

    /** One round of the format loop: a plain byte, or a percent sign and what follows it. */
    method PutNext(fmt: seq<byte>, i: nat, args: seq<Arg>, k: nat) returns (i': nat, k': nat, ghost out: seq<byte>)
      requires Valid() && txPc.Outside? && i < |fmt| && k <= |args| && WellFormed(fmt[i..], args[k..])
      modifies this`txPc, this`txHead, this`put, txBuf
      modifies this`txTail, this`txBusy, this`txeie, this`sent, this`rxHead, this`accepted, rxBuf
      ensures Valid() && txPc.Outside? && put == old(put) + out
      ensures i < i' <= |fmt| && k' <= |args| && WellFormed(fmt[i'..], args[k'..])
      ensures Render(fmt[i..], args[k..]) == out + Render(fmt[i'..], args[k'..])
    {
      hide Valid;
      RenderNext(fmt, i, args, k);
      if fmt[i] != PERCENT {
        Putc(fmt[i]);
        return i + 1, k, [fmt[i]];
      }
      if Takes(fmt[i + 1]) {
        PutDirective(fmt[i + 1], args[k]);
        return i + 2, k + 1, Output(fmt[i + 1], args[k]);
      }
      Putc(PERCENT);
      if fmt[i + 1] != PERCENT {
        Putc(fmt[i + 1]);
        return i + 2, k, [PERCENT, fmt[i + 1]];
      }
      return i + 2, k, [PERCENT];
    }

    /** One directive and its argument. */
    method PutDirective(d: byte, a: Arg)
      requires Valid() && txPc.Outside? && Suits(d, a)
      modifies this`txPc, this`txHead, this`put, txBuf
      modifies this`txTail, this`txBusy, this`txeie, this`sent, this`rxHead, this`accepted, rxBuf
      ensures Valid() && txPc.Outside? && put == old(put) + Output(d, a)
    {
      hide Valid;
      match a
      case Str(None) => Puts(NULL_TEXT);
      case Str(Some(t)) => Puts(t);
      case Int(i) =>
        var v := i;
        if v < 0 {
          Putc(45);
          v := -v;
        }
        PutNumber(v, 10, false);
      case UInt(u) => PutNumber(u, if d == 117 then 10 else 16, d == 88);
      case Char(c) => Putc(c);
    }

    // ---- vk_uart_getc and vk_uart_readline

    /** `rx_head == rx_tail`. */
    method GetCheck() returns (more: bool)
      requires Valid() && rxPc.Check?
      modifies this`rxPc
      ensures Valid() && RxView() == RxStep(old(RxView()))
      ensures if more then rxPc.Load? else rxPc.Away? && got == accepted
    {
      RxStepInv(RxView());
      more := rxHead != rxTail;
      rxPc := if more then Load else Away;
      assert got + [] == got;
    }

    /** The read of the slot. */
    method GetLoad() returns (c: byte)
      requires Valid() && rxPc.Load?
      modifies this`rxPc
      ensures Valid() && RxView() == RxStep(old(RxView())) && rxPc == Advance(c)
    {
      RxStepInv(RxView());
      c := rxBuf[rxTail];
      rxPc := Advance(c);
    }

    /** The store to `rx_tail`. */
    method GetAdvance()
      requires Valid() && rxPc.Advance?
      modifies this`rxPc, this`rxTail, this`got
      ensures Valid() && RxView() == RxStep(old(RxView()))
    {
      RxStepInv(RxView());
      got := got + [rxPc.c];
      rxTail := (rxTail + 1) % 256;
      rxPc := Away;
    }

    /** `vk_uart_getc`, with any interrupts before each of its accesses: -1 iff its check finds nothing unread. */
    method Getc() returns (c: int)
      requires Valid() && rxPc.Away?
      modifies this`rxPc, this`rxTail, this`got
      modifies this`txTail, this`txBusy, this`txeie, this`sent, this`rxHead, this`accepted, rxBuf
      ensures Valid() && rxPc.Away? && old(accepted) <= accepted
      ensures if c == -1 then got == old(got) == accepted else 0 <= c < 256 && got == old(got) + [c]
      ensures got <= accepted
    {
      hide Contents;
      rxPc := Check;
      Interrupts();
      var more := GetCheck();
      if !more {
        return -1;
      }
      Interrupts();
      c := GetLoad();
      Interrupts();
      GetAdvance();
    }

    /** Wait for a byte, for any number of yields; `ok` is false if none has come by then. */
    method WaitByte() returns (ok: bool, c: int)
      requires Valid() && rxPc.Away?
      modifies this`rxPc, this`rxTail, this`got
      modifies this`txTail, this`txBusy, this`txeie, this`sent, this`rxHead, this`accepted, rxBuf
      ensures Valid() && rxPc.Away? && old(accepted) <= accepted
      ensures if ok then 0 <= c < 256 && got == old(got) + [c] else got == old(got) == accepted
    {
      hide Valid;
      c := Getc();
      var patience: nat := *;
      while c < 0 && patience > 0
        invariant Valid() && rxPc.Away? && old(accepted) <= accepted
        invariant if c >= 0 then c < 256 && got == old(got) + [c] else got == old(got) == accepted
        decreases patience
      {
        c := Getc();
        patience := patience - 1;
      }
      ok := c >= 0;
    }

    /**
     `vk_uart_readline` under any interleaving with the handler; `done` is false
     if it is left while it still waits.
     */
    method ReadLine(buf: array<byte>, len: nat) returns (n: nat, done: bool)
      requires Valid() && rxPc.Away? && 1 <= len <= buf.Length && buf != rxBuf && buf != txBuf
      modifies this`rxPc, this`rxTail, this`got
      modifies this`txTail, this`txBusy, this`txeie, this`sent, this`rxHead, this`accepted, rxBuf
      modifies buf
      ensures Valid() && rxPc.Away? && old(accepted) <= accepted
      ensures |old(got)| <= |accepted| && n == LineLength(accepted[|old(got)|..], len - 1)
      ensures done && n < len - 1 ==> |old(got)| + n < |accepted| && IsEnd(accepted[|old(got)| + n])
      ensures got == old(got) + buf[..n] + (if done && n < len - 1 then [accepted[|old(got)| + n]] else [])
      ensures got <= accepted && n < len && (done ==> buf[n] == 0)
      ensures forall i :: 0 <= i < n ==> buf[i] != 10 && buf[i] != 13
      ensures done && n < len - 1 ==> got[|got| - 1] == 10 || got[|got| - 1] == 13
      ensures !done ==> got == accepted && n < len - 1
    {
      ghost var term;
      n, done, term := TakeLine(buf, len);
      LineRead(old(got), buf[..n], term, accepted, len - 1);
      if done {
        ghost var line := buf[..n];
        buf[n] := 0;
        assert buf[..n] == line;
      }
    }

    /** Its loop; `term` is the line end it stopped on, if any. */
    method TakeLine(buf: array<byte>, len: nat) returns (n: nat, done: bool, ghost term: seq<byte>)
      requires Valid() && rxPc.Away? && 1 <= len <= buf.Length && buf != rxBuf && buf != txBuf
      modifies this`rxPc, this`rxTail, this`got
      modifies this`txTail, this`txBusy, this`txeie, this`sent, this`rxHead, this`accepted, rxBuf
      modifies buf
      ensures Valid() && rxPc.Away? && old(accepted) <= accepted && n < len
      ensures got == old(got) + buf[..n] + term && got <= accepted
      ensures forall i :: 0 <= i < n ==> !IsEnd(buf[i])
      ensures if term == [] then (if done then n == len - 1 else n < len - 1 && got == accepted)
              else done && |term| == 1 && IsEnd(term[0]) && n < len - 1
    {
      n, done, term := 0, true, [];
      while n < len - 1
        invariant Valid() && rxPc.Away? && old(accepted) <= accepted && n <= len - 1
        invariant got == old(got) + buf[..n]
        invariant forall i :: 0 <= i < n ==> !IsEnd(buf[i])
        decreases len - n
      {
        var ok, c := WaitByte();
        if !ok {
          return n, false, [];
        }
        if IsEnd(c) {
          return n, true, [c];
        }
        buf[n] := c;
        n := n + 1;
      }
    }
  }
}
