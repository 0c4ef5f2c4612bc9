/** The 256-slot ring buffers of hal/vulcan_uart.c as values. */
module Ring {
  import opened Words

  /** The slot after `i`. */
  function Succ(i: nat): (r: nat)
    requires i < 256
    ensures r < 256 && r == (i + 1) % 256
  {
    if i == 255 then 0 else i + 1
  }

  /** The unread bytes, oldest first. */
  function Contents(buf: seq<byte>, head: nat, tail: nat): (s: seq<byte>)
    requires |buf| == 256 && head < 256 && tail < 256
    ensures |s| <= 255
    ensures |s| == 255 <==> Succ(head) == tail
    ensures s == [] <==> head == tail
  {
    if tail <= head then buf[tail..head] else buf[tail..] + buf[..head]
  }

  /** Writing the slot at the head and moving the head appends, as long as there is room. */
  lemma PushAppends(buf: seq<byte>, head: nat, tail: nat, c: byte)
    requires |buf| == 256 && head < 256 && tail < 256 && Succ(head) != tail
    ensures Contents(buf[head := c], Succ(head), tail) == Contents(buf, head, tail) + [c]
  {
  }

  /** Until the head moves, its slot is not part of the contents. */
  lemma HeadSlotFree(buf: seq<byte>, head: nat, tail: nat, c: byte)
    requires |buf| == 256 && head < 256 && tail < 256
    ensures Contents(buf[head := c], head, tail) == Contents(buf, head, tail)
  {
  }

  /** Moving the tail takes off the oldest byte, the one at the tail. */
  lemma PopRemoves(buf: seq<byte>, head: nat, tail: nat)
    requires |buf| == 256 && head < 256 && tail < 256 && head != tail
    ensures Contents(buf, head, tail) == [buf[tail]] + Contents(buf, head, Succ(tail))
  {
  }
}
