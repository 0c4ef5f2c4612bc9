/** The stack a new task starts on, and its watermark. */
module Stack {
  const CANARY := 0xDEADBEEF
  const XPSR := 0x01000000
  const EXC_RETURN := 0xFFFFFFFD
  const FRAME_WORDS := 17

  /** The words from the initial stack pointer upwards: R4-R11, EXC_RETURN, R0-R3, R12, LR, PC, xPSR. */
  function Frame(fn: int, arg: int, exit: int): (f: seq<int>)
    ensures |f| == FRAME_WORDS
  {
    [0, 0, 0, 0, 0, 0, 0, 0, EXC_RETURN, arg, 0, 0, 0, 0, exit, fn, XPSR]
  }

  /** Canaries below; from the stack pointer up R4-R11, EXC_RETURN, R0 with the argument, R1-R3, R12, LR, PC and xPSR. */
  ghost predicate Prepared(stack: array<int>, words: int, fn: int, arg: int, exit: int)
    requires FRAME_WORDS <= words <= stack.Length
    reads stack
  {
    var sp := words - FRAME_WORDS;
    && (forall i :: 0 <= i < sp ==> stack[i] == 0xDEADBEEF)
    && (forall i :: sp <= i < sp + 8 ==> stack[i] == 0)
    && stack[sp + 8] == 0xFFFFFFFD && stack[sp + 9] == arg
    && (forall i :: sp + 10 <= i < sp + 14 ==> stack[i] == 0)
    && stack[sp + 14] == exit && stack[sp + 15] == fn && stack[sp + 16] == 0x01000000
  }

  /** The stack part of `vk_task_create`. */
  method InitStack(stack: array<int>, words: int, fn: int, arg: int, exit: int) returns (sp: int)
    requires 32 <= words <= stack.Length
    modifies stack
    ensures sp == words - FRAME_WORDS
    ensures Prepared(stack, words, fn, arg, exit)
    ensures stack[words..] == old(stack[words..])
  {
    for i := 0 to words
      invariant forall j :: 0 <= j < i ==> stack[j] == CANARY
      invariant stack[words..] == old(stack[words..])
    {
      stack[i] := CANARY;
    }
    // the seventeen stores `*(--sp) = ...`, from xPSR down to R4
    var f := Frame(fn, arg, exit);
    sp := words;
    while sp > words - FRAME_WORDS
      invariant words - FRAME_WORDS <= sp <= words
      invariant forall j :: 0 <= j < words - FRAME_WORDS ==> stack[j] == CANARY
      invariant forall j :: sp <= j < words ==> stack[j] == f[j - (words - FRAME_WORDS)]
      invariant stack[words..] == old(stack[words..])
    {
      sp := sp - 1;
      stack[sp] := f[sp - (words - FRAME_WORDS)];
    }
  }

  /** `vk_stack_unused`: the words from the bottom that still hold the canary. */
  method Unused(stack: array<int>, ghost words: nat) returns (count: nat)
    requires words <= stack.Length
    requires exists i :: 0 <= i < words && stack[i] != CANARY
    ensures count < words && stack[count] != CANARY
    ensures forall i :: 0 <= i < count ==> stack[i] == CANARY
  {
    count := 0;
    ghost var top :| 0 <= top < words && stack[top] != CANARY;
    while stack[count] == CANARY
      invariant count <= top && forall i :: 0 <= i < count ==> stack[i] == CANARY
      decreases top - count
    {
      count := count + 1;
    }
  }

  /** A task that has not run yet has all but its initial frame unused, whatever its entry point and argument are. */
  lemma FreshUnused(stack: array<int>, words: int, fn: int, arg: int, exit: int, count: nat)
    requires 32 <= words <= stack.Length && Prepared(stack, words, fn, arg, exit)
    requires count < words && stack[count] != CANARY && forall i :: 0 <= i < count ==> stack[i] == CANARY
    ensures count == words - FRAME_WORDS
  {
    assert stack[words - FRAME_WORDS] == 0;
  }
}
