/** What `vk_uart_printf` prints, as values, and how to read it back. */
module Format {
  import opened Basics
  import opened Words

  // ---- Numbers

  function Pow(b: nat, k: nat): (p: nat) {
    if k == 0 then 1 else b * Pow(b, k - 1)
  }

  /** The digit of value `d`; `upper` chooses the letters. */
  function Digit(d: nat, upper: bool): (c: byte)
    requires d < 16
  {
    if d < 10 then 48 + d else if upper then 55 + d else 87 + d
  }

  /** `u` in base `b`, most significant digit first. */
  function Print(u: nat, b: nat, upper: bool): (s: seq<byte>)
    requires 2 <= b <= 16
    ensures |s| > 0
    decreases u
  {
    if u < b then [Digit(u, upper)] else Print(u / b, b, upper) + [Digit(u % b, upper)]
  }

  /** The value of a digit of either case; 16 for other bytes. */
  function DigitValue(c: byte): (d: nat) {
    if 48 <= c <= 57 then c - 48
    else if 65 <= c <= 70 then c - 55
    else if 97 <= c <= 102 then c - 87
    else 16
  }

  function Parse(s: seq<byte>, b: nat): (u: nat) {
    if s == [] then 0 else b * Parse(s[..|s| - 1], b) + DigitValue(s[|s| - 1])
  }

  lemma DivMod(u: nat, b: nat)
    requires b > 1
    ensures u == b * (u / b) + u % b && u % b < b
    ensures u >= b ==> u / b > 0
    ensures u < b ==> u % b == u
  {
  }

  lemma DigitRoundTrip(d: nat, upper: bool)
    requires d < 16
    ensures DigitValue(Digit(d, upper)) == d && (Digit(d, upper) == 48 <==> d == 0)
  {
  }

  lemma ParseAppend(s: seq<byte>, c: byte, b: nat)
    ensures Parse(s + [c], b) == b * Parse(s, b) + DigitValue(c)
  {
    assert (s + [c])[..|s|] == s;
  }

  lemma ParsePrinted(u: nat, b: nat, upper: bool)
    requires 2 <= b <= 16
    ensures Parse(Print(u, b, upper), b) == if u < b then u else b * Parse(Print(u / b, b, upper), b) + u % b
  {
    DigitRoundTrip(u % b, upper);
    if u < b {
      DigitRoundTrip(u, upper);
      ParseAppend([], Digit(u, upper), b);
      assert [] + [Digit(u, upper)] == [Digit(u, upper)];
    } else {
      ParseAppend(Print(u / b, b, upper), Digit(u % b, upper), b);
    }
  }

  /** Printing and parsing in the same base gives the number back. */
  lemma {:induction false} PrintRoundTrip(u: nat, b: nat, upper: bool)
    requires 2 <= b <= 16
    ensures Parse(Print(u, b, upper), b) == u
    decreases u
  {
    ParsePrinted(u, b, upper);
    if u >= b {
      var q := u / b;
      Quotient(u, b);
      PrintRoundTrip(q, b, upper);
      assert Parse(Print(u, b, upper), b) == b * q + u % b;
    }
  }

  lemma Quotient(u: nat, b: nat)
    requires 2 <= b <= u
    ensures u == b * (u / b) + u % b && 0 < u / b < u
  {
    DivMod(u, b);
    MulGrows(2, b, u / b);
  }

  /** The step of the digit loops: the last digit is the remainder, the rest is the quotient. */
  lemma LastDigit(u: nat, b: nat, upper: bool)
    requires 2 <= b <= 16 && u > 0
    ensures u % b < b && u / b < u
    ensures var s := Print(u, b, upper);
      && s[|s| - 1] == Digit(u % b, upper)
      && s[..|s| - 1] == if u / b == 0 then [] else Print(u / b, b, upper)
  {
    DivMod(u, b);
    if u >= b {
      Quotient(u, b);
    } else {
      assert u / b == 0;
    }
  }

  /** The same for the part of a printed number that is left after `n` rounds. */
  lemma NextDigit(whole: seq<byte>, n: nat, v: nat, b: nat, upper: bool)
    requires 2 <= b <= 16 && v > 0 && n <= |whole| && whole[..|whole| - n] == Print(v, b, upper)
    ensures n < |whole| && v % b < b && v / b < v && whole[|whole| - 1 - n] == Digit(v % b, upper)
    ensures whole[..|whole| - (n + 1)] == if v / b == 0 then [] else Print(v / b, b, upper)
  {
    var part := whole[..|whole| - n];
    LastDigit(v, b, upper);
    assert whole[|whole| - 1 - n] == part[|part| - 1];
    assert whole[..|whole| - (n + 1)] == part[..|part| - 1];
  }

  /** All printed bytes are digits of the base. */
  lemma {:induction false} PrintDigits(u: nat, b: nat, upper: bool)
    requires 2 <= b <= 16
    ensures forall c :: c in Print(u, b, upper) ==> DigitValue(c) < b
    decreases u
  {
    if u < b {
      DigitRoundTrip(u, upper);
    } else {
      var q, r := u / b, u % b;
      Quotient(u, b);
      DigitRoundTrip(r, upper);
      PrintDigits(q, b, upper);
      assert Print(u, b, upper) == Print(q, b, upper) + [Digit(r, upper)];
    }
  }

  /** Only 0 starts with a zero. */
  lemma {:induction false} NoLeadingZero(u: nat, b: nat, upper: bool)
    requires 2 <= b <= 16
    ensures Print(u, b, upper)[0] == 48 <==> u == 0
    decreases u
  {
    if u >= b {
      var q := u / b;
      Quotient(u, b);
      NoLeadingZero(q, b, upper);
      assert Print(u, b, upper)[0] == Print(q, b, upper)[0];
    }
  }

  /** A number below b^k has at most k digits. */
  lemma {:induction false} PrintLength(u: nat, b: nat, k: nat, upper: bool)
    requires 2 <= b <= 16 && k >= 1 && u < Pow(b, k)
    ensures |Print(u, b, upper)| <= k
    decreases k
  {
    if u >= b {
      if k > 1 {
        DivBelow(u, b, Pow(b, k - 1));
        PrintLength(u / b, b, k - 1, upper);
      }
    }
  }

  lemma DivBelow(u: nat, b: nat, p: nat)
    requires b > 1 && u < b * p
    ensures u / b < p
  {
    DivMod(u, b);
    if p <= u / b {
      MulGrows(p, u / b, b);
    }
  }

  /** A uint32 has at most 10 decimal and 8 hexadecimal digits. */
  lemma Print32(u: nat, upper: bool)
    requires u < 0x1_0000_0000
    ensures |Print(u, 10, upper)| <= 10 && |Print(u, 16, upper)| <= 8
  {
    assert Pow(10, 5) == 100000;
    assert Pow(10, 10) == 10000000000;
    assert Pow(16, 8) == 0x1_0000_0000;
    PrintLength(u, 10, 10, upper);
    PrintLength(u, 16, 8, upper);
  }

  /** %d of an int. */
  function PrintInt(i: int): (s: seq<byte>) {
    if i < 0 then [45] + Print(-i, 10, false) else Print(i, 10, false)
  }

  function ParseInt(s: seq<byte>): (i: int) {
    if s != [] && s[0] == 45 then 0 - (Parse(s[1..], 10) as int) else Parse(s, 10)
  }

  lemma PrintIntRoundTrip(i: int)
    ensures ParseInt(PrintInt(i)) == i
  {
    PrintRoundTrip(if i < 0 then -i else i, 10, false);
    PrintDigits(if i < 0 then -i else i, 10, false);
    assert PrintInt(i) == if i < 0 then [45] + Print(-i, 10, false) else Print(i, 10, false);
    assert i < 0 ==> PrintInt(i)[1..] == Print(-i, 10, false);
    assert i >= 0 ==> DigitValue(PrintInt(i)[0]) < 10;
  }

  // ---- Formats

  /** A variadic argument, by what the directive expects; a string pointer may be NULL. */
  datatype Arg = Str(s: Option<seq<byte>>) | Int(i: int) | UInt(u: nat) | Char(c: byte)

  const NULL_TEXT: seq<byte> := [40, 110, 117, 108, 108, 41]

  const PERCENT: byte := 37

  /** The directives that take an argument: s, d, i, u, x, X, c. */
  predicate Takes(d: byte) {
    d in {115, 100, 105, 117, 120, 88, 99}
  }

  /** `a` is an argument that directive `d` can print. */
  predicate Suits(d: byte, a: Arg) {
    match d
    case 115 => a.Str? && (a.s.Some? ==> 0 !in a.s.value)
    case 100 => a.Int? && -0x8000_0000 < a.i < 0x8000_0000
    case 105 => a.Int? && -0x8000_0000 < a.i < 0x8000_0000
    case 117 => a.UInt? && a.u < 0x1_0000_0000
    case 120 => a.UInt? && a.u < 0x1_0000_0000
    case 88 => a.UInt? && a.u < 0x1_0000_0000
    case 99 => a.Char?
    case _ => false
  }

  /** What directive `d` prints for `a`. */
  function Output(d: byte, a: Arg): (s: seq<byte>)
    requires Suits(d, a)
  {
    match a
    case Str(None) => NULL_TEXT
    case Str(Some(t)) => t
    case Int(i) => PrintInt(i)
    case UInt(u) => if d == 117 then Print(u, 10, false) else Print(u, 16, d == 88)
    case Char(c) => [c]
  }

  /**
   The bytes of a format before its terminator, none of them 0: no lone percent
   at the end, and an argument for every directive that takes one.
   */
  predicate WellFormed(fmt: seq<byte>, args: seq<Arg>): (w: bool)
    ensures w ==> 0 !in fmt
    decreases |fmt|
  {
    if fmt == [] then true
    else if fmt[0] == 0 then false
    else if fmt[0] != PERCENT then WellFormed(fmt[1..], args)
    else if |fmt| == 1 || fmt[1] == 0 then false
    else if Takes(fmt[1]) then args != [] && Suits(fmt[1], args[0]) && WellFormed(fmt[2..], args[1..])
    else WellFormed(fmt[2..], args)
  }

  /** The bytes that `vk_uart_printf` puts. */
  function Render(fmt: seq<byte>, args: seq<Arg>): (s: seq<byte>)
    requires WellFormed(fmt, args)
    decreases |fmt|
  {
    if fmt == [] then []
    else if fmt[0] != PERCENT then [fmt[0]] + Render(fmt[1..], args)
    else if Takes(fmt[1]) then Output(fmt[1], args[0]) + Render(fmt[2..], args[1..])
    else if fmt[1] == PERCENT then [PERCENT] + Render(fmt[2..], args)
    else [PERCENT, fmt[1]] + Render(fmt[2..], args)
  }

  /** What stands at position `i` of a format, the next argument being number `k`. */
  lemma RenderNext(fmt: seq<byte>, i: nat, args: seq<Arg>, k: nat)
    requires i < |fmt| && k <= |args| && WellFormed(fmt[i..], args[k..])
    ensures fmt[i] != PERCENT ==>
      && WellFormed(fmt[i + 1..], args[k..])
      && Render(fmt[i..], args[k..]) == [fmt[i]] + Render(fmt[i + 1..], args[k..])
    ensures fmt[i] == PERCENT ==> i + 1 < |fmt|
    ensures fmt[i] == PERCENT && Takes(fmt[i + 1]) ==>
      && k < |args| && Suits(fmt[i + 1], args[k]) && WellFormed(fmt[i + 2..], args[k + 1..])
      && Render(fmt[i..], args[k..]) == Output(fmt[i + 1], args[k]) + Render(fmt[i + 2..], args[k + 1..])
    ensures fmt[i] == PERCENT && !Takes(fmt[i + 1]) ==>
      && WellFormed(fmt[i + 2..], args[k..])
      && Render(fmt[i..], args[k..]) ==
         (if fmt[i + 1] == PERCENT then [PERCENT] else [PERCENT, fmt[i + 1]]) + Render(fmt[i + 2..], args[k..])
  {
    assert fmt[i..][1..] == fmt[i + 1..];
    if fmt[i] == PERCENT {
      assert fmt[i..][2..] == fmt[i + 2..];
      if Takes(fmt[i + 1]) {
        assert args[k..][1..] == args[k + 1..];
      }
    }
  }

  // ---- The directives one by one

  /** The bytes of a text. */
  function Bytes(t: string): (s: seq<byte>)
    requires forall i :: 0 <= i < |t| ==> t[i] < 256 as char
    ensures |s| == |t| && forall i :: 0 <= i < |s| ==> s[i] == t[i] as int
  {
    seq(|t|, i requires 0 <= i < |t| => t[i] as int)
  }

  /** The digits are those of the two tables of the source. */
  lemma DigitTable(d: nat)
    requires d < 16
    ensures Digit(d, false) == "0123456789abcdef"[d] as int && Digit(d, true) == "0123456789ABCDEF"[d] as int
  {
  }

  /** A decimal digit, or for base 16 a letter from a to f of the given case. */
  predicate InTable(c: byte, b: nat, upper: bool) {
    48 <= c <= 57 || (b == 16 && if upper then 65 <= c <= 70 else 97 <= c <= 102)
  }

  /** `s` is a number in base `b` with lower-case or upper-case letters, without leading zeros, and has value `u`. */
  ghost predicate Numeral(s: seq<byte>, b: nat, upper: bool, u: nat) {
    && s != [] && Parse(s, b) == u && (s[0] == 48 ==> u == 0) && (u == 0 ==> s == [48])
    && forall i :: 0 <= i < |s| ==> InTable(s[i], b, upper)
  }

  lemma PrintNumeral(u: nat, b: nat, upper: bool)
    requires b == 10 || b == 16
    ensures Numeral(Print(u, b, upper), b, upper, u)
  {
    PrintRoundTrip(u, b, upper);
    NoLeadingZero(u, b, upper);
    PrintRange(u, b, upper);
    assert u == 0 ==> Print(u, b, upper) == [48];
  }

  lemma {:induction false} PrintRange(u: nat, b: nat, upper: bool)
    requires b == 10 || b == 16
    ensures forall i :: 0 <= i < |Print(u, b, upper)| ==> InTable(Print(u, b, upper)[i], b, upper)
    decreases u
  {
    if u >= b {
      var q, r := u / b, u % b;
      Quotient(u, b);
      assert InTable(Digit(r, upper), b, upper);
      PrintRange(q, b, upper);
      assert Print(u, b, upper) == Print(q, b, upper) + [Digit(r, upper)];
    }
  }

  /** A format of one directive. */
  lemma OneDirective(d: byte, a: Arg)
    requires Takes(d) && Suits(d, a)
    ensures WellFormed([PERCENT, d], [a]) && Render([PERCENT, d], [a]) == Output(d, a)
  {
    assert [PERCENT, d][2..] == [] && [a][1..] == [];
    assert Output(d, a) + [] == Output(d, a);
  }

  /** `%u` prints a decimal numeral of its argument, of at most 10 digits. */
  lemma PrintsDecimal(u: nat)
    requires u < 0x1_0000_0000
    ensures WellFormed(Bytes("%u"), [UInt(u)])
    ensures var s := Render(Bytes("%u"), [UInt(u)]); Numeral(s, 10, false, u) && |s| <= 10
  {
    assert Bytes("%u") == [PERCENT, 117];
    OneDirective(117, UInt(u));
    PrintNumeral(u, 10, false);
    Print32(u, false);
  }

  /** `%x` and `%X` print a hexadecimal numeral, with letters of their case, of at most 8 digits. */
  lemma PrintsHex(u: nat, upper: bool)
    requires u < 0x1_0000_0000
    ensures var f := Bytes(if upper then "%X" else "%x");
      WellFormed(f, [UInt(u)]) && Numeral(Render(f, [UInt(u)]), 16, upper, u) && |Render(f, [UInt(u)])| <= 8
  {
    assert Bytes("%x") == [PERCENT, 120] && Bytes("%X") == [PERCENT, 88];
    OneDirective(if upper then 88 else 120, UInt(u));
    PrintNumeral(u, 16, upper);
    Print32(u, upper);
  }

  /** `%d` and `%i` print a minus sign iff the argument is negative, and a decimal numeral of its magnitude. */
  lemma PrintsSigned(i: int, d: byte)
    requires -0x8000_0000 < i < 0x8000_0000 && (d == 'd' as int || d == 'i' as int)
    ensures WellFormed([PERCENT, d], [Int(i)])
    ensures var s := Render([PERCENT, d], [Int(i)]);
      && ParseInt(s) == i
      && if i < 0 then s[0] == '-' as int && Numeral(s[1..], 10, false, -i) else Numeral(s, 10, false, i)
  {
    OneDirective(d, Int(i));
    PrintIntRoundTrip(i);
    PrintNumeral(if i < 0 then -i else i, 10, false);
  }

  /** `%c` prints its byte, `%s` its text or "(null)", `%%` a percent sign. */
  lemma PrintsText(c: byte, t: seq<byte>)
    requires 0 !in t
    ensures WellFormed(Bytes("%c"), [Char(c)]) && Render(Bytes("%c"), [Char(c)]) == [c]
    ensures WellFormed(Bytes("%s"), [Str(Some(t))]) && Render(Bytes("%s"), [Str(Some(t))]) == t
    ensures WellFormed(Bytes("%s"), [Str(None)]) && Render(Bytes("%s"), [Str(None)]) == Bytes("(null)")
    ensures WellFormed(Bytes("%%"), []) && Render(Bytes("%%"), []) == Bytes("%")
  {
    assert Bytes("%c") == [PERCENT, 99] && Bytes("%s") == [PERCENT, 115] && Bytes("%%") == [PERCENT, PERCENT];
    assert Bytes("(null)") == NULL_TEXT && Bytes("%") == [PERCENT];
    OneDirective(99, Char(c));
    OneDirective(115, Str(Some(t)));
    OneDirective(115, Str(None));
    assert [PERCENT, PERCENT][2..] == [];
    assert Render([PERCENT, PERCENT], []) == [PERCENT] + [];
  }

  /** Any other directive is printed as it stands and takes no argument. */
  lemma PrintsUnknown(d: byte)
    requires d != 0 && d !in Bytes("sdiuxXc%")
    ensures WellFormed([PERCENT, d], []) && Render([PERCENT, d], []) == [PERCENT, d]
  {
    var k := Bytes("sdiuxXc%");
    assert k[0] == 115 && k[1] == 100 && k[2] == 105 && k[3] == 117 && k[4] == 120 && k[5] == 88 && k[6] == 99 && k[7] == 37;
    assert [PERCENT, d][2..] == [];
    assert Render([PERCENT, d], []) == [PERCENT, d] + [];
  }

  /** A text without percent signs is printed as it stands. */
  lemma {:induction false} PrintsPlain(t: seq<byte>, args: seq<Arg>)
    requires 0 !in t && PERCENT !in t
    ensures WellFormed(t, args) && Render(t, args) == t
    decreases |t|
  {
    if t != [] {
      PrintsPlain(t[1..], args);
    }
  }

  /** A format in parts: plain bytes, directives with their arguments, and percent signs before anything else. */
  datatype Part = Plain(c: byte) | Value(d: byte, a: Arg) | Escaped | Unknown(d: byte)

  predicate GoodPart(p: Part) {
    match p
    case Plain(c) => c != PERCENT && c != 0
    case Value(d, a) => Takes(d) && Suits(d, a)
    case Escaped => true
    case Unknown(d) => !Takes(d) && d != PERCENT && d != 0
  }

  function FormatOf(ps: seq<Part>): (f: seq<byte>) {
    if ps == [] then []
    else (match ps[0]
          case Plain(c) => [c]
          case Value(d, _) => [PERCENT, d]
          case Escaped => [PERCENT, PERCENT]
          case Unknown(d) => [PERCENT, d]) + FormatOf(ps[1..])
  }

  function ArgsOf(ps: seq<Part>): (a: seq<Arg>) {
    if ps == [] then []
    else (if ps[0].Value? then [ps[0].a] else []) + ArgsOf(ps[1..])
  }

  function PartOutput(p: Part): (s: seq<byte>)
    requires GoodPart(p)
  {
    match p
    case Plain(c) => [c]
    case Value(d, a) => Output(d, a)
    case Escaped => [PERCENT]
    case Unknown(d) => [PERCENT, d]
  }

  function PartsOutput(ps: seq<Part>): (s: seq<byte>)
    requires forall i :: 0 <= i < |ps| ==> GoodPart(ps[i])
  {
    if ps == [] then [] else PartOutput(ps[0]) + PartsOutput(ps[1..])
  }

  /** A format made of parts prints the concatenation of what its parts print, each directive with its own argument. */
  lemma {:induction false} RenderParts(ps: seq<Part>)
    requires forall i :: 0 <= i < |ps| ==> GoodPart(ps[i])
    ensures WellFormed(FormatOf(ps), ArgsOf(ps))
    ensures Render(FormatOf(ps), ArgsOf(ps)) == PartsOutput(ps)
    decreases |ps|
  {
    if ps != [] {
      var f, a := FormatOf(ps), ArgsOf(ps);
      var g, b := FormatOf(ps[1..]), ArgsOf(ps[1..]);
      RenderParts(ps[1..]);
      assert f == (if ps[0].Plain? then [ps[0].c] else [PERCENT, f[1]]) + g;
      assert ps[0].Plain? ==> f[1..] == g;
      assert !ps[0].Plain? ==> f[2..] == g;
      assert a == (if ps[0].Value? then [ps[0].a] else []) + b;
      assert ps[0].Value? ==> a[1..] == b;
      assert !ps[0].Value? ==> a == b;
    }
  }

  /** Field widths are not supported: "%02X" comes out as it stands and takes no argument. */
  lemma WidthIsLiteral(args: seq<Arg>)
    ensures WellFormed([37, 48, 50, 88], args) && Render([37, 48, 50, 88], args) == [37, 48, 50, 88]
  {
    assert [37, 48, 50, 88][2..] == [50, 88] && [50, 88][1..] == [88] && [88][1..] == [];
  }
}
