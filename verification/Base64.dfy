/** The streaming Base64 encoder of BaseStrategy, and the standard it has to meet.

    The encoder keeps its pending bits in a 32-bit C++ `int`, which overflows after a few
    bytes.  It is modelled here with explicit two's complement wrap-around and proved
    equal to the three-byte grouping of section 4 of RFC 4648. */
module Base64 {
  import opened Bytes

  // The encoder's table `b`, in its four runs.
  const UPPER := "ABCDEFGHIJKLMNOPQRSTUVWXYZ"
  const LOWER := "abcdefghijklmnopqrstuvwxyz"
  const DIGITS := "0123456789"
  const ALPHABET := UPPER + LOWER + DIGITS + "+/"

  /** A six-bit value, or the code of the padding character. */
  type code = s: int | 0 <= s <= 64

  const PAD: code := 64

  // ---------- the standard ----------

  // The four values of a three-byte group x, y, z (section 4 of RFC 4648).
  function First(x: byte): (s: code)
    ensures s < PAD
  {
    x / 4
  }

  function Second(x: byte, y: byte): (s: code)
    ensures s < PAD
  {
    x % 4 * 16 + y / 16
  }

  function Third(y: byte, z: byte): (s: code)
    ensures s < PAD
  {
    y % 16 * 4 + z / 64
  }

  /** `z & 0x3F`, the fourth value of a group among others. */
  function Low6(z: int): (s: code)
    ensures s < PAD
  {
    z % 64
  }

  function Group(x: byte, y: byte, z: byte): (g: seq<code>)
    ensures |g| == 4
  {
    [First(x), Second(x, y), Third(y, z), Low6(z)]
  }

  /** Three bytes make four values; the last group is completed with zero bits and padded. */
  function Codes(b: Data): seq<code> {
    if |b| == 0 then []
    else if |b| == 1 then [First(b[0]), Second(b[0], 0), PAD, PAD]
    else if |b| == 2 then [First(b[0]), Second(b[0], b[1]), Third(b[1], 0), PAD]
    else Group(b[0], b[1], b[2]) + Codes(b[3..])
  }

  /** Table 1 of RFC 4648. */
  function Symbol(s: code): char {
    if s < 26 then 'A' + s as char
    else if s < 52 then 'a' + (s - 26) as char
    else if s < 62 then '0' + (s - 52) as char
    else if s == 62 then '+'
    else if s == 63 then '/'
    else '='
  }

  function Render(cs: seq<code>): string {
    seq(|cs|, i requires 0 <= i < |cs| => Symbol(cs[i]))
  }

  function Rfc4648(b: Data): string { Render(Codes(b)) }

  /** Test vectors: "f", "fo" and "foobar" of section 10 of RFC 4648, and two bytes that need the
      last two symbols of the alphabet. */
  lemma KnownTexts()
    ensures Rfc4648([0x66]) == "Zg==" && Rfc4648([0x66, 0x6f]) == "Zm8="
    ensures Rfc4648([0x66, 0x6f, 0x6f, 0x62, 0x61, 0x72]) == "Zm9vYmFy"
    ensures Rfc4648([0xfb, 0xff]) == "+/8="
  {
    var long: Data := [0x66, 0x6f, 0x6f, 0x62, 0x61, 0x72];
    assert long[3..] == [0x62, 0x61, 0x72];
    assert long[3..][3..] == [];
    assert Codes(long) == [25, 38, 61, 47, 24, 38, 5, 50];
  }

  datatype Decoded = Ok(data: Data) | Malformed

  /** The code of a symbol, or -1 for a character outside the alphabet. */
  function Value(c: char): (s: int)
    ensures -1 <= s <= PAD
  {
    if 'A' <= c <= 'Z' then (c - 'A') as int
    else if 'a' <= c <= 'z' then (c - 'a') as int + 26
    else if '0' <= c <= '9' then (c - '0') as int + 52
    else if c == '+' then 62
    else if c == '/' then 63
    else if c == '=' then PAD
    else -1
  }

  function Values(s: string): (vs: seq<int>)
    ensures |vs| == |s|
    ensures forall i :: 0 <= i < |s| ==> vs[i] == Value(s[i])
  {
    seq(|s|, i requires 0 <= i < |s| => Value(s[i]))
  }

  // The three bytes of four values p, q, r, t.
  function Left(p: code, q: code): byte
    requires p < PAD && q < PAD
  {
    p * 4 + q / 16
  }

  function Middle(q: code, r: code): byte
    requires q < PAD && r < PAD
  {
    q % 16 * 16 + r / 4
  }

  function Right(r: code, t: code): byte
    requires r < PAD && t < PAD
  {
    r % 4 * 64 + t
  }

  /** A strict decoder: misplaced padding and non-zero pad bits are malformed. */
  function Unpack(v: seq<code>): Decoded {
    if |v| == 0 then Ok([])
    else if |v| < 4 || v[0] == PAD || v[1] == PAD then Malformed
    else if v[2] == PAD then
      if |v| == 4 && v[3] == PAD && v[1] % 16 == 0 then Ok([Left(v[0], v[1])]) else Malformed
    else if v[3] == PAD then
      if |v| == 4 && v[2] % 4 == 0 then Ok([Left(v[0], v[1]), Middle(v[1], v[2])]) else Malformed
    else
      match Unpack(v[4..])
      case Malformed => Malformed
      case Ok(rest) => Ok([Left(v[0], v[1]), Middle(v[1], v[2]), Right(v[2], v[3])] + rest)
  }

  function Decode(s: string): Decoded {
    var vs := Values(s);
    if forall i :: 0 <= i < |vs| ==> vs[i] >= 0 then Unpack(vs) else Malformed
  }

  lemma ValuesOfRender(cs: seq<code>)
    ensures Values(Render(cs)) == cs
  {
    forall i | 0 <= i < |cs|
      ensures Values(Render(cs))[i] == cs[i]
    {
      assert Value(Symbol(cs[i])) == cs[i];
    }
  }

  lemma RenderOfValues(s: string)
    requires forall i :: 0 <= i < |s| ==> Values(s)[i] >= 0
    ensures Render(Values(s)) == s
  {
    forall i | 0 <= i < |s|
      ensures Symbol(Values(s)[i]) == s[i]
    {
      assert Values(s)[i] == Value(s[i]);
    }
  }

  lemma LeftBack(x: byte, y: byte)
    ensures Left(First(x), Second(x, y)) == x
  {
    assert Second(x, y) / 16 == x % 4;
  }

  lemma MiddleBack(x: byte, y: byte, z: byte)
    ensures Middle(Second(x, y), Third(y, z)) == y
    ensures Second(x, 0) % 16 == Third(y, 0) % 4 == 0
  {
    assert Second(x, y) % 16 == y / 16;
    assert Third(y, z) / 4 == y % 16;
  }

  lemma RightBack(y: byte, z: byte)
    ensures Right(Third(y, z), Low6(z)) == z
  {
    assert Third(y, z) % 4 == z / 64;
  }

  lemma GroupBack(x: byte, y: byte, z: byte)
    ensures Left(First(x), Second(x, y)) == x
    ensures Middle(Second(x, y), Third(y, z)) == y
    ensures Right(Third(y, z), Low6(z)) == z
    ensures Second(x, 0) % 16 == Third(y, 0) % 4 == 0
  {
    hide First, Second, Third, Low6, Left, Middle, Right;
    LeftBack(x, y);
    MiddleBack(x, y, z);
    RightBack(y, z);
  }

  lemma QuantumBack(p: code, q: code, r: code, t: code)
    requires p < PAD && q < PAD && r < PAD && t < PAD
    ensures First(Left(p, q)) == p
    ensures Second(Left(p, q), Middle(q, r)) == q
    ensures Third(Middle(q, r), Right(r, t)) == r
    ensures Low6(Right(r, t)) == t
    ensures q % 16 == 0 ==> Second(Left(p, q), 0) == q
    ensures r % 4 == 0 ==> Third(Middle(q, r), 0) == r
  {
  }

  lemma UnpackNone()
    ensures Unpack([]) == Ok([])
  {
  }

  lemma UnpackOne(x: byte)
    ensures Unpack([First(x), Second(x, 0), PAD, PAD]) == Ok([x])
  {
    hide First, Second, Third, Low6, Left, Middle, Right;
    GroupBack(x, 0, 0);
  }

  lemma UnpackTwo(x: byte, y: byte)
    ensures Unpack([First(x), Second(x, y), Third(y, 0), PAD]) == Ok([x, y])
  {
    hide First, Second, Third, Low6, Left, Middle, Right;
    GroupBack(x, y, 0);
  }

  lemma UnpackCons(q: seq<code>, rest: seq<code>)
    requires |q| == 4 && PAD !in q && Unpack(rest).Ok?
    ensures Unpack(q + rest) == Ok([Left(q[0], q[1]), Middle(q[1], q[2]), Right(q[2], q[3])] + Unpack(rest).data)
  {
    hide Left, Middle, Right;
    assert (q + rest)[4..] == rest;
  }

  lemma {:induction false} UnpackInvertsCodes(b: Data)
    ensures Unpack(Codes(b)) == Ok(b)
  {
    UnpackNone();
    hide First, Second, Third, Low6, Left, Middle, Right, Unpack;
    if |b| == 0 {
    } else if |b| == 1 {
      UnpackOne(b[0]);
    } else if |b| == 2 {
      UnpackTwo(b[0], b[1]);
    } else {
      GroupBack(b[0], b[1], b[2]);
      UnpackInvertsCodes(b[3..]);
      UnpackCons(Group(b[0], b[1], b[2]), Codes(b[3..]));
      assert b == [b[0], b[1], b[2]] + b[3..];
    }
  }

  lemma {:induction false} CodesInvertsUnpack(v: seq<code>)
    requires Unpack(v).Ok?
    ensures Codes(Unpack(v).data) == v
  {
    hide First, Second, Third, Low6, Left, Middle, Right;
    if |v| == 0 {
    } else if v[2] == PAD {
      QuantumBack(v[0], v[1], 0, 0);
    } else if v[3] == PAD {
      QuantumBack(v[0], v[1], v[2], 0);
    } else {
      QuantumBack(v[0], v[1], v[2], v[3]);
      CodesInvertsUnpack(v[4..]);
      var head := [Left(v[0], v[1]), Middle(v[1], v[2]), Right(v[2], v[3])];
      CodesCons(head, Unpack(v[4..]).data);
      assert v == [v[0], v[1], v[2], v[3]] + v[4..];
    }
  }

  lemma CodesCons(g: Data, rest: Data)
    requires |g| == 3
    ensures Codes(g + rest) == Group(g[0], g[1], g[2]) + Codes(rest)
  {
    assert (g + rest)[3..] == rest;
  }

  /** The decoder inverts the encoding of every byte string. */
  lemma DecodeInvertsEncode(b: Data)
    ensures Decode(Rfc4648(b)) == Ok(b)
  {
    ValuesOfRender(Codes(b));
    UnpackInvertsCodes(b);
  }

  /** Every text the decoder accepts is the encoding of what it returns, so the two are
      mutually inverse bijections between byte strings and well-formed texts. */
  lemma EncodeInvertsDecode(s: string)
    requires Decode(s).Ok?
    ensures Rfc4648(Decode(s).data) == s
  {
    CodesInvertsUnpack(Values(s));
    RenderOfValues(s);
  }

  function Padding(n: nat): seq<code> {
    if n == 1 then [PAD, PAD] else if n == 2 then [PAD] else []
  }

  lemma {:induction false} CodesLength(b: Data)
    ensures |Codes(b)| == (|b| + 2) / 3 * 4
  {
    hide First, Second, Third, Low6;
    if |b| >= 3 {
      CodesLength(b[3..]);
    }
  }

  lemma {:induction false} CodesShape(b: Data) returns (body: seq<code>)
    ensures Codes(b) == body + Padding(|b| % 3) && PAD !in body
  {
    hide First, Second, Third, Low6;
    if |b| == 0 {
      body := [];
    } else if |b| == 1 {
      body := [First(b[0]), Second(b[0], 0)];
    } else if |b| == 2 {
      body := [First(b[0]), Second(b[0], b[1]), Third(b[1], 0)];
    } else {
      var g := Group(b[0], b[1], b[2]);
      var rest := CodesShape(b[3..]);
      body := g + rest;
      assert Codes(b) == g + (rest + Padding(|b[3..]| % 3));
    }
  }

  /** Length 4 * ceil(n / 3); the padding fills the right end and occurs nowhere else. */
  lemma LengthAndPadding(b: Data)
    ensures |Rfc4648(b)| == (|b| + 2) / 3 * 4
    ensures forall i :: 0 <= i < |Rfc4648(b)| ==> (Rfc4648(b)[i] == '=' <==> i >= |Rfc4648(b)| - |Padding(|b| % 3)|)
  {
    CodesLength(b);
    var body := CodesShape(b);
    hide Codes;
    forall i | 0 <= i < |Rfc4648(b)|
      ensures Rfc4648(b)[i] == '=' <==> Codes(b)[i] == PAD
      ensures Codes(b)[i] == PAD <==> i >= |body|
    {
      assert Value(Symbol(Codes(b)[i])) == Codes(b)[i];
      if i < |body| {
        assert body[i] in body;
      }
    }
  }

  lemma {:induction false} CodesConcat(a: Data, b: Data)
    requires |a| % 3 == 0
    ensures Codes(a + b) == Codes(a) + Codes(b)
  {
    if |a| == 0 {
      assert a + b == b;
    } else {
      hide Codes, Group;
      var g, rest := a[..3], a[3..];
      assert a == g + rest && a + b == g + (rest + b);
      CodesConcat(rest, b);
      CodesCons(g, rest);
      CodesCons(g, rest + b);
    }
  }

  // ---------- the C++ encoder ----------

  const TWO_31 := 0x8000_0000
  const TWO_32 := 0x1_0000_0000

  type int32 = x: int | -TWO_31 <= x < TWO_31

  function Wrap(x: int): int32 {
    (x + TWO_31) % TWO_32 - TWO_31
  }

  function ShiftLeft8(x: int32): int32 { Wrap(x * 256) }

  function PowerOfTwo(k: nat): (p: int)
    ensures p > 0
  {
    if k == 0 then 1 else 2 * PowerOfTwo(k - 1)
  }

  /** `x >> k` on a two's complement `int` rounds towards minus infinity. */
  function ShiftRight(x: int32, k: nat): int
    requires k < 8
  {
    x / PowerOfTwo(k)
  }

  lemma UpperRun(s: nat)
    requires s < 26
    ensures UPPER[s] == Symbol(s)
  {
  }

  lemma LowerRun(s: nat)
    requires s < 26
    ensures LOWER[s] == Symbol(s + 26)
  {
  }

  lemma DigitRun(s: nat)
    requires s < 10
    ensures DIGITS[s] == Symbol(s + 52)
  {
  }

  lemma TableIsAlphabet(s: code)
    requires s < PAD
    ensures |ALPHABET| == 64 && ALPHABET[s] == Symbol(s)
  {
    if s < 26 {
      UpperRun(s);
    } else if s < 52 {
      LowerRun(s - 26);
    } else if s < 62 {
      DigitRun(s - 52);
    }
  }

  /** The values the inner loop emits, from bit position `valb` downwards. */
  function Drained(val: int32, valb: int): seq<code>
    requires valb < 8
    decreases valb + 6
  {
    if valb < 0 then [] else [Low6(ShiftRight(val, valb))] + Drained(val, valb - 6)
  }

  /** The whole values available from one or two bytes of an unfinished group. */
  function Lead(b: Data): seq<code>
    requires |b| < 3
  {
    if |b| == 0 then []
    else if |b| == 1 then [First(b[0])]
    else [First(b[0]), Second(b[0], b[1])]
  }

  /** Only the low sixteen bits of the accumulator are tied to the input; the rest is
      whatever overflow left there. */
  ghost predicate Pending(val: int32, b: Data)
    requires |b| < 3
  {
    && (|b| == 1 ==> val % 256 == b[0])
    && (|b| == 2 ==> val % 256 == b[1] && val / 256 % 256 == b[0])
  }

  /** `(val << 8) + c` */
  function Push(val: int32, c: byte): int32 { Wrap(ShiftLeft8(val) + c) }

  lemma PushKeepsLowBits(val: int32, c: byte)
    ensures Push(val, c) == ShiftLeft8(val) + c
    ensures Push(val, c) % 256 == c
    ensures Push(val, c) / 256 % 256 == val % 256
  {
    var k := val - (val * 256 + TWO_31) / TWO_32 * 0x100_0000;
    assert ShiftLeft8(val) == k * 256;
    WrapInRange(k * 256 + c);
    assert k % 256 == val % 256;
  }

  lemma WrapInRange(x: int32)
    ensures Wrap(x) == x
  {
  }

  /** Overflow really happens: after FF FF FF FF the accumulator is -1, not 2^32 - 1. */
  lemma AccumulatorOverflows()
    ensures Push(0xFF_FFFF, 255) == -1
  {
    assert ShiftLeft8(0xFF_FFFF) == -256;
  }

  lemma By64(a: int, q: int, r: int)
    requires a == 64 * q + r && 0 <= r < 64
    ensures a / 64 == q && a % 64 == r
  {
  }

  /** `(val >> 2) & 0x3F` */
  lemma SextetAt2(val: int32, c: byte)
    requires val % 256 == c
    ensures Low6(ShiftRight(val, 2)) == First(c)
  {
    assert PowerOfTwo(2) == 4;
    By64(val / 4, val / 256, c / 4);
  }

  /** `(val >> 4) & 0x3F` */
  lemma SextetAt4(val: int32, y: byte, c: byte)
    requires val % 256 == c && val / 256 % 256 == y
    ensures Low6(ShiftRight(val, 4)) == Second(y, c)
  {
    assert PowerOfTwo(4) == 4 * PowerOfTwo(2) == 16;
    var h := val / 65536;
    assert val == h * 65536 + y * 256 + c;
    By64(val / 16, h * 64 + y / 4, y % 4 * 16 + c / 16);
  }

  /** `(val >> 6) & 0x3F` and `val & 0x3F` */
  lemma SextetsAt6(val: int32, y: byte, c: byte)
    requires val % 256 == c && val / 256 % 256 == y
    ensures Low6(ShiftRight(val, 6)) == Third(y, c)
    ensures Low6(ShiftRight(val, 0)) == Low6(c)
  {
    assert PowerOfTwo(6) == 16 * PowerOfTwo(2) == 64;
    var h := val / 65536;
    assert val == h * 65536 + y * 256 + c;
    By64(val, h * 1024 + y * 4 + c / 64, c % 64);
    By64(val / 64, h * 16 + y / 16, y % 16 * 4 + c / 64);
  }

  lemma DrainedFrom(val: int32)
    ensures Drained(val, 2) == [Low6(ShiftRight(val, 2))]
    ensures Drained(val, 4) == [Low6(ShiftRight(val, 4))]
    ensures Drained(val, 6) == [Low6(ShiftRight(val, 6)), Low6(ShiftRight(val, 0))]
  {
    hide Low6, ShiftRight;
    assert Drained(val, -6) == Drained(val, -4) == Drained(val, -2) == [];
    assert Drained(val, 6) == [Low6(ShiftRight(val, 6))] + Drained(val, 0);
  }

  /** One byte entering the accumulator completes exactly the values the standard assigns
      to the group so far, whatever the overflowed high bits hold. */
  lemma ByteEmits(val: int32, pending: Data, c: byte)
    requires |pending| < 3 && Pending(val, pending)
    ensures |pending| < 2 ==> Pending(Push(val, c), pending + [c])
    ensures |pending| == 0 ==> Lead(pending) + Drained(Push(val, c), 2) == Lead(pending + [c])
    ensures |pending| == 1 ==> Lead(pending) + Drained(Push(val, c), 4) == Lead(pending + [c])
    ensures |pending| == 2 ==> Lead(pending) + Drained(Push(val, c), 6) == Group(pending[0], pending[1], c)
  {
    PushKeepsLowBits(val, c);
    hide Push, Drained, ShiftRight, Low6, First, Second, Third;
    var next := Push(val, c);
    DrainedFrom(next);
    if |pending| == 0 {
      SextetAt2(next, c);
      assert Lead(pending) + [First(c)] == [First(c)];
    } else if |pending| == 1 {
      SextetAt4(next, pending[0], c);
      assert Lead(pending) + [Second(pending[0], c)] == [First(pending[0]), Second(pending[0], c)];
    } else {
      SextetsAt6(next, pending[1], c);
    }
  }

  /** `((val << 8) >> (valb + 8)) & 0x3F` for a last byte `y`. */
  lemma LastSextet(val: int32, y: byte)
    requires val % 256 == y
    ensures Low6(ShiftRight(ShiftLeft8(val), 4)) == Second(y, 0)
    ensures Low6(ShiftRight(ShiftLeft8(val), 6)) == Third(y, 0)
  {
    PushKeepsLowBits(val, 0);
    hide ShiftLeft8, ShiftRight, Push, Low6, First, Second, Third;
    SextetAt4(ShiftLeft8(val), y, 0);
    SextetsAt6(ShiftLeft8(val), y, 0);
  }

  /** The flush and the padding complete a one-byte group ... */
  lemma FlushOne(val: int32, pending: Data)
    requires |pending| == 1 && Pending(val, pending)
    ensures Codes(pending) == Lead(pending) + ([Low6(ShiftRight(ShiftLeft8(val), 4))] + Padding(1))
  {
    hide ShiftLeft8, ShiftRight, Low6, First, Second, Third;
    LastSextet(val, pending[0]);
  }

  /** ... and a two-byte group. */
  lemma FlushTwo(val: int32, pending: Data)
    requires |pending| == 2 && Pending(val, pending)
    ensures Codes(pending) == Lead(pending) + ([Low6(ShiftRight(ShiftLeft8(val), 6))] + Padding(2))
  {
    hide ShiftLeft8, ShiftRight, Low6, First, Second, Third;
    LastSextet(val, pending[1]);
  }

  /** The part of the standard encoding that is complete after the bytes of `b`. */
  function Emitted(b: Data): seq<code> {
    var whole := |b| - |b| % 3;
    Codes(b[..whole]) + Lead(b[whole..])
  }

  function Tail(b: Data): (t: Data)
    ensures |t| == |b| % 3
  {
    b[|b| - |b| % 3..]
  }

  lemma EmittedNext(b: Data, c: byte)
    ensures var t := Tail(b);
            if |t| == 2 then
              Tail(b + [c]) == [] && Emitted(b + [c]) == Codes(b[..|b| - 2]) + Group(t[0], t[1], c)
            else
              Tail(b + [c]) == t + [c] && Emitted(b + [c]) == Codes(b[..|b| - |t|]) + Lead(t + [c])
  {
    hide First, Second, Third, Low6;
    var w, t := |b| - |b| % 3, Tail(b);
    if |t| == 2 {
      var g := t + [c];
      assert (b + [c])[..|b| + 1] == b[..w] + g;
      CodesConcat(b[..w], g);
      assert Codes(g[3..]) == [];
    } else {
      assert (b + [c])[..w] == b[..w];
      assert (b + [c])[w..] == t + [c];
    }
  }

  /** The inner loop of one outer iteration turns `Emitted` of a prefix into `Emitted` of the
      next one. */
  lemma OuterStep(b: Data, c: byte, val: int32, valb: int)
    requires Pending(val, Tail(b)) && valb == 2 + 2 * (|b| % 3)
    ensures Pending(Push(val, c), Tail(b + [c]))
    ensures Emitted(b) + Drained(Push(val, c), valb) == Emitted(b + [c])
  {
    ByteEmits(val, Tail(b), c);
    EmittedNext(b, c);
    hide Push, Drained, Codes, Group, Lead;
    var drained := Drained(Push(val, c), valb);
    assert Emitted(b) + drained == Codes(b[..|b| - |b| % 3]) + (Lead(Tail(b)) + drained);
  }

  lemma SplitTail(b: Data) returns (head: Data)
    ensures |Tail(b)| == |b| % 3
    ensures Codes(b) == Codes(head) + Codes(Tail(b))
    ensures Emitted(b) == Codes(head) + Lead(Tail(b))
  {
    hide First, Second, Third, Low6;
    head := b[..|b| - |b| % 3];
    assert |head| == 3 * (|b| / 3);
    assert b == head + Tail(b);
    CodesConcat(head, Tail(b));
  }

  lemma Reassociate(a: seq<code>, b: seq<code>, v: code, d: seq<code>, whole: seq<code>)
    requires whole == a + (b + ([v] + d))
    ensures whole == a + b + [v] + d
  {
  }

  lemma LastOfNone(b: Data)
    requires |b| % 3 == 0
    ensures Emitted(b) + Padding(0) == Codes(b)
  {
    var head := SplitTail(b);
    hide First, Second, Third, Low6, Emitted;
    assert Tail(b) == [];
    assert Lead([]) == Codes([]) == Padding(0) == [];
    hide *;
    assert Codes(b) == Codes(head) + [];
  }

  lemma LastOfOne(b: Data, val: int32)
    requires |b| % 3 == 1 && Pending(val, Tail(b))
    ensures Emitted(b) + [Low6(ShiftRight(ShiftLeft8(val), 4))] + Padding(1) == Codes(b)
  {
    hide ShiftLeft8, ShiftRight, Low6, Codes, Lead, Emitted, Tail, Padding, Pending;
    var head := SplitTail(b);
    var v := Low6(ShiftRight(ShiftLeft8(val), 4));
    FlushOne(val, Tail(b));
    Reassociate(Codes(head), Lead(Tail(b)), v, Padding(1), Codes(b));
  }

  lemma LastOfTwo(b: Data, val: int32)
    requires |b| % 3 == 2 && Pending(val, Tail(b))
    ensures Emitted(b) + [Low6(ShiftRight(ShiftLeft8(val), 6))] + Padding(2) == Codes(b)
  {
    hide ShiftLeft8, ShiftRight, Low6, Codes, Lead, Emitted, Tail, Padding, Pending;
    var head := SplitTail(b);
    var v := Low6(ShiftRight(ShiftLeft8(val), 6));
    FlushTwo(val, Tail(b));
    Reassociate(Codes(head), Lead(Tail(b)), v, Padding(2), Codes(b));
  }

  lemma RenderOne(cs: seq<code>, s: code)
    requires s < PAD
    ensures |ALPHABET| == 64
    ensures Render(cs) + [ALPHABET[s]] == Render(cs + [s])
  {
    TableIsAlphabet(s);
  }

  lemma DrainOne(val: int32, valb: int)
    requires 0 <= valb < 8
    ensures Drained(val, valb) == [Low6(ShiftRight(val, valb))] + Drained(val, valb - 6)
    ensures valb < 6 ==> Drained(val, valb - 6) == []
  {
  }

  /** `base64_encode`: two nested loops over `val` and `valb`, the flush and the padding. */
  method Encode(input: Data) returns (out: string)
    ensures out == Rfc4648(input)
  {
    hide Push, ShiftLeft8, ShiftRight, Low6, Codes, Lead, Render, Emitted, Tail, Drained, Pending, Padding, ALPHABET;
    out := "";
    var val: int32, valb := 0, -6;
    ghost var cs: seq<code> := [];
    EmittedNothing();
    assert input[..0] == [];
    for i := 0 to |input|
      invariant valb == -6 + 2 * (i % 3)
      invariant Pending(val, Tail(input[..i]))
      invariant cs == Emitted(input[..i]) && out == Render(cs)
    {
      assert input[..i + 1] == input[..i] + [input[i]];
      OuterStep(input[..i], input[i], val, valb + 8);
      val := Push(val, input[i]);
      valb := valb + 8;
      while valb >= 0
        invariant valb < 8 && (valb == 2 + 2 * (i % 3) || valb == 2 * (i % 3) - 4 || valb == 2 * (i % 3) - 10)
        invariant valb >= -6
        invariant cs + Drained(val, valb) == Emitted(input[..i + 1])
        invariant valb < 0 ==> Drained(val, valb) == []
        invariant out == Render(cs)
      {
        DrainOne(val, valb);
        var v := Low6(ShiftRight(val, valb));
        RenderOne(cs, v);
        ghost var rest := Drained(val, valb - 6);
        assert cs + ([v] + rest) == cs + [v] + rest;
        out := out + [ALPHABET[v]];
        cs := cs + [v];
        valb := valb - 6;
      }
    }
    assert input[..|input|] == input;
    if valb > -6 {
      if valb == -4 {
        LastOfOne(input, val);
      } else {
        LastOfTwo(input, val);
      }
      var v := Low6(ShiftRight(ShiftLeft8(val), valb + 8));
      RenderOne(cs, v);
      out := out + [ALPHABET[v]];
      cs := cs + [v];
    } else {
      LastOfNone(input);
    }
    out := Pad(out, cs, input);
  }

  lemma EmittedNothing()
    ensures Emitted([]) == [] && Tail([]) == [] && Render([]) == "" && Pending(0, [])
  {
  }

  /** The padding loop. */
  method Pad(text: string, ghost cs: seq<code>, ghost input: Data) returns (out: string)
    requires text == Render(cs) && cs + Padding(|input| % 3) == Codes(input)
    ensures out == Rfc4648(input)
  {
    hide Codes;
    out := text;
    ghost var rest := Padding(|input| % 3);
    CodesLength(input);
    while |out| % 4 != 0
      invariant Render(Codes(input)) == out + Render(rest)
      invariant rest == [] || rest == [PAD] || rest == [PAD, PAD]
      decreases |rest|
    {
      assert Render(rest) == ['='] + Render(rest[1..]);
      out := out + ['='];
      rest := rest[1..];
    }
  }
}
