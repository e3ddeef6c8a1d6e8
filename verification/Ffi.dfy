/** Packing values into a C structure image and unpacking it again.

    A format is a string of type letters, one per field; a leading '.' drops
    the alignment padding.  What the platform fixes is an Abi.  Rounding is not
    modelled: a value's single and double views are bit patterns. */
module Ffi {
  import opened Basics

  const MAX_STRUCT_SIZE := 4096

  type Long = n: int | -0x8000_0000_0000_0000 <= n < 0x8000_0000_0000_0000

  type Single = n: nat | n < 0x1_0000_0000

  type Double = n: nat | n < 0x1_0000_0000_0000_0000

  datatype Abi = Abi(wideLong: bool, looseAlign: bool, signedChar: bool, bigEndian: bool)

  /** The conversions an object admits; None where the conversion fails. */
  datatype Val = Val(i: Option<Long>, single: Option<Single>, double: Option<Double>)

  /** What a field decodes to. */
  datatype Got = GotInt(n: Long) | GotSingle(s: Single) | GotDouble(d: Double)

  datatype Kind = Signed | Unsigned | Pointer | Float

  datatype Field = Field(size: nat, align: nat, kind: Kind)

  predicate Natural(f: Field) {
    && f.size in {1, 2, 4, 8}
    && (f.align == f.size || (f.size == 8 && f.align == 4))
    && (f.kind.Float? ==> f.size >= 4)
  }

  // -------------------------------------------------------------------- fields

  function TypeOf(abi: Abi, c: char): (f: Option<Field>)
    ensures f.Some? ==> Natural(f.value)
  {
    var eight := if abi.looseAlign then 4 else 8;
    var long := if abi.wideLong then 8 else 4;
    var longAlign := if abi.wideLong then eight else 4;
    match c
    case 'i' => Some(Field(4, 4, Signed))
    case 'I' => Some(Field(4, 4, Unsigned))
    case 'l' => Some(Field(long, longAlign, Signed))
    case 'L' => Some(Field(long, longAlign, Unsigned))
    case 'p' => Some(Field(long, longAlign, Pointer))
    case 'b' => Some(Field(1, 1, if abi.signedChar then Signed else Unsigned))
    case 'B' => Some(Field(1, 1, Unsigned))
    case 'h' => Some(Field(2, 2, Signed))
    case 'H' => Some(Field(2, 2, Unsigned))
    case 'q' => Some(Field(8, eight, Signed))
    case 'Q' => Some(Field(8, eight, Unsigned))
    case 'f' => Some(Field(4, 4, Float))
    case 'd' => Some(Field(8, eight, Float))
    case _ => None
  }

  predicate Packed(fmt: string) {
    fmt != "" && fmt[0] == '.'
  }

  function Letters(fmt: string): string {
    if Packed(fmt) then fmt[1..] else fmt
  }

  /** A format that names at least one field, and only known ones. */
  predicate WellFormed(abi: Abi, fmt: string) {
    Letters(fmt) != "" && forall k :: 0 <= k < |Letters(fmt)| ==> TypeOf(abi, Letters(fmt)[k]).Some?
  }

  function Fields(abi: Abi, s: string): (fs: seq<Field>)
    requires forall k :: 0 <= k < |s| ==> TypeOf(abi, s[k]).Some?
  {
    seq(|s|, k requires 0 <= k < |s| => TypeOf(abi, s[k]).value)
  }

  // --------------------------------------------------------------------- bytes

  function Span(size: nat): (n: nat)
    ensures n >= 1
  {
    if size == 0 then 1 else 256 * Span(size - 1)
  }

  /** Two's complement bytes, least significant first. */
  function ToBytes(u: nat, size: nat): (b: seq<Byte>)
    ensures |b| == size
  {
    if size == 0 then [] else [u % 256] + ToBytes(u / 256, size - 1)
  }

  function FromBytes(b: seq<Byte>): nat {
    if b == [] then 0 else b[0] + 256 * FromBytes(b[1..])
  }

  function Reverse(b: seq<Byte>): seq<Byte> {
    seq(|b|, i requires 0 <= i < |b| => b[|b| - 1 - i])
  }

  function InMemory(abi: Abi, b: seq<Byte>): seq<Byte> {
    if abi.bigEndian then Reverse(b) else b
  }

  predicate InSigned(size: nat, v: int) {
    0 <= 2 * v + Span(size) < 2 * Span(size)
  }

  predicate Fits(f: Field, v: int) {
    match f.kind
    case Signed => InSigned(f.size, v)
    case Unsigned => 0 <= v < Span(f.size)
    case _ => true
  }

  /** The unsigned word whose bytes a field holds for v, or None if v is refused. */
  function Word(f: Field, v: Val): Option<nat> {
    if f.kind.Float? then
      if f.size == 4 then
        if v.single.Some? then Some(v.single.value) else None
      else
        if v.double.Some? then Some(v.double.value) else None
    else if v.i.Some? && Fits(f, v.i.value) then Some(v.i.value % Span(f.size))
    else None
  }

  function Encode(abi: Abi, f: Field, v: Val): Option<seq<Byte>> {
    var w := Word(f, v);
    if w.Some? then Some(InMemory(abi, ToBytes(w.value, f.size))) else None
  }

  /** The word u of the given size, read with a sign if it has one; an unsigned
      64-bit word is then converted to the interpreter's signed integer. */
  function Value(f: Field, u: nat): int {
    if (!f.kind.Unsigned? || f.size == 8) && 2 * u >= Span(f.size) then u - Span(f.size) else u
  }

  function Decode(abi: Abi, f: Field, b: seq<Byte>): Got
    requires Natural(f) && |b| == f.size
  {
    var u := FromBytes(InMemory(abi, b));
    Bounded(InMemory(abi, b));
    Spans();
    if f.kind.Float? then if f.size == 4 then GotSingle(u) else GotDouble(u)
    else GotInt(Value(f, u))
  }

  lemma Spans()
    ensures Span(1) == 0x100 && Span(2) == 0x1_0000 && Span(4) == 0x1_0000_0000
    ensures Span(8) == 0x1_0000_0000_0000_0000
  {
    assert Span(3) == 0x100_0000;
    assert Span(5) == 0x100_0000_0000;
    assert Span(6) == 0x1_0000_0000_0000;
    assert Span(7) == 0x100_0000_0000_0000;
  }

  lemma {:induction false} Bounded(b: seq<Byte>)
    ensures FromBytes(b) < Span(|b|)
  {
    if b != [] {
      Bounded(b[1..]);
    }
  }

  lemma {:induction false} FromTo(u: nat, size: nat)
    requires u < Span(size)
    ensures FromBytes(ToBytes(u, size)) == u
  {
    if size > 0 {
      FromTo(u / 256, size - 1);
      assert ToBytes(u, size)[1..] == ToBytes(u / 256, size - 1);
    }
  }

  lemma LowByte(x: Byte, u: nat)
    ensures (x + 256 * u) % 256 == x && (x + 256 * u) / 256 == u
  {
  }

  lemma {:induction false} ToFrom(b: seq<Byte>)
    ensures ToBytes(FromBytes(b), |b|) == b
  {
    if b != [] {
      ToFrom(b[1..]);
      LowByte(b[0], FromBytes(b[1..]));
      assert b == [b[0]] + b[1..];
    }
  }

  lemma InMemoryTwice(abi: Abi, b: seq<Byte>)
    ensures InMemory(abi, InMemory(abi, b)) == b
    ensures |InMemory(abi, b)| == |b|
  {
  }

  /** The value a decoded field stands for, as the field that decoded it reads it. */
  predicate Carries(v: Val, g: Got) {
    match g
    case GotInt(n) => v.i == Some(n)
    case GotSingle(s) => v.single == Some(s)
    case GotDouble(d) => v.double == Some(d)
  }

  lemma WordBound(f: Field, v: Val)
    requires Natural(f) && Word(f, v).Some?
    ensures Word(f, v).value < Span(f.size)
  {
    Spans();
  }

  lemma ValueOfWord(f: Field, v: Long)
    requires Natural(f) && !f.kind.Float? && Fits(f, v)
    ensures Value(f, v % Span(f.size)) == v <==> (f.kind.Pointer? ==> InSigned(f.size, v))
  {
    Spans();
    hide Span;
    if f.size == 1 {
    } else if f.size == 2 {
    } else if f.size == 4 {
    } else {
      assert f.size == 8;
    }
  }

  lemma WordOfValue(f: Field, u: nat)
    requires Natural(f) && !f.kind.Float? && u < Span(f.size)
    ensures (f.kind.Unsigned? && f.size == 8 && u >= 0x8000_0000_0000_0000) <==> !Fits(f, Value(f, u))
    ensures Fits(f, Value(f, u)) ==> Value(f, u) % Span(f.size) == u
  {
    Spans();
    hide Span;
    if f.size == 1 {
    } else if f.size == 2 {
    } else if f.size == 4 {
    } else {
      assert f.size == 8;
    }
  }

  /** One field survives encoding and decoding, unless it is a pointer field
      narrower than the value: that one is cut to the pointer's width. */
  lemma FieldRoundTripIff(abi: Abi, f: Field, v: Val)
    requires Natural(f) && Encode(abi, f, v).Some?
    ensures |Encode(abi, f, v).value| == f.size
    ensures Carries(v, Decode(abi, f, Encode(abi, f, v).value))
       <==> (f.kind.Pointer? ==> InSigned(f.size, v.i.value))
  {
    var w := Word(f, v).value;
    WordBound(f, v);
    FromTo(w, f.size);
    InMemoryTwice(abi, ToBytes(w, f.size));
    if !f.kind.Float? {
      ValueOfWord(f, v.i.value);
    }
    hide Span, Fits, Value, InSigned, ToBytes, FromBytes, InMemory;
  }

  // ------------------------------------------------------- which byte goes where

  lemma {:induction false} SpanSplit(j: nat, size: nat)
    requires j < size
    ensures Span(size) == 256 * Span(size - 1 - j) * Span(j)
    decreases j
  {
    if j > 0 {
      SpanSplit(j - 1, size - 1);
      Associate(Span(size - 1 - j), Span(j - 1));
    }
  }

  lemma Associate(t: nat, p: nat)
    ensures 256 * (256 * t * p) == 256 * t * (256 * p)
  {
  }

  lemma DivTwice(u: nat, p: nat)
    requires p > 0
    ensures u / 256 / p == u / (256 * p)
  {
    var q, r := u / 256 / p, u / 256 % p;
    assert u == 256 * (q * p + r) + u % 256;
    var low := 256 * r + u % 256;
    assert low < 256 * p;
    assert u == q * (256 * p) + low;
    Quotient(u, 256 * p, q, low);
  }

  lemma Quotient(a: int, p: nat, q: int, r: nat)
    requires p > 0 && r < p && a == q * p + r
    ensures a / p == q
  {
    Multiples(q + 1, a / p, p);
    Multiples(a / p + 1, q, p);
  }

  lemma Multiples(a: int, b: int, p: nat)
    ensures a <= b ==> a * p <= b * p
  {
  }

  /** Byte j, from the low end, of a word. */
  lemma {:induction false} ToBytesIs(u: nat, size: nat, j: nat)
    requires j < size
    ensures ToBytes(u, size)[j] == u / Span(j) % 256
  {
    if j > 0 {
      ToBytesIs(u / 256, size - 1, j - 1);
      DivTwice(u, Span(j - 1));
    }
  }

  /** Two's complement: the bytes of v and of v modulo 256^size are the same. */
  lemma WrapByte(v: int, size: nat, j: nat)
    requires j < size
    ensures (v % Span(size)) / Span(j) % 256 == v / Span(j) % 256
  {
    var p, t := Span(j), Span(size - 1 - j);
    SpanSplit(j, size);
    var w := v % Span(size);
    DivMod(v, Span(size));
    DivMod(w, p);
    hide Span;
    WholeByte(v, v / (256 * t * p), t, p, w / p, w % p);
  }

  lemma DivMod(a: int, p: nat)
    requires p > 0
    ensures a == a / p * p + a % p && 0 <= a % p < p
  {
  }

  lemma WholeByte(v: int, q: int, t: nat, p: nat, k: int, r: int)
    requires p > 0 && 0 <= r < p && v == q * (256 * t * p) + (k * p + r)
    ensures v / p % 256 == k % 256
  {
    Gather(q, t, p, k, r);
    Quotient(v, p, q * (256 * t) + k, r);
    Scatter(q, t);
    SameLow(q * t, k);
  }

  lemma Scatter(q: int, t: nat)
    ensures q * (256 * t) == 256 * (q * t)
  {
  }

  lemma Gather(q: int, t: nat, p: nat, k: int, r: int)
    ensures q * (256 * t * p) + (k * p + r) == (q * (256 * t) + k) * p + r
  {
  }

  lemma SameLow(a: int, k: int)
    ensures (256 * a + k) % 256 == k % 256
  {
  }

  lemma InMemoryAt(abi: Abi, b: seq<Byte>, j: nat)
    requires j < |b|
    ensures |InMemory(abi, b)| == |b|
    ensures if abi.bigEndian then InMemory(abi, b)[|b| - 1 - j] == b[j] else InMemory(abi, b)[j] == b[j]
    ensures if abi.bigEndian then InMemory(abi, b)[j] == b[|b| - 1 - j] else InMemory(abi, b)[j] == b[j]
  {
  }

  /** Byte by byte, what an integer field holds: byte j, counted from the low end,
      is v / 256^j modulo 256, and it stands j places from the start where the
      low byte comes first, from the end where it comes last. */
  lemma EncodeIs(abi: Abi, f: Field, v: Val, j: nat)
    requires Natural(f) && !f.kind.Float? && Encode(abi, f, v).Some? && j < f.size
    ensures v.i.Some? && |Encode(abi, f, v).value| == f.size
    ensures Encode(abi, f, v).value[if abi.bigEndian then f.size - 1 - j else j] == v.i.value / Span(j) % 256
  {
    var w := Word(f, v).value;
    InMemoryAt(abi, ToBytes(w, f.size), j);
    ToBytesIs(w, f.size, j);
    WrapByte(v.i.value, f.size, j);
    hide ToBytes, InMemory, Fits;
  }

  /** A floating-point field holds its bit pattern in the same way. */
  lemma EncodeBits(abi: Abi, f: Field, v: Val, j: nat)
    requires Natural(f) && f.kind.Float? && Encode(abi, f, v).Some? && j < f.size
    ensures |Encode(abi, f, v).value| == f.size
    ensures var at := if abi.bigEndian then f.size - 1 - j else j;
      if f.size == 4 then v.single.Some? && Encode(abi, f, v).value[at] == v.single.value / Span(j) % 256
      else v.double.Some? && Encode(abi, f, v).value[at] == v.double.value / Span(j) % 256
  {
    var w := Word(f, v).value;
    InMemoryAt(abi, ToBytes(w, f.size), j);
    ToBytesIs(w, f.size, j);
    hide ToBytes, InMemory, Fits;
  }

  /** The value a field is read as: the one in the range of its type, signed or
      unsigned, whose bytes these are. */
  lemma DecodeIs(abi: Abi, f: Field, b: seq<Byte>, j: nat)
    requires Natural(f) && |b| == f.size && !f.kind.Float? && j < f.size
    ensures Decode(abi, f, b).GotInt?
    ensures b[if abi.bigEndian then f.size - 1 - j else j] == Decode(abi, f, b).n / Span(j) % 256
    ensures if f.kind.Unsigned? && f.size < 8 then 0 <= Decode(abi, f, b).n < Span(f.size)
            else 0 - Span(f.size) <= 2 * Decode(abi, f, b).n < Span(f.size)
  {
    var u := FromBytes(InMemory(abi, b));
    InMemoryAt(abi, b, j);
    Bounded(InMemory(abi, b));
    ToFrom(InMemory(abi, b));
    ToBytesIs(u, f.size, j);
    ValueWraps(f, u);
    WrapByte(Value(f, u), f.size, j);
    hide ToBytes, FromBytes, InMemory, Value;
  }

  lemma ValueWraps(f: Field, u: nat)
    requires Natural(f) && u < Span(f.size)
    ensures Value(f, u) % Span(f.size) == u
    ensures if f.kind.Unsigned? && f.size < 8 then 0 <= Value(f, u) < Span(f.size)
            else 0 - Span(f.size) <= 2 * Value(f, u) < Span(f.size)
  {
    Spans();
    hide Span;
    if f.size == 1 {
    } else if f.size == 2 {
    } else if f.size == 4 {
    } else {
      assert f.size == 8;
    }
  }

  /** The letter c stands for a field of this size and alignment that accepts
      exactly the integers from lo to hi. */
  ghost predicate Letter(abi: Abi, c: char, size: nat, align: nat, lo: int, hi: int) {
    && TypeOf(abi, c).Some? && TypeOf(abi, c).value.size == size && TypeOf(abi, c).value.align == align
    && !TypeOf(abi, c).value.kind.Float?
    && forall v: Val :: Encode(abi, TypeOf(abi, c).value, v).Some? <==> v.i.Some? && lo <= v.i.value <= hi
  }

  lemma IntLetters(abi: Abi)
    ensures Letter(abi, 'i', 4, 4, -0x8000_0000, 0x7fff_ffff) && Letter(abi, 'I', 4, 4, 0, 0xffff_ffff)
    ensures Letter(abi, 'h', 2, 2, -0x8000, 0x7fff) && Letter(abi, 'H', 2, 2, 0, 0xffff)
  {
    Spans();
    hide Span, ToBytes, InMemory;
  }

  lemma CharLetters(abi: Abi)
    ensures Letter(abi, 'b', 1, 1, if abi.signedChar then -0x80 else 0, if abi.signedChar then 0x7f else 0xff)
    ensures Letter(abi, 'B', 1, 1, 0, 0xff)
  {
    Spans();
    hide Span, ToBytes, InMemory;
  }

  lemma QuadLetters(abi: Abi)
    ensures var a := if abi.looseAlign then 4 else 8;
      && Letter(abi, 'q', 8, a, -0x8000_0000_0000_0000, 0x7fff_ffff_ffff_ffff)
      && Letter(abi, 'Q', 8, a, 0, 0x7fff_ffff_ffff_ffff)
  {
    Spans();
    hide Span, ToBytes, InMemory;
  }

  lemma WideLetters(abi: Abi)
    requires abi.wideLong
    ensures var a := if abi.looseAlign then 4 else 8;
      && Letter(abi, 'l', 8, a, -0x8000_0000_0000_0000, 0x7fff_ffff_ffff_ffff)
      && Letter(abi, 'L', 8, a, 0, 0x7fff_ffff_ffff_ffff)
      && Letter(abi, 'p', 8, a, -0x8000_0000_0000_0000, 0x7fff_ffff_ffff_ffff)
  {
    Spans();
    hide Span, ToBytes, InMemory;
  }

  lemma NarrowLetters(abi: Abi)
    requires !abi.wideLong
    ensures Letter(abi, 'l', 4, 4, -0x8000_0000, 0x7fff_ffff) && Letter(abi, 'L', 4, 4, 0, 0xffff_ffff)
    ensures Letter(abi, 'p', 4, 4, -0x8000_0000_0000_0000, 0x7fff_ffff_ffff_ffff)
  {
    Spans();
    hide Span, ToBytes, InMemory;
  }

  /** The type letters, with the C types of the platform. */
  lemma LettersAre(abi: Abi)
    ensures Letter(abi, 'i', 4, 4, -0x8000_0000, 0x7fff_ffff) && Letter(abi, 'I', 4, 4, 0, 0xffff_ffff)
    ensures Letter(abi, 'h', 2, 2, -0x8000, 0x7fff) && Letter(abi, 'H', 2, 2, 0, 0xffff)
    ensures Letter(abi, 'b', 1, 1, if abi.signedChar then -0x80 else 0, if abi.signedChar then 0x7f else 0xff)
    ensures Letter(abi, 'B', 1, 1, 0, 0xff)
    ensures var a := if abi.looseAlign then 4 else 8;
      && Letter(abi, 'q', 8, a, -0x8000_0000_0000_0000, 0x7fff_ffff_ffff_ffff)
      && Letter(abi, 'Q', 8, a, 0, 0x7fff_ffff_ffff_ffff)
      && (abi.wideLong ==>
        && Letter(abi, 'l', 8, a, -0x8000_0000_0000_0000, 0x7fff_ffff_ffff_ffff)
        && Letter(abi, 'L', 8, a, 0, 0x7fff_ffff_ffff_ffff)
        && Letter(abi, 'p', 8, a, -0x8000_0000_0000_0000, 0x7fff_ffff_ffff_ffff))
    ensures !abi.wideLong ==>
      && Letter(abi, 'l', 4, 4, -0x8000_0000, 0x7fff_ffff) && Letter(abi, 'L', 4, 4, 0, 0xffff_ffff)
      && Letter(abi, 'p', 4, 4, -0x8000_0000_0000_0000, 0x7fff_ffff_ffff_ffff)
    ensures TypeOf(abi, 'f') == Some(Field(4, 4, Float))
    ensures TypeOf(abi, 'd') == Some(Field(8, if abi.looseAlign then 4 else 8, Float))
    ensures forall c :: TypeOf(abi, c).Some? <==> c in "iIlLpbBhHqQfd"
  {
    hide Letter;
    IntLetters(abi);
    CharLetters(abi);
    QuadLetters(abi);
    if abi.wideLong {
      WideLetters(abi);
    } else {
      NarrowLetters(abi);
    }
  }

  /** Which letters are read as numbers that are never negative. */
  lemma SignOf(abi: Abi, c: char)
    requires TypeOf(abi, c).Some?
    ensures TypeOf(abi, c).value.kind.Unsigned? <==> c in "ILBHQ" || (c == 'b' && !abi.signedChar)
  {
  }

  /** A leading dot is no type letter: it asks for a packed image. */
  lemma FormatIs(s: string)
    ensures Packed("." + s) && Letters("." + s) == s
    ensures (s == "" || s[0] != '.') ==> !Packed(s) && Letters(s) == s
  {
    assert ("." + s)[1..] == s;
  }

  /** A field read back as a negative number although it is unsigned: only an
      unsigned 64-bit word of 2^63 or more does that. */
  predicate Wrapped(abi: Abi, f: Field, b: seq<Byte>) {
    f.kind.Unsigned? && f.size == 8 && FromBytes(InMemory(abi, b)) >= 0x8000_0000_0000_0000
  }

  /** The bytes of one field survive decoding and encoding unless they wrapped. */
  lemma FieldRepackIff(abi: Abi, f: Field, b: seq<Byte>, v: Val)
    requires Natural(f) && |b| == f.size && Carries(v, Decode(abi, f, b))
    ensures Encode(abi, f, v) == (if Wrapped(abi, f, b) then None else Some(b))
  {
    var u := FromBytes(InMemory(abi, b));
    Bounded(InMemory(abi, b));
    ToFrom(InMemory(abi, b));
    InMemoryTwice(abi, b);
    if !f.kind.Float? {
      WordOfValue(f, u);
    }
    hide Span, Fits, Value, InSigned, ToBytes, FromBytes, InMemory;
  }

  // -------------------------------------------------------------------- layout

  /** The padding the code inserts before a field that starts at off. */
  function Pad(off: nat, align: nat): nat
    requires align > 0
  {
    if off % align == 0 then 0 else align - off % align
  }

  function Up(off: nat, f: Field, packed: bool): nat {
    if packed || f.align == 0 then off else off + Pad(off, f.align)
  }

  function End(fs: seq<Field>, packed: bool): nat {
    if fs == [] then 0
    else Up(End(fs[..|fs| - 1], packed), fs[|fs| - 1], packed) + fs[|fs| - 1].size
  }

  /** Where field k starts. */
  function Place(fs: seq<Field>, packed: bool, k: nat): nat
    requires k < |fs|
  {
    Up(End(fs[..k], packed), fs[k], packed)
  }

  predicate Naturals(fs: seq<Field>) {
    forall k :: 0 <= k < |fs| ==> Natural(fs[k])
  }

  lemma EndStep(fs: seq<Field>, packed: bool, k: nat)
    requires k < |fs|
    ensures End(fs[..k + 1], packed) == Place(fs, packed, k) + fs[k].size
    ensures End(fs[..k], packed) <= Place(fs, packed, k)
  {
    assert fs[..k + 1][..k] == fs[..k];
  }

  lemma {:induction false} EndMono(fs: seq<Field>, packed: bool, j: nat, k: nat)
    requires j <= k <= |fs|
    ensures End(fs[..j], packed) <= End(fs[..k], packed)
    decreases k - j
  {
    if j < k {
      EndMono(fs, packed, j, k - 1);
      EndStep(fs, packed, k - 1);
    }
  }

  lemma Pad1(off: nat, m: nat)
    ensures (off + Pad(off, 1)) % 1 == 0
    ensures off <= m && m % 1 == 0 ==> off + Pad(off, 1) <= m
  {
  }

  lemma Pad2(off: nat, m: nat)
    ensures (off + Pad(off, 2)) % 2 == 0
    ensures off <= m && m % 2 == 0 ==> off + Pad(off, 2) <= m
  {
  }

  lemma Pad4(off: nat, m: nat)
    ensures (off + Pad(off, 4)) % 4 == 0
    ensures off <= m && m % 4 == 0 ==> off + Pad(off, 4) <= m
  {
  }

  lemma Pad8(off: nat, m: nat)
    ensures (off + Pad(off, 8)) % 8 == 0
    ensures off <= m && m % 8 == 0 ==> off + Pad(off, 8) <= m
  {
  }

  lemma UpLeast(off: nat, f: Field, m: nat)
    requires Natural(f)
    ensures Up(off, f, false) % f.align == 0
    ensures off <= m && m % f.align == 0 ==> Up(off, f, false) <= m
  {
    if f.align == 1 {
      Pad1(off, m);
    } else if f.align == 2 {
      Pad2(off, m);
    } else if f.align == 4 {
      Pad4(off, m);
    } else {
      Pad8(off, m);
    }
    hide Pad;
  }

  /** Fields keep their order and never overlap. */
  lemma FieldsInOrder(fs: seq<Field>, packed: bool, j: nat, k: nat)
    requires j < k < |fs|
    ensures Place(fs, packed, j) + fs[j].size <= Place(fs, packed, k)
  {
    EndStep(fs, packed, j);
    EndStep(fs, packed, k);
    EndMono(fs, packed, j + 1, k);
    hide End, Up;
  }

  /** Where the predecessor of field k ended. */
  function Previous(fs: seq<Field>, packed: bool, k: nat): nat
    requires k < |fs|
  {
    if k == 0 then 0 else Place(fs, packed, k - 1) + fs[k - 1].size
  }

  /** An aligned field starts at the first multiple of its alignment that its
      predecessor leaves free; a packed one starts where its predecessor ended. */
  lemma FieldPlaced(fs: seq<Field>, packed: bool, k: nat, m: nat)
    requires Naturals(fs) && k < |fs|
    ensures packed ==> Place(fs, packed, k) == Previous(fs, packed, k)
    ensures !packed ==> Place(fs, packed, k) % fs[k].align == 0
    ensures !packed ==> Previous(fs, packed, k) <= Place(fs, packed, k)
    ensures !packed && Previous(fs, packed, k) <= m && m % fs[k].align == 0 ==> Place(fs, packed, k) <= m
  {
    if k > 0 {
      EndStep(fs, packed, k - 1);
    }
    assert End(fs[..k], packed) == Previous(fs, packed, k);
    assert Natural(fs[k]);
    UpLeast(Previous(fs, packed, k), fs[k], m);
    hide End, Pad, Previous, Natural;
  }

  /** Byte j belongs to no field. */
  ghost predicate Gap(fs: seq<Field>, packed: bool, j: int) {
    forall k :: 0 <= k < |fs| ==> !(Place(fs, packed, k) <= j < Place(fs, packed, k) + fs[k].size)
  }

  /** b is the structure image of vals: every field in its place, nothing but
      zeros between them, nothing after the last. */
  ghost predicate Image(abi: Abi, fs: seq<Field>, packed: bool, vals: seq<Val>, b: seq<Byte>)
    requires |fs| <= |vals|
  {
    && |b| == End(fs, packed)
    && (forall k :: 0 <= k < |fs| ==> Holds(abi, fs, packed, k, vals[k], b))
    && (forall j :: 0 <= j < |b| && Gap(fs, packed, j) ==> b[j] == 0)
  }

  ghost predicate Holds(abi: Abi, fs: seq<Field>, packed: bool, k: nat, v: Val, b: seq<Byte>)
    requires k < |fs|
  {
    var p := Place(fs, packed, k);
    p + fs[k].size <= |b| && Encode(abi, fs[k], v) == Some(b[p..p + fs[k].size])
  }

  /** out lists the fields of s in order. */
  ghost predicate Unpacked(abi: Abi, fs: seq<Field>, packed: bool, s: seq<Byte>, out: seq<Got>)
    requires Naturals(fs)
  {
    && |out| == |fs|
    && forall k :: 0 <= k < |fs| ==> Reads(abi, fs, packed, k, s, out[k])
  }

  ghost predicate Reads(abi: Abi, fs: seq<Field>, packed: bool, k: nat, s: seq<Byte>, g: Got)
    requires k < |fs| && Natural(fs[k])
  {
    var p := Place(fs, packed, k);
    p + fs[k].size <= |s| && g == Decode(abi, fs[k], s[p..p + fs[k].size])
  }

  // ------------------------------------------------------------------ theorems

  lemma SameByte(abi: Abi, fs: seq<Field>, packed: bool, k: nat, v: Val, b: seq<Byte>, c: seq<Byte>, j: nat)
    requires k < |fs| && Holds(abi, fs, packed, k, v, b) && Holds(abi, fs, packed, k, v, c)
    requires Place(fs, packed, k) <= j < Place(fs, packed, k) + fs[k].size
    ensures b[j] == c[j]
  {
    hide Encode, Place;
    var p := Place(fs, packed, k);
    assert b[p..p + fs[k].size][j - p] == c[p..p + fs[k].size][j - p];
  }

  /** An image is determined by its format and values. */
  lemma ImageUnique(abi: Abi, fs: seq<Field>, packed: bool, vals: seq<Val>, b: seq<Byte>, c: seq<Byte>)
    requires |fs| <= |vals| && Image(abi, fs, packed, vals, b) && Image(abi, fs, packed, vals, c)
    ensures b == c
  {
    hide Holds, Place, End;
    forall j | 0 <= j < |b|
      ensures b[j] == c[j]
    {
      if !Gap(fs, packed, j) {
        var k :| 0 <= k < |fs| && Place(fs, packed, k) <= j < Place(fs, packed, k) + fs[k].size;
        SameByte(abi, fs, packed, k, vals[k], b, c, j);
      }
    }
  }

  /** Unpacking an image always succeeds, and gives back the packed values
      exactly when every value in a pointer field fits a pointer. */
  lemma RoundTripIff(abi: Abi, fs: seq<Field>, packed: bool, vals: seq<Val>, b: seq<Byte>, out: seq<Got>)
    requires Naturals(fs) && |fs| <= |vals| && Image(abi, fs, packed, vals, b)
    requires Unpacked(abi, fs, packed, b, out)
    ensures (forall k :: 0 <= k < |fs| ==> Carries(vals[k], out[k])) <==>
            (forall k :: 0 <= k < |fs| && fs[k].kind.Pointer? ==>
              vals[k].i.Some? && InSigned(fs[k].size, vals[k].i.value))
  {
    forall k | 0 <= k < |fs|
      ensures Carries(vals[k], out[k]) <==>
              (fs[k].kind.Pointer? ==> vals[k].i.Some? && InSigned(fs[k].size, vals[k].i.value))
    {
      assert Holds(abi, fs, packed, k, vals[k], b) && Reads(abi, fs, packed, k, b, out[k]);
      FieldRoundTripIff(abi, fs[k], vals[k]);
    }
  }

  /** The other way round: packing what an image unpacked to restores it,
      exactly when no unsigned 64-bit field wrapped. */
  lemma RepackIff(abi: Abi, fs: seq<Field>, packed: bool, b: seq<Byte>, out: seq<Got>, vals: seq<Val>)
    requires Naturals(fs) && |fs| <= |vals| && Unpacked(abi, fs, packed, b, out)
    requires |b| == End(fs, packed)
    requires forall j :: 0 <= j < |b| && Gap(fs, packed, j) ==> b[j] == 0
    requires forall k :: 0 <= k < |fs| ==> Carries(vals[k], out[k])
    ensures Image(abi, fs, packed, vals, b) <==>
            forall k :: 0 <= k < |fs| ==> !WrappedAt(abi, fs, packed, k, b)
  {
    forall k | 0 <= k < |fs|
      ensures Holds(abi, fs, packed, k, vals[k], b) <==> !WrappedAt(abi, fs, packed, k, b)
    {
      assert Reads(abi, fs, packed, k, b, out[k]);
      var p := Place(fs, packed, k);
      FieldRepackIff(abi, fs[k], b[p..p + fs[k].size], vals[k]);
    }
  }

  ghost predicate WrappedAt(abi: Abi, fs: seq<Field>, packed: bool, k: nat, b: seq<Byte>)
    requires k < |fs|
  {
    var p := Place(fs, packed, k);
    p + fs[k].size <= |b| && Wrapped(abi, fs[k], b[p..p + fs[k].size])
  }

  /** An image byte by byte: byte j of integer field k, from the low end. */
  lemma ImageIs(abi: Abi, fs: seq<Field>, packed: bool, vals: seq<Val>, b: seq<Byte>, k: nat, j: nat)
    requires Naturals(fs) && |fs| <= |vals| && Image(abi, fs, packed, vals, b)
    requires k < |fs| && !fs[k].kind.Float? && j < fs[k].size
    ensures vals[k].i.Some? && Place(fs, packed, k) + fs[k].size <= |b|
    ensures b[Place(fs, packed, k) + if abi.bigEndian then fs[k].size - 1 - j else j] == vals[k].i.value / Span(j) % 256
  {
    hide Encode, Place, Span, Gap, End;
    assert Holds(abi, fs, packed, k, vals[k], b);
    EncodeIs(abi, fs[k], vals[k], j);
  }

  /** And what unpacking gives for it. */
  lemma UnpackedIs(abi: Abi, fs: seq<Field>, packed: bool, s: seq<Byte>, out: seq<Got>, k: nat, j: nat)
    requires Naturals(fs) && Unpacked(abi, fs, packed, s, out)
    requires k < |fs| && !fs[k].kind.Float? && j < fs[k].size
    ensures out[k].GotInt? && Place(fs, packed, k) + fs[k].size <= |s|
    ensures s[Place(fs, packed, k) + if abi.bigEndian then fs[k].size - 1 - j else j] == out[k].n / Span(j) % 256
    ensures if fs[k].kind.Unsigned? && fs[k].size < 8 then 0 <= out[k].n < Span(fs[k].size)
            else 0 - Span(fs[k].size) <= 2 * out[k].n < Span(fs[k].size)
  {
    hide Decode, Place, Span;
    assert Reads(abi, fs, packed, k, s, out[k]);
    var p := Place(fs, packed, k);
    DecodeIs(abi, fs[k], s[p..p + fs[k].size], j);
  }

  // ---------------------------------------------------------------- operations

  lemma FieldsSnoc(abi: Abi, s: string, k: nat)
    requires k < |s| && forall j :: 0 <= j <= k ==> TypeOf(abi, s[j]).Some?
    ensures Fields(abi, s[..k + 1]) == Fields(abi, s[..k]) + [TypeOf(abi, s[k]).value]
  {
  }

  lemma FieldsPrefix(abi: Abi, s: string, packed: bool, k: nat)
    requires k <= |s| && forall j :: 0 <= j < |s| ==> TypeOf(abi, s[j]).Some?
    ensures End(Fields(abi, s[..k]), packed) <= End(Fields(abi, s), packed)
  {
    var fs := Fields(abi, s);
    assert fs[..k] == Fields(abi, s[..k]) && fs[..|s|] == fs;
    EndMono(fs, packed, k, |s|);
  }

  /** Fields already placed stay where they are. */
  lemma PlaceSnoc(fs: seq<Field>, f: Field, packed: bool, k: nat)
    requires k <= |fs|
    ensures Place(fs + [f], packed, k) ==
            if k < |fs| then Place(fs, packed, k) else Up(End(fs, packed), f, packed)
    ensures End(fs + [f], packed) == Up(End(fs, packed), f, packed) + f.size
  {
    assert (fs + [f])[..|fs|] == fs;
    if k < |fs| {
      assert (fs + [f])[..k] == fs[..k];
    }
  }

  lemma HoldsSnoc(abi: Abi, fs: seq<Field>, f: Field, packed: bool, k: nat, v: Val, b: seq<Byte>, c: seq<Byte>)
    requires k < |fs| && Holds(abi, fs, packed, k, v, b) && b <= c
    ensures Holds(abi, fs + [f], packed, k, v, c)
  {
    PlaceSnoc(fs, f, packed, k);
    hide Encode, End, Place, Up;
    var p := Place(fs, packed, k);
    assert b[p..p + fs[k].size] == c[p..p + fs[k].size];
  }

  lemma HoldsLast(abi: Abi, fs: seq<Field>, f: Field, packed: bool, v: Val, c: seq<Byte>)
    requires Up(End(fs, packed), f, packed) + f.size == |c|
    requires Encode(abi, f, v) == Some(c[|c| - f.size..])
    ensures Holds(abi, fs + [f], packed, |fs|, v, c)
  {
    PlaceSnoc(fs, f, packed, |fs|);
    hide Encode, End, Place, Up;
    var p := |c| - f.size;
    assert c[p..] == c[p..p + f.size];
  }

  lemma GapSnoc(fs: seq<Field>, f: Field, packed: bool, j: nat)
    requires Gap(fs + [f], packed, j)
    ensures Gap(fs, packed, j)
    ensures !(Up(End(fs, packed), f, packed) <= j < Up(End(fs, packed), f, packed) + f.size)
  {
    hide End, Place, Up;
    PlaceSnoc(fs, f, packed, |fs|);
    assert (fs + [f])[|fs|] == f;
    forall k | 0 <= k < |fs|
      ensures !(Place(fs, packed, k) <= j < Place(fs, packed, k) + fs[k].size)
    {
      PlaceSnoc(fs, f, packed, k);
      assert (fs + [f])[k] == fs[k];
    }
  }

  lemma ImageSnoc(abi: Abi, fs: seq<Field>, f: Field, packed: bool, vals: seq<Val>, b: seq<Byte>, c: seq<Byte>)
    requires |fs| < |vals| && Image(abi, fs, packed, vals, b)
    requires Up(End(fs, packed), f, packed) + f.size == |c| && b <= c
    requires Encode(abi, f, vals[|fs|]) == Some(c[|c| - f.size..])
    requires forall j :: |b| <= j < |c| - f.size ==> c[j] == 0
    ensures Image(abi, fs + [f], packed, vals, c)
  {
    hide Encode, End, Place, Up, Holds, Gap;
    PlaceSnoc(fs, f, packed, |fs|);
    forall k | 0 <= k <= |fs|
      ensures Holds(abi, fs + [f], packed, k, vals[k], c)
    {
      if k < |fs| {
        HoldsSnoc(abi, fs, f, packed, k, vals[k], b, c);
      } else {
        HoldsLast(abi, fs, f, packed, vals[k], c);
      }
    }
    forall j | 0 <= j < |c| && Gap(fs + [f], packed, j)
      ensures c[j] == 0
    {
      GapSnoc(fs, f, packed, j);
      if j < |b| {
        assert b[j] == 0;
      }
    }
  }

  /** Exactly the calls of pack that succeed. */
  ghost predicate Packable(abi: Abi, fmt: string, vals: seq<Val>) {
    && WellFormed(abi, fmt)
    && |Letters(fmt)| <= |vals|
    && (forall k :: 0 <= k < |Letters(fmt)| ==>
          Encode(abi, TypeOf(abi, Letters(fmt)[k]).value, vals[k]).Some?)
    && End(Fields(abi, Letters(fmt)), Packed(fmt)) <= 4096
  }

  /** Exactly the calls of unpack that succeed. */
  ghost predicate Readable(abi: Abi, fmt: string, s: seq<Byte>) {
    && WellFormed(abi, fmt)
    && End(Fields(abi, Letters(fmt)), Packed(fmt)) <= |s|
  }

  /** State of the packing loop: the first v fields are in b. */
  ghost predicate PackedTo(abi: Abi, fmt: string, vals: seq<Val>, v: nat, b: seq<Byte>) {
    && v <= |Letters(fmt)| && v <= |vals|
    && (forall k :: 0 <= k < v ==> TypeOf(abi, Letters(fmt)[k]).Some?)
    && (forall k :: 0 <= k < v ==> Encode(abi, TypeOf(abi, Letters(fmt)[k]).value, vals[k]).Some?)
    && Image(abi, Fields(abi, Letters(fmt)[..v]), Packed(fmt), vals, b)
  }

  lemma PackStart(abi: Abi, fmt: string, vals: seq<Val>)
    ensures PackedTo(abi, fmt, vals, 0, [])
  {
  }

  lemma PackStep(abi: Abi, fmt: string, vals: seq<Val>, v: nat, f: Field, b: seq<Byte>, c: seq<Byte>)
    requires PackedTo(abi, fmt, vals, v, b) && v < |Letters(fmt)| && v < |vals|
    requires TypeOf(abi, Letters(fmt)[v]) == Some(f)
    requires Up(|b|, f, Packed(fmt)) + f.size == |c| && b <= c
    requires Encode(abi, f, vals[v]) == Some(c[|c| - f.size..])
    requires forall j :: |b| <= j < |c| - f.size ==> c[j] == 0
    ensures PackedTo(abi, fmt, vals, v + 1, c)
  {
    hide Encode, TypeOf, Up, Letters, Packed;
    FieldsSnoc(abi, Letters(fmt), v);
    ImageSnoc(abi, Fields(abi, Letters(fmt)[..v]), f, Packed(fmt), vals, b, c);
    hide Image;
  }

  lemma TooLong(abi: Abi, fmt: string, vals: seq<Val>, v: nat, f: Field, b: seq<Byte>)
    requires PackedTo(abi, fmt, vals, v, b) && v < |Letters(fmt)|
    requires TypeOf(abi, Letters(fmt)[v]) == Some(f)
    requires Up(|b|, f, Packed(fmt)) + f.size > MAX_STRUCT_SIZE
    ensures !Packable(abi, fmt, vals)
  {
    hide Encode, TypeOf, Up, Letters, Packed;
    FieldsSnoc(abi, Letters(fmt), v);
    PlaceSnoc(Fields(abi, Letters(fmt)[..v]), f, Packed(fmt), v);
    if WellFormed(abi, fmt) {
      FieldsPrefix(abi, Letters(fmt), Packed(fmt), v + 1);
    }
  }

  lemma PackDone(abi: Abi, fmt: string, vals: seq<Val>, b: seq<Byte>)
    requires Letters(fmt) != "" && PackedTo(abi, fmt, vals, |Letters(fmt)|, b) && |b| <= MAX_STRUCT_SIZE
    ensures Packable(abi, fmt, vals) && Image(abi, Fields(abi, Letters(fmt)), Packed(fmt), vals, b)
  {
    hide Encode, TypeOf, Letters, Packed;
    assert Letters(fmt)[..|Letters(fmt)|] == Letters(fmt);
  }

  /** State of the unpacking loop: the fields before off are in l. */
  ghost predicate ReadTo(abi: Abi, fmt: string, s: seq<Byte>, off: nat, l: seq<Got>) {
    && |l| <= |Letters(fmt)| && off <= |s|
    && (forall k :: 0 <= k < |l| ==> TypeOf(abi, Letters(fmt)[k]).Some?)
    && off == End(Fields(abi, Letters(fmt)[..|l|]), Packed(fmt))
    && Unpacked(abi, Fields(abi, Letters(fmt)[..|l|]), Packed(fmt), s, l)
  }

  lemma ReadStart(abi: Abi, fmt: string, s: seq<Byte>)
    ensures ReadTo(abi, fmt, s, 0, [])
  {
  }

  lemma ReadStep(abi: Abi, fmt: string, s: seq<Byte>, off: nat, l: seq<Got>, f: Field, at: nat, g: Got)
    requires ReadTo(abi, fmt, s, off, l) && |l| < |Letters(fmt)|
    requires TypeOf(abi, Letters(fmt)[|l|]) == Some(f)
    requires at == Up(off, f, Packed(fmt)) && at + f.size <= |s| && g == Decode(abi, f, s[at..at + f.size])
    ensures ReadTo(abi, fmt, s, at + f.size, l + [g])
  {
    hide Decode, TypeOf, Up, Letters, Packed, Reads, End;
    var fs := Fields(abi, Letters(fmt)[..|l|]);
    FieldsSnoc(abi, Letters(fmt), |l|);
    PlaceSnoc(fs, f, Packed(fmt), |l|);
    UnpackedSnoc(abi, fs, f, Packed(fmt), s, l, g);
    hide Unpacked, Fields;
  }

  lemma TooShort(abi: Abi, fmt: string, s: seq<Byte>, off: nat, l: seq<Got>, f: Field)
    requires ReadTo(abi, fmt, s, off, l) && |l| < |Letters(fmt)|
    requires TypeOf(abi, Letters(fmt)[|l|]) == Some(f)
    requires Up(off, f, Packed(fmt)) + f.size > |s|
    ensures !Readable(abi, fmt, s)
  {
    hide TypeOf, Up, Letters, Packed, Unpacked;
    FieldsSnoc(abi, Letters(fmt), |l|);
    PlaceSnoc(Fields(abi, Letters(fmt)[..|l|]), f, Packed(fmt), |l|);
    if WellFormed(abi, fmt) {
      FieldsPrefix(abi, Letters(fmt), Packed(fmt), |l| + 1);
    }
  }

  lemma ReadDone(abi: Abi, fmt: string, s: seq<Byte>, off: nat, l: seq<Got>)
    requires Letters(fmt) != "" && ReadTo(abi, fmt, s, off, l) && |l| == |Letters(fmt)|
    ensures Readable(abi, fmt, s) && Unpacked(abi, Fields(abi, Letters(fmt)), Packed(fmt), s, l)
  {
    hide TypeOf, Letters, Packed, Reads;
    assert Letters(fmt)[..|Letters(fmt)|] == Letters(fmt);
  }

  /** Only the letter p is at stake, and only where pointers have 32 bits. */
  predicate FitsPointer(abi: Abi, c: char, v: Val) {
    c == 'p' ==> v.i.Some? && (abi.wideLong || -0x8000_0000 <= v.i.value < 0x8000_0000)
  }

  lemma PointerLetter(abi: Abi, c: char, v: Val)
    requires TypeOf(abi, c).Some? && Encode(abi, TypeOf(abi, c).value, v).Some?
    ensures FitsPointer(abi, c, v) <==>
            (TypeOf(abi, c).value.kind.Pointer? ==>
               v.i.Some? && InSigned(TypeOf(abi, c).value.size, v.i.value))
    ensures abi.wideLong ==> FitsPointer(abi, c, v)
  {
    Spans();
    hide Span, ToBytes;
  }

  /** What pack and unpack are for: whatever pack returns, unpack with the same
      format accepts, and it gives back the packed values exactly when each value
      in a pointer field fits a pointer -- always, where pointers have 64 bits. */
  lemma PackThenUnpack(abi: Abi, fmt: string, vals: seq<Val>, b: seq<Byte>, out: seq<Got>)
    requires Packable(abi, fmt, vals) && Image(abi, Fields(abi, Letters(fmt)), Packed(fmt), vals, b)
    ensures Readable(abi, fmt, b)
    ensures Unpacked(abi, Fields(abi, Letters(fmt)), Packed(fmt), b, out) ==>
              ((forall k :: 0 <= k < |Letters(fmt)| ==> Carries(vals[k], out[k])) <==>
               (forall k :: 0 <= k < |Letters(fmt)| ==> FitsPointer(abi, Letters(fmt)[k], vals[k])))
    ensures abi.wideLong ==> forall k :: 0 <= k < |Letters(fmt)| ==> FitsPointer(abi, Letters(fmt)[k], vals[k])
  {
    assert Readable(abi, fmt, b);
    hide Encode, TypeOf, End, Packed, Letters, Image, Unpacked, Natural, Carries;
    var s, fs := Letters(fmt), Fields(abi, Letters(fmt));
    if Unpacked(abi, fs, Packed(fmt), b, out) {
      RoundTripIff(abi, fs, Packed(fmt), vals, b, out);
    }
    forall k | 0 <= k < |s|
      ensures FitsPointer(abi, s[k], vals[k]) <==>
              (fs[k].kind.Pointer? ==> vals[k].i.Some? && InSigned(fs[k].size, vals[k].i.value))
      ensures abi.wideLong ==> FitsPointer(abi, s[k], vals[k])
    {
      PointerLetter(abi, s[k], vals[k]);
    }
  }

  /** The one field of a one-letter format. */
  lemma OneField(abi: Abi, c: char, packed: bool)
    requires TypeOf(abi, c).Some?
    ensures var f := TypeOf(abi, c).value;
      Fields(abi, [c]) == [f] && Place([f], packed, 0) == 0 && End([f], packed) == f.size
  {
    hide TypeOf;
    var f := TypeOf(abi, c).value;
    assert [f][..0] == [] && Fields(abi, [c])[0] == f;
  }

  /** With 32-bit pointers 2^32 is packed as four zero bytes, read back as 0. */
  lemma PointerCut(abi: Abi)
    requires !abi.wideLong
    ensures var v, b := Val(Some(0x1_0000_0000), None, None), [0, 0, 0, 0];
      && Packable(abi, "p", [v]) && Image(abi, Fields(abi, "p"), false, [v], b)
      && Unpacked(abi, Fields(abi, "p"), false, b, [GotInt(0)])
      && !FitsPointer(abi, 'p', v)
  {
    hide TypeOf, Fields, End, Place, Encode, Decode, Letters, Packed;
    var f := Field(4, 4, Pointer);
    var v, b: seq<Byte> := Val(Some(0x1_0000_0000), None, None), [0, 0, 0, 0];
    PointerFormat(abi);
    OneField(abi, 'p', false);
    PointerCutField(abi, v);
    assert b[0..4] == b;
    assert Holds(abi, [f], false, 0, v, b) && Reads(abi, [f], false, 0, b, GotInt(0));
    hide Holds, Reads, Gap;
  }

  lemma PointerFormat(abi: Abi)
    requires !abi.wideLong
    ensures Letters("p") == "p" == ['p'] && !Packed("p")
    ensures TypeOf(abi, 'p') == Some(Field(4, 4, Pointer))
  {
  }

  lemma PointerCutField(abi: Abi, v: Val)
    requires v.i == Some(0x1_0000_0000)
    ensures var f := Field(4, 4, Pointer);
      Encode(abi, f, v) == Some([0, 0, 0, 0]) && Decode(abi, f, [0, 0, 0, 0]) == GotInt(0)
  {
    Spans();
    FourZeros(abi);
    hide ToBytes, FromBytes, Span, InMemory;
    assert Word(Field(4, 4, Pointer), v) == Some(0);
  }

  lemma FourZeros(abi: Abi)
    ensures InMemory(abi, ToBytes(0, 4)) == [0, 0, 0, 0]
    ensures FromBytes(InMemory(abi, [0, 0, 0, 0])) == 0
  {
    var b: seq<Byte> := [0, 0, 0, 0];
    assert ToBytes(0, 2) == [0, 0];
    assert ToBytes(0, 4) == b && Reverse(b) == b;
    FromTo(0, 4);
  }

  /** Eight bytes of all ones under Q are read as -1, which Q does not accept. */
  lemma LongWraps(abi: Abi, v: Val)
    requires Carries(v, GotInt(-1))
    ensures var b := seq(8, _ => 0xff);
      && Unpacked(abi, Fields(abi, "Q"), false, b, [GotInt(-1)])
      && !Packable(abi, "Q", [v])
  {
    var f := TypeOf(abi, 'Q').value;
    var b: seq<Byte> := seq(8, _ => 0xff);
    OneField(abi, 'Q', false);
    assert Letters("Q") == "Q" == ['Q'];
    AllOnes(abi, 8);
    Spans();
    assert b[0..8] == b;
    hide FromBytes, Span, InMemory, End, Place, Fields;
    assert Reads(abi, [f], false, 0, b, GotInt(-1));
    assert Word(f, v) == None;
  }

  lemma {:induction false} AllOnes(abi: Abi, n: nat)
    ensures FromBytes(InMemory(abi, seq(n, _ => 0xff))) == Span(n) - 1
  {
    var b: seq<Byte> := seq(n, _ => 0xff);
    assert Reverse(b) == b;
    OnesWord(n);
  }

  lemma {:induction false} OnesWord(n: nat)
    ensures FromBytes(seq(n, _ => 0xff)) == Span(n) - 1
  {
    var b: seq<Byte> := seq(n, _ => 0xff);
    if n > 0 {
      OnesWord(n - 1);
      assert b[1..] == seq(n - 1, _ => 0xff);
    }
  }

  lemma EncodeLength(abi: Abi, f: Field, v: Val)
    ensures Encode(abi, f, v).Some? ==> |Encode(abi, f, v).value| == f.size
  {
  }

  lemma ReadsSnoc(abi: Abi, fs: seq<Field>, f: Field, packed: bool, k: nat, s: seq<Byte>, g: Got)
    requires k < |fs| && Natural(fs[k]) && Reads(abi, fs, packed, k, s, g)
    ensures Reads(abi, fs + [f], packed, k, s, g)
  {
    hide Decode, End, Place, Up, Natural;
    PlaceSnoc(fs, f, packed, k);
  }

  lemma UnpackedSnoc(abi: Abi, fs: seq<Field>, f: Field, packed: bool, s: seq<Byte>, l: seq<Got>, g: Got)
    requires Naturals(fs) && Natural(f) && Unpacked(abi, fs, packed, s, l)
    requires Up(End(fs, packed), f, packed) + f.size <= |s|
    requires g == Decode(abi, f, s[Up(End(fs, packed), f, packed)..Up(End(fs, packed), f, packed) + f.size])
    ensures Unpacked(abi, fs + [f], packed, s, l + [g])
  {
    hide Decode, End, Place, Up, Natural;
    assert Reads(abi, fs + [f], packed, |fs|, s, g) by {
      PlaceSnoc(fs, f, packed, |fs|);
    }
    forall k | 0 <= k < |fs|
      ensures Reads(abi, fs + [f], packed, k, s, l[k])
    {
      ReadsSnoc(abi, fs, f, packed, k, s, l[k]);
    }
    hide Reads;
  }

  method PadOf(off: nat, align: nat) returns (pad: nat)
    requires align > 0
    ensures pad == Pad(off, align)
  {
    pad := off % align;
    if pad != 0 {
      pad := align - pad;
    }
  }

  /** Appends one field to the first len bytes of the buffer. */
  method Append(buf: array<Byte>, len: nat, f: Field, bytes: seq<Byte>, packed: bool) returns (r: Option<nat>)
    requires buf.Length == MAX_STRUCT_SIZE && len <= buf.Length
    requires Natural(f) && |bytes| == f.size
    modifies buf
    ensures r.Some? <==> Up(len, f, packed) + f.size <= MAX_STRUCT_SIZE
    ensures r.Some? ==> len + f.size <= r.value == Up(len, f, packed) + f.size
    ensures buf[..len] == old(buf[..len])
    ensures r.Some? ==> buf[r.value - f.size..r.value] == bytes
    ensures r.Some? ==> forall j :: len <= j < r.value - f.size ==> buf[j] == 0
  {
    var at := len;
    if !packed {
      var pad := PadOf(at, f.align);
      if pad != 0 {
        var end := at + pad;
        if end > MAX_STRUCT_SIZE {
          return None;
        }
        forall j | at <= j < end {
          buf[j] := 0;
        }
        at := end;
      }
    }
    var end := at + f.size;
    if end > MAX_STRUCT_SIZE {
      return None;
    }
    forall j | at <= j < end {
      buf[j] := bytes[j - at];
    }
    assert forall i :: 0 <= i < f.size ==> buf[at..end][i] == bytes[i];
    return Some(end);
  }

  /** The optional '.' in front of the type letters. */
  method Prefix(fmt: string) returns (i: nat, ok: bool)
    ensures ok <==> Letters(fmt) != ""
    ensures ok ==> i == (if Packed(fmt) then 1 else 0) && Letters(fmt) == fmt[i..]
  {
    i, ok := 0, fmt != "";
    if ok && fmt[0] == '.' {
      if |fmt| == 1 {
        ok := false;
      }
      i := 1;
    }
  }

  method Pack(abi: Abi, fmt: string, vals: seq<Val>) returns (r: Option<seq<Byte>>)
    ensures r.Some? <==> Packable(abi, fmt, vals)
    ensures r.Some? ==> |r.value| <= 4096
    ensures r.Some? ==> Image(abi, Fields(abi, Letters(fmt)), Packed(fmt), vals, r.value)
  {
    hide Encode, TypeOf, Up, Letters, End, Image, Natural;
    var i, ok := Prefix(fmt);
    if !ok || vals == [] {
      return None;
    }
    var packed, start := i == 1, i;
    var buf := new Byte[MAX_STRUCT_SIZE];
    var len, v := 0, 0;
    PackStart(abi, fmt, vals);
    assert buf[..len] == [];
    while i < |fmt|
      invariant start <= i <= |fmt| && v == i - start
      invariant len <= MAX_STRUCT_SIZE && PackedTo(abi, fmt, vals, v, buf[..len])
    {
      if v == |vals| {
        return None;
      }
      assert fmt[i] == Letters(fmt)[v];
      var t := TypeOf(abi, fmt[i]);
      if t == None {
        return None;
      }
      var val := Encode(abi, t.value, vals[v]);
      if val == None {
        return None;
      }
      EncodeLength(abi, t.value, vals[v]);
      hide PackedTo, Packable;
      ghost var before := buf[..len];
      var end := Append(buf, len, t.value, val.value, packed);
      if end == None {
        TooLong(abi, fmt, vals, v, t.value, before);
        return None;
      }
      len := end.value;
      assert buf[..len][len - t.value.size..] == val.value;
      assert buf[..len][..|before|] == before;
      PackStep(abi, fmt, vals, v, t.value, before, buf[..len]);
      i, v := i + 1, v + 1;
    }
    PackDone(abi, fmt, vals, buf[..len]);
    return Some(buf[..len]);
  }

  method Unpack(abi: Abi, fmt: string, s: seq<Byte>) returns (r: Option<seq<Got>>)
    ensures r.Some? <==> Readable(abi, fmt, s)
    ensures r.Some? ==> Unpacked(abi, Fields(abi, Letters(fmt)), Packed(fmt), s, r.value)
  {
    hide TypeOf, Letters, Decode, Unpacked, Pad;
    var i, ok := Prefix(fmt);
    if !ok {
      return None;
    }
    var packed, start := i == 1, i;
    var off: nat, l: seq<Got> := 0, [];
    ReadStart(abi, fmt, s);
    while i < |fmt|
      invariant start <= i <= |fmt| && |l| == i - start && ReadTo(abi, fmt, s, off, l)
      decreases |fmt| - i
    {
      var at := off;
      assert fmt[i] == Letters(fmt)[|l|];
      var t := TypeOf(abi, fmt[i]);
      if t == None {
        return None;
      }
      hide End;
      assert off <= |s|;
      if off >= |s| {
        TooShort(abi, fmt, s, off, l, t.value);
        return None;
      }
      hide ReadTo, Readable;
      if !packed {
        var pad := PadOf(off, t.value.align);
        if pad != 0 && |s| - off <= pad {
          TooShort(abi, fmt, s, off, l, t.value);
          return None;
        }
        at := off + pad;
      }
      if |s| - at < t.value.size {
        TooShort(abi, fmt, s, off, l, t.value);
        return None;
      }
      var dec := Decode(abi, t.value, s[at..at + t.value.size]);
      ReadStep(abi, fmt, s, off, l, t.value, at, dec);
      l, off, i := l + [dec], at + t.value.size, i + 1;
    }
    ReadDone(abi, fmt, s, off, l);
    return Some(l);
  }
}
