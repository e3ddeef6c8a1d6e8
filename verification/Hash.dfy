/** The 32-bit mixing hash: update byte by byte, then finish.

    A word is a number below 2^32: sums and left shifts are reduced modulo 2^32,
    a right shift divides, and exclusive or works bit by bit. */
module Hash {
  import opened Basics

  const M := 0x1_0000_0000

  type Word = n: nat | n < M

  function Xor(a: nat, b: nat): nat {
    if a == 0 && b == 0 then 0
    else (if a % 2 == b % 2 then 0 else 1) + 2 * Xor(a / 2, b / 2)
  }

  /** Right shift by k bits, one at a time. */
  function Shr(a: nat, k: nat): nat {
    if k == 0 then a else Shr(a / 2, k - 1)
  }

  // ------------------------------------------------------------- the reference

  function MixSum(h: Word, b: Byte): Word {
    (h * 1025 + b) % M
  }

  function Smear(g: Word, k: nat): Word {
    XorBound(g, k);
    Xor(g, Shr(g, k))
  }

  function Mix(h: Word, b: Byte): Word {
    Smear(MixSum(h, b), 6)
  }

  function Finish(h: Word): Word {
    (Smear((h * 9) % M, 11) * 32769) % M
  }

  function Update(h: Word, buf: seq<Byte>): Word
    decreases |buf|
  {
    if buf == [] then h else Update(Mix(h, buf[0]), buf[1..])
  }

  function HashOf(buf: seq<Byte>): Word {
    Finish(Update(0, buf))
  }

  // ---------------------------------------------------------- exclusive or, shift

  lemma {:induction false} XorComm(a: nat, b: nat)
    ensures Xor(a, b) == Xor(b, a)
  {
    if a != 0 || b != 0 {
      XorComm(a / 2, b / 2);
    }
  }

  lemma {:induction false} XorZero(a: nat)
    ensures Xor(a, 0) == a
  {
    if a != 0 {
      XorZero(a / 2);
    }
  }

  lemma {:induction false} XorSelf(a: nat)
    ensures Xor(a, a) == 0
  {
    if a != 0 {
      XorSelf(a / 2);
    }
  }

  lemma {:induction false} XorBits(a: nat, b: nat)
    ensures Xor(a, b) % 2 == (if a % 2 == b % 2 then 0 else 1)
    ensures Xor(a, b) / 2 == Xor(a / 2, b / 2)
  {
  }

  lemma {:induction false} XorAssoc(a: nat, b: nat, c: nat)
    ensures Xor(Xor(a, b), c) == Xor(a, Xor(b, c))
    decreases a + b + c
  {
    if a != 0 || b != 0 || c != 0 {
      XorAssoc(a / 2, b / 2, c / 2);
      XorBits(a, b);
      XorBits(b, c);
      XorBits(Xor(a, b), c);
      XorBits(a, Xor(b, c));
    }
  }

  lemma {:induction false} ShrXor(a: nat, b: nat, k: nat)
    ensures Shr(Xor(a, b), k) == Xor(Shr(a, k), Shr(b, k))
    decreases k
  {
    if k > 0 {
      XorBits(a, b);
      ShrXor(a / 2, b / 2, k - 1);
    }
  }

  lemma {:induction false} ShrLess(a: nat, k: nat)
    ensures Shr(a, k) <= a
    ensures a > 0 && k > 0 ==> Shr(a, k) < a
    decreases k
  {
    if k > 0 {
      ShrLess(a / 2, k - 1);
    }
  }

  /** Exclusive or stays below a power of two. */
  lemma {:induction false} XorBelow(a: nat, b: nat, p: nat)
    requires a < Pow2(p) && b < Pow2(p)
    ensures Xor(a, b) < Pow2(p)
    decreases p
  {
    if p > 0 && (a != 0 || b != 0) {
      XorBelow(a / 2, b / 2, p - 1);
    }
  }

  function Pow2(p: nat): nat {
    if p == 0 then 1 else 2 * Pow2(p - 1)
  }

  lemma WordBits()
    ensures Pow2(32) == M
  {
    assert Pow2(8) == 256;
    assert Pow2(16) == 65536;
    assert Pow2(24) == 16777216;
  }

  lemma XorBound(a: Word, k: nat)
    ensures Xor(a, Shr(a, k)) < M
  {
    WordBits();
    ShrLess(a, k);
    XorBelow(a, Shr(a, k), 32);
  }

  // ---------------------------------------------------------------- the inverses

  /** Undoes x ^ (x >> k): the high bits are known, and give the lower ones. */
  function Unshift(y: nat, k: nat): nat
    requires k > 0
  {
    if y == 0 then 0 else
      ShrLess(y, k);
      Xor(y, Unshift(Shr(y, k), k))
  }

  lemma {:induction false} UnshiftLeft(x: nat, k: nat)
    requires k > 0
    ensures Unshift(Xor(x, Shr(x, k)), k) == x
  {
    var z := Shr(x, k);
    var y := Xor(x, z);
    ShrLess(x, k);
    if x == 0 {
    } else {
      UnshiftLeft(z, k);
      ShrXor(x, z, k);
      XorAssoc(x, z, z);
      XorSelf(z);
      XorZero(x);
      if y == 0 {
        // then x is its own shift, which is smaller
        assert Xor(0, z) == x;
        XorComm(0, z);
        XorZero(z);
      }
    }
  }

  lemma {:induction false} UnshiftRight(y: nat, k: nat)
    requires k > 0
    ensures Xor(Unshift(y, k), Shr(Unshift(y, k), k)) == y
  {
    if y != 0 {
      var z := Shr(y, k);
      ShrLess(y, k);
      UnshiftRight(z, k);
      var w := Unshift(z, k);
      // Unshift(y) is y ^ w, and shifted it is z ^ (w >> k)
      ShrXor(y, w, k);
      XorAssoc(w, Shr(w, k), Shr(w, k));
      XorSelf(Shr(w, k));
      XorZero(w);
      assert Xor(z, Shr(w, k)) == w;
      XorAssoc(y, w, w);
      XorSelf(w);
      XorZero(y);
    } else {
      ShrZero(k);
    }
  }

  lemma {:induction false} ShrZero(k: nat)
    ensures Shr(0, k) == 0
  {
    if k > 0 {
      ShrZero(k - 1);
    }
  }

  lemma {:induction false} UnshiftBelow(y: nat, k: nat, p: nat)
    requires k > 0 && y < Pow2(p)
    ensures Unshift(y, k) < Pow2(p)
    decreases y
  {
    if y != 0 {
      ShrLess(y, k);
      UnshiftBelow(Shr(y, k), k, p);
      XorBelow(y, Unshift(Shr(y, k), k), p);
    }
  }

  function Unxor(y: Word, k: nat): Word
    requires k > 0
  {
    WordBits();
    UnshiftBelow(y, k, 32);
    Unshift(y, k)
  }

  lemma ModUnique(q: int, r: int)
    requires 0 <= r < M
    ensures (q * M + r) % M == r
  {
  }

  /** c and d are inverse to each other modulo 2^32. */
  predicate Inverses(c: nat, d: nat) {
    (c * d) % M == 1
  }

  lemma Scale(x: Word, c: nat, d: nat)
    requires Inverses(c, d)
    ensures ((x * c) % M * d) % M == x
  {
    var q, k := x * c / M, c * d / M;
    var r := (x * c) % M;
    assert x * c == q * M + r && c * d == k * M + 1;
    calc {
      r * d;
      (x * c - q * M) * d;
      x * (c * d) - q * M * d;
      x * (k * M + 1) - q * M * d;
      (x * k - q * d) * M + x;
    }
    ModUnique(x * k - q * d, x);
  }

  const BY_1025 := 3222273025
  const BY_9 := 954437177
  const BY_32769 := 1073709057

  function Unsum(g: Word, b: Byte): Word {
    ((g + M - b) % M * BY_1025) % M
  }

  function Unmix(y: Word, b: Byte): Word {
    Unsum(Unxor(y, 6), b)
  }

  function Unfinish(y: Word): Word {
    (Unxor((y * BY_32769) % M, 11) * BY_9) % M
  }

  function Unupdate(y: Word, buf: seq<Byte>): Word {
    if buf == [] then y else Unmix(Unupdate(y, buf[1..]), buf[0])
  }

  lemma Constants()
    ensures Inverses(1025, BY_1025) && Inverses(BY_1025, 1025)
    ensures Inverses(9, BY_9) && Inverses(BY_9, 9)
    ensures Inverses(32769, BY_32769) && Inverses(BY_32769, 32769)
  {
  }

  /** Adding a byte to a word wraps around at most once. */
  lemma AddByte(x: nat, b: Byte)
    ensures var r := x % M; (x + b) % M == if r + b < M then r + b else r + b - M
  {
    var q, r := x / M, x % M;
    if r + b < M {
      ModUnique(q, r + b);
    } else {
      ModUnique(q + 1, r + b - M);
    }
  }

  lemma AddSub(x: nat, b: Byte)
    ensures ((x + b) % M + M - b) % M == x % M
    ensures ((x + M - b) % M + b) % M == x % M
  {
    AddByte(x, b);
    AddByte(x + M - b, b);
    ModUnique(1, x % M);
    AddByte((x + M - b) % M, b);
    ModUnique(x / M + 1, x % M);
  }

  lemma AddMod(x: nat, b: Byte)
    ensures (x + b) % M == (x % M + b) % M
  {
    AddByte(x, b);
    AddByte(x % M, b);
  }

  lemma SmearInverse(y: Word, k: nat)
    requires k > 0
    ensures Unxor(Smear(y, k), k) == y && Smear(Unxor(y, k), k) == y
  {
    UnshiftLeft(y, k);
    UnshiftRight(y, k);
  }

  lemma SumInverse(h: Word, b: Byte)
    ensures Unsum(MixSum(h, b), b) == h
  {
    Constants();
    AddSub(h * 1025, b);
    Scale(h, 1025, BY_1025);
  }

  lemma SumOfUnsum(g: Word, h: Word, b: Byte)
    requires (g * 1025) % M == (h + M - b) % M
    ensures MixSum(g, b) == h
  {
    AddMod(g * 1025, b);
    AddSub(h, b);
  }

  lemma SumInverseRight(h: Word, b: Byte)
    ensures MixSum(Unsum(h, b), b) == h
  {
    hide Inverses, MixSum;
    Constants();
    Scale((h + M - b) % M, BY_1025, 1025);
    SumOfUnsum(Unsum(h, b), h, b);
  }

  lemma MixInverse(h: Word, b: Byte)
    ensures Unmix(Mix(h, b), b) == h
    ensures Mix(Unmix(h, b), b) == h
  {
    hide MixSum, Unsum, Smear, Unxor;
    SmearInverse(MixSum(h, b), 6);
    SumInverse(h, b);
    SumInverseRight(Unxor(h, 6), b);
    SmearInverse(h, 6);
  }

  lemma FinishInverse(h: Word)
    ensures Unfinish(Finish(h)) == h
    ensures Finish(Unfinish(h)) == h
  {
    hide Smear, Unxor;
    Constants();
    var g: Word := (h * 9) % M;
    Scale(Smear(g, 11), 32769, BY_32769);
    SmearInverse(g, 11);
    Scale(h, 9, BY_9);
    var y: Word := (h * BY_32769) % M;
    Scale(Unxor(y, 11), BY_9, 9);
    SmearInverse(y, 11);
    Scale(h, BY_32769, 32769);
  }

  // ------------------------------------------------------------------- theorems

  /** For a fixed byte string, update is a bijection on the 32-bit state. */
  lemma {:induction false} UpdateBijective(h: Word, buf: seq<Byte>)
    ensures Unupdate(Update(h, buf), buf) == h
    ensures Update(Unupdate(h, buf), buf) == h
    decreases |buf|
  {
    hide Mix, Unmix;
    if buf != [] {
      UpdateBijective(Mix(h, buf[0]), buf[1..]);
      UpdateBijective(h, buf[1..]);
      MixInverse(h, buf[0]);
      MixInverse(Unupdate(h, buf[1..]), buf[0]);
    }
  }

  /** And so is update followed by finish: the inverse undoes it on both sides. */
  lemma HashBijective(h: Word, buf: seq<Byte>)
    ensures Unupdate(Unfinish(Finish(Update(h, buf))), buf) == h
    ensures Finish(Update(Unupdate(Unfinish(h), buf), buf)) == h
  {
    hide Finish, Unfinish, Update, Unupdate;
    FinishInverse(Update(h, buf));
    FinishInverse(h);
    UpdateBijective(h, buf);
    UpdateBijective(Unfinish(h), buf);
  }

  lemma {:induction false} UpdateConcat(h: Word, a: seq<Byte>, b: seq<Byte>)
    ensures Update(h, a + b) == Update(Update(h, a), b)
    decreases |a|
  {
    hide Mix;
    if a == [] {
      assert a + b == b;
    } else {
      assert (a + b)[1..] == a[1..] + b;
      UpdateConcat(Mix(h, a[0]), a[1..], b);
    }
  }

  lemma UpdateOne(h: Word, x: Byte)
    ensures Update(h, [x]) == Mix(h, x)
  {
    hide Mix;
    assert [x][1..] == [];
  }

  lemma MixApart(h: Word, x: Byte, y: Byte)
    requires x != y
    ensures Mix(h, x) != Mix(h, y)
  {
    hide Smear, Unxor, MixSum;
    SmearInverse(MixSum(h, x), 6);
    SmearInverse(MixSum(h, y), 6);
    SameSum(h, x, y);
  }

  lemma SameSum(h: Word, x: Byte, y: Byte)
    requires x != y
    ensures MixSum(h, x) != MixSum(h, y)
  {
  }

  /** Strings of one length that differ in exactly one byte never collide. */
  lemma {:induction false} OneByteApart(a: seq<Byte>, x: Byte, y: Byte, b: seq<Byte>)
    requires x != y
    ensures HashOf(a + [x] + b) != HashOf(a + [y] + b)
  {
    hide Finish, Unfinish, Update, Unupdate, Mix;
    var h := Update(0, a);
    UpdateConcat(0, a, [x]);
    UpdateConcat(0, a, [y]);
    UpdateConcat(0, a + [x], b);
    UpdateConcat(0, a + [y], b);
    UpdateOne(h, x);
    UpdateOne(h, y);
    MixApart(h, x, y);
    UpdateBijective(Mix(h, x), b);
    UpdateBijective(Mix(h, y), b);
    FinishInverse(Update(Mix(h, x), b));
    FinishInverse(Update(Mix(h, y), b));
  }

  // ------------------------------------------------------- bit by bit, in numbers

  /** Bit i of a number. */
  function Bit(a: nat, i: nat): nat
  {
    PowPositive(i);
    a / Pow2(i) % 2
  }

  lemma {:induction false} PowPositive(i: nat)
    ensures Pow2(i) > 0
  {
    if i > 0 {
      PowPositive(i - 1);
    }
  }

  lemma HalfThen(a: nat, p: nat)
    requires p > 0
    ensures a / (2 * p) == a / 2 / p
  {
    var q, r := a / (2 * p), a % (2 * p);
    assert a == q * p * 2 + r;
    assert a / 2 == q * p + r / 2 && r / 2 < p;
    QuotientIs(q, p, r / 2);
  }

  lemma QuotientIs(q: nat, p: nat, r: nat)
    requires r < p
    ensures (q * p + r) / p == q
  {
    var k := (q * p + r) / p;
    MulMono(q + 1, k, p);
    MulMono(k + 1, q, p);
  }

  lemma MulMono(a: nat, b: nat, p: nat)
    ensures a <= b ==> a * p <= b * p
  {
  }

  lemma BitHalf(a: nat, i: nat)
    ensures Bit(a, i + 1) == Bit(a / 2, i)
    ensures Bit(a, 0) == a % 2
  {
    PowPositive(i);
    HalfThen(a, Pow2(i));
  }

  lemma SumOfLow(x: nat, y: nat)
    requires x < 2 && y < 2
    ensures (x + y) % 2 == if x == y then 0 else 1
  {
  }

  lemma XorLow(a: nat, b: nat)
    ensures Bit(Xor(a, b), 0) == (Bit(a, 0) + Bit(b, 0)) % 2
  {
    hide Bit, Xor;
    XorBits(a, b);
    BitHalf(a, 0);
    BitHalf(b, 0);
    BitHalf(Xor(a, b), 0);
    SumOfLow(a % 2, b % 2);
  }

  /** Exclusive or adds bits without carry, */
  lemma {:induction false} XorIs(a: nat, b: nat, i: nat)
    ensures Bit(Xor(a, b), i) == (Bit(a, i) + Bit(b, i)) % 2
    decreases i
  {
    hide Bit, Xor;
    if i == 0 {
      XorLow(a, b);
    } else {
      XorBits(a, b);
      BitHalf(a, i - 1);
      BitHalf(b, i - 1);
      BitHalf(Xor(a, b), i - 1);
      XorIs(a / 2, b / 2, i - 1);
    }
  }

  /** and a right shift by k moves bit i + k to bit i. */
  lemma {:induction false} ShrIs(a: nat, k: nat, i: nat)
    ensures Bit(Shr(a, k), i) == Bit(a, i + k)
    decreases k
  {
    hide Bit;
    if k > 0 {
      ShrIs(a / 2, k - 1, i);
      BitHalf(a, i + k - 1);
    }
  }

  /** Mixing in a byte, in the operations of the source: the byte and the state
      shifted left by 10 are added, and bit i + 6 is added to bit i. */
  lemma MixIs(h: Word, b: Byte, i: nat)
    ensures var g := (h + h * 1024 + b) % 0x1_0000_0000;
      Bit(Mix(h, b), i) == (Bit(g, i) + Bit(g, i + 6)) % 2
  {
    hide Bit, Xor, Shr;
    var g := MixSum(h, b);
    XorIs(g, Shr(g, 6), i);
    ShrIs(g, 6, i);
  }

  /** Finishing: a shift left by 3 is added, then bit i + 11 is added to bit i,
      then a shift left by 15 is added. */
  lemma FinishIs(h: Word) returns (x: Word)
    ensures var g := (h + h * 8) % 0x1_0000_0000;
      forall i: nat :: Bit(x, i) == (Bit(g, i) + Bit(g, i + 11)) % 2
    ensures Finish(h) == (x + x * 32768) % 0x1_0000_0000
  {
    hide Bit, Xor, Shr;
    var g: Word := (h + h * 8) % 0x1_0000_0000;
    XorBound(g, 11);
    x := Xor(g, Shr(g, 11));
    forall i: nat
      ensures Bit(x, i) == (Bit(g, i) + Bit(g, i + 11)) % 2
    {
      XorIs(g, Shr(g, 11), i);
      ShrIs(g, 11, i);
    }
  }

  /** The state starts at zero, and each byte is mixed in once, in order. */
  lemma HashIs(h: Word, buf: seq<Byte>, b: Byte)
    ensures HashOf([]) == 0 && Update(h, []) == h
    ensures Update(h, buf + [b]) == Mix(Update(h, buf), b)
  {
    hide Mix, Finish;
    FinishZero();
    UpdateConcat(h, buf, [b]);
    UpdateOne(Update(h, buf), b);
  }

  lemma FinishZero()
    ensures Finish(0) == 0
  {
    ShrZero(11);
    XorZero(0);
  }

  // -------------------------------------------------------------------- the code

  /** A left shift of a 32-bit word. */
  function Shl(h: Word, f: nat): Word {
    (h * f) % M
  }

  method HashUpdate(hash: Word, buf: seq<Byte>) returns (h: Word)
    ensures h == Update(hash, buf)
  {
    hide Mix;
    h := hash;
    for i := 0 to |buf|
      invariant Update(h, buf[i..]) == Update(hash, buf)
    {
      assert buf[i..][1..] == buf[i + 1..];
      SumStep(h, buf[i]);
      XorBound(MixSum(h, buf[i]), 6);
      MixSteps(h, buf[i]);
      h := (h + (buf[i] + Shl(h, 1024)) % M) % M;
      h := Xor(h, Shr(h, 6));
    }
  }

  lemma SumStep(h: Word, b: Byte)
    ensures (h + (b + Shl(h, 1024)) % M) % M == MixSum(h, b)
  {
  }

  lemma MixSteps(h: Word, b: Byte)
    ensures Xor(MixSum(h, b), Shr(MixSum(h, b), 6)) == Mix(h, b)
  {
    hide MixSum, Xor, Shr;
  }

  lemma AddShifted(x: nat, y: nat)
    ensures (x + y % M) % M == (x + y) % M
  {
    var q := y / M;
    assert x + y == q * M + (x + y % M);
    ModShift(q, x + y % M);
  }

  lemma ModShift(q: nat, n: nat)
    ensures (q * M + n) % M == n % M
  {
    var k := n / M;
    assert q * M + n == (q + k) * M + n % M;
    ModUnique(q + k, n % M);
  }

  method HashFinish(hash: Word) returns (h: Word)
    ensures h == Finish(hash)
  {
    hide Xor, Shr;
    h := hash;
    AddShifted(h, h * 8);
    h := (h + Shl(h, 8)) % M;
    XorBound(h, 11);
    h := Xor(h, Shr(h, 11));
    AddShifted(h, h * 32768);
    h := (h + Shl(h, 32768)) % M;
  }

  /** b6b_hash */
  method ComputeHash(buf: seq<Byte>) returns (h: Word)
    ensures h == HashOf(buf)
  {
    h := HashUpdate(0, buf);
    h := HashFinish(h);
  }
}
