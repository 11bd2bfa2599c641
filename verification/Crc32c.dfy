/**
 * CRC32C: the table-driven, slicing-by-4 computation against the bit-at-a-time definition.
 */
module Crc32c {
  import opened Chunks

  // --- Words and bytes ---

  function Xor(a: bv32, b: bv32): bv32 {
    a ^ b
  }

  function Half(c: bv32): bv32 {
    c >> 1
  }

  predicate Odd(c: bv32) {
    c & 1 == 1
  }

  function Up(c: bv32): bv32 {
    c << 8
  }

  function Down(c: bv32): bv32 {
    c >> 8
  }

  /** Shifting up by a byte loses nothing. */
  predicate Fits(c: bv32) {
    c <= 0x00ff_ffff
  }

  function Word(b: Byte): bv32 {
    b as bv32
  }

  function Low(c: bv32): Byte {
    (c & 0xff) as bv8
  }

  function Flip(c: bv32): bv32 {
    c ^ 0xffff_ffff
  }

  function Wide(c: bv32): bv64 {
    c as bv64
  }

  // --- The bitwise definition ---

  /** What is subtracted when the bit shifted out is set: the reflected polynomial. */
  function Term(odd: bool): bv32 {
    if odd then 0x82F6_3B78 else 0
  }

  function BitStep(c: bv32): bv32 {
    Xor(Half(c), Term(Odd(c)))
  }

  function Bits(c: bv32, n: nat): bv32 {
    if n == 0 then c else BitStep(Bits(c, n - 1))
  }

  function ByteStep(c: bv32, b: Byte): bv32 {
    Bits(Xor(c, Word(b)), 8)
  }

  /** The register after the first `n` bytes of `s`. */
  function Register(c: bv32, s: seq<Byte>, n: nat): bv32
    requires n <= |s|
  {
    if n == 0 then c else ByteStep(Register(c, s, n - 1), s[n - 1])
  }

  /** The CRC of `s` continued from `crc`, by the definition. */
  function Crc(crc: bv32, s: seq<Byte>): bv32 {
    Flip(Register(Flip(crc), s, |s|))
  }

  // --- Facts about words ---

  lemma XorAssoc(a: bv32, b: bv32, c: bv32)
    ensures Xor(Xor(a, b), c) == Xor(a, Xor(b, c))
  {
    assert (a ^ b) ^ c == a ^ (b ^ c);
  }

  lemma XorSym(a: bv32, b: bv32)
    ensures Xor(a, b) == Xor(b, a)
  {
    assert a ^ b == b ^ a;
  }

  lemma XorPairs(a: bv32, b: bv32, c: bv32, d: bv32)
    ensures Xor(Xor(a, b), Xor(c, d)) == Xor(Xor(a, c), Xor(b, d))
  {
    hide Xor;
    XorAssoc(a, b, Xor(c, d));
    XorAssoc(b, c, d);
    XorSym(b, c);
    XorAssoc(c, b, d);
    XorAssoc(a, c, Xor(b, d));
  }

  lemma HalfXor(a: bv32, b: bv32)
    ensures Half(Xor(a, b)) == Xor(Half(a), Half(b))
  {
    assert (a ^ b) >> 1 == (a >> 1) ^ (b >> 1);
  }

  lemma OddXor(a: bv32, b: bv32)
    ensures Odd(Xor(a, b)) == (Odd(a) != Odd(b))
  {
    assert ((a ^ b) & 1 == 1) == ((a & 1 == 1) != (b & 1 == 1));
  }

  lemma TermXor(p: bool, q: bool)
    ensures Term(p != q) == Xor(Term(p), Term(q))
  {
  }

  lemma FlipTwice(c: bv32)
    ensures Flip(Flip(c)) == c
  {
    assert (c ^ 0xffff_ffff) ^ 0xffff_ffff == c;
  }

  lemma DownFits(c: bv32)
    ensures Fits(Down(c))
  {
    assert c >> 8 <= 0x00ff_ffff;
  }

  /** A word is its low byte and the rest. */
  lemma LowAndRest(c: bv32)
    ensures c == Xor(Word(Low(c)), Up(Down(c)))
  {
    assert c == ((c & 0xff) as bv8) as bv32 ^ ((c >> 8) << 8);
  }

  lemma LowXor(c: bv32, b: Byte)
    ensures Low(Xor(c, Word(b))) == Low(c) ^ b && Down(Xor(c, Word(b))) == Down(c)
  {
    assert ((c ^ (b as bv32)) & 0xff) as bv8 == ((c & 0xff) as bv8) ^ b;
    assert (c ^ (b as bv32)) >> 8 == c >> 8;
  }

  // --- The step is linear, and moves zeros out by shifting ---

  lemma BitStepLinear(a: bv32, b: bv32)
    ensures BitStep(Xor(a, b)) == Xor(BitStep(a), BitStep(b))
  {
    hide Xor, Half, Odd, Term;
    HalfXor(a, b);
    OddXor(a, b);
    TermXor(Odd(a), Odd(b));
    XorPairs(Half(a), Half(b), Term(Odd(a)), Term(Odd(b)));
  }

  lemma {:induction false} BitsLinear(a: bv32, b: bv32, n: nat)
    ensures Bits(Xor(a, b), n) == Xor(Bits(a, n), Bits(b, n))
  {
    hide Xor, BitStep;
    if n > 0 {
      BitsLinear(a, b, n - 1);
      BitStepLinear(Bits(a, n - 1), Bits(b, n - 1));
    }
  }

  lemma {:induction false} BitsMore(c: bv32, n: nat, k: nat)
    ensures Bits(Bits(c, n), k) == Bits(c, n + k)
  {
    hide BitStep;
    if k > 0 {
      BitsMore(c, n, k - 1);
    }
  }

  function Twice(c: bv32): bv32 {
    c << 1
  }

  predicate Small(c: bv32) {
    c <= 0x7fff_ffff
  }

  lemma TwiceIs(c: bv32)
    ensures Small(c) ==> Half(Twice(c)) == c
    ensures !Odd(Twice(c)) && Xor(c, 0) == c
  {
    assert c <= 0x7fff_ffff ==> (c << 1) >> 1 == c;
    assert (c << 1) & 1 == 0 && c ^ 0 == c;
  }

  lemma Halves(c: bv32)
    requires Small(c)
    ensures BitStep(Twice(c)) == c
  {
    hide Twice, Small, Half, Odd, Xor;
    TwiceIs(c);
  }

  lemma ShiftEight(c: bv32)
    ensures (((((((c << 1) << 1) << 1) << 1) << 1) << 1) << 1) << 1 == c << 8
  {
  }

  lemma UpIs(c: bv32)
    ensures Up(c) == Twice(Twice(Twice(Twice(Twice(Twice(Twice(Twice(c))))))))
  {
    ShiftEight(c);
  }

  lemma SmallOnes(c: bv32)
    requires c <= 0x00ff_ffff
    ensures c <= 0x7fff_ffff && c << 1 <= 0x7fff_ffff && (c << 1) << 1 <= 0x7fff_ffff
      && ((c << 1) << 1) << 1 <= 0x7fff_ffff
    ensures (((c << 1) << 1) << 1) << 1 <= 0x7fff_ffff && ((((c << 1) << 1) << 1) << 1) << 1 <= 0x7fff_ffff
    ensures (((((c << 1) << 1) << 1) << 1) << 1) << 1 <= 0x7fff_ffff
    ensures ((((((c << 1) << 1) << 1) << 1) << 1) << 1) << 1 <= 0x7fff_ffff
  {
  }

  lemma SmallAlong(c: bv32)
    requires Fits(c)
    ensures Small(c) && Small(Twice(c)) && Small(Twice(Twice(c))) && Small(Twice(Twice(Twice(c))))
    ensures Small(Twice(Twice(Twice(Twice(c))))) && Small(Twice(Twice(Twice(Twice(Twice(c))))))
    ensures Small(Twice(Twice(Twice(Twice(Twice(Twice(c)))))))
    ensures Small(Twice(Twice(Twice(Twice(Twice(Twice(Twice(c))))))))
  {
    SmallOnes(c);
  }

  lemma BitsTwice(c: bv32, n: nat)
    requires Small(c)
    ensures Bits(Twice(c), n + 1) == Bits(c, n)
  {
    hide Twice, Small, BitStep;
    Halves(c);
    assert Bits(Twice(c), 1) == c by {
      assert Bits(Twice(c), 0) == Twice(c);
    }
    BitsMore(Twice(c), 1, n);
    assert 1 + n == n + 1;
  }

  /** Eight steps undo a shift by a byte. */
  lemma UpThenBits(c: bv32)
    requires Fits(c)
    ensures Bits(Up(c), 8) == c
  {
    hide Twice, Small, Fits, Up, Bits;
    UpIs(c);
    SmallAlong(c);
    var c1 := Twice(c);
    var c2 := Twice(c1);
    var c3 := Twice(c2);
    var c4 := Twice(c3);
    var c5 := Twice(c4);
    var c6 := Twice(c5);
    var c7 := Twice(c6);
    BitsTwice(c7, 7);
    BitsTwice(c6, 6);
    BitsTwice(c5, 5);
    BitsTwice(c4, 4);
    BitsTwice(c3, 3);
    BitsTwice(c2, 2);
    BitsTwice(c1, 1);
    BitsTwice(c, 0);
    BitsNone(c);
  }

  /** Eight steps on a word: those of its low byte, added to the word shifted down. */
  lemma Peel(c: bv32, n: nat)
    ensures Bits(c, n + 8) == Xor(Bits(Word(Low(c)), n + 8), Bits(Down(c), n))
  {
    hide Xor, Word, Low, Up, Down, Fits, Bits;
    LowAndRest(c);
    DownFits(c);
    UpThenBits(Down(c));
    BitsLinear(Word(Low(c)), Up(Down(c)), n + 8);
    BitsMore(Up(Down(c)), 8, n);
    assert 8 + n == n + 8;
  }

  // --- The tables ---

  /**
   * Entry `i` of table `k`: the register after byte `i` and `k` zero bytes. Table 0 comes from the bits, and each
   * further table from the one before by one more zero byte.
   */
  function Table(k: nat, i: Byte): bv32 {
    if k == 0 then Bits(Word(i), 8) else Xor(Table(0, Low(Table(k - 1, i))), Down(Table(k - 1, i)))
  }

  lemma {:induction false} TableIs(k: nat, i: Byte)
    ensures Table(k, i) == Bits(Word(i), 8 * k + 8)
  {
    hide Xor, Low, Down, Word, Bits;
    if k > 0 {
      TableIs(k - 1, i);
      var t := Table(k - 1, i);
      BitsMore(Word(i), 8 * k, 8);
      Peel(t, 0);
      BitsNone(Down(t));
      assert Table(0, Low(t)) == Bits(Word(Low(t)), 8);
    }
  }

  lemma BitsNone(c: bv32)
    ensures Bits(c, 0) == c
  {
  }

  /** One byte by table 0. */
  function TableStep(c: bv32, b: Byte): bv32 {
    Xor(Table(0, Low(c) ^ b), Down(c))
  }

  lemma TableStepIs(c: bv32, b: Byte)
    ensures TableStep(c, b) == ByteStep(c, b)
  {
    hide Xor, Low, Down, Word, Bits, Table;
    LowXor(c, b);
    Peel(Xor(c, Word(b)), 0);
    BitsNone(Down(c));
    TableIs(0, Low(c) ^ b);
  }

  // --- Four bytes at once ---

  /** The four tables applied to the bytes of a word. */
  function Slice(c: bv32): bv32 {
    Xor(Xor(Xor(Table(3, Low(c)), Table(2, Low(Down(c)))), Table(1, Low(Down(Down(c))))),
        Table(0, Low(Down(Down(Down(c))))))
  }

  lemma LastByte(c: bv32)
    ensures Down(Down(Down(Down(c)))) == 0 && Xor(c, 0) == c
  {
    assert ((((c >> 8) >> 8) >> 8) >> 8) == 0 && c ^ 0 == c;
  }

  lemma SliceIs(c: bv32)
    ensures Slice(c) == Bits(c, 32)
  {
    hide Xor, Low, Down, Word, Bits, Table;
    var c1, c2, c3 := Down(c), Down(Down(c)), Down(Down(Down(c)));
    TableIs(3, Low(c));
    TableIs(2, Low(c1));
    TableIs(1, Low(c2));
    TableIs(0, Low(c3));
    Peel(c, 24);
    Peel(c1, 16);
    Peel(c2, 8);
    Peel(c3, 0);
    LastByte(c);
    BitsNone(0);
    LastByte(Bits(Word(Low(c3)), 8));
    var t3, t2, t1, t0 := Table(3, Low(c)), Table(2, Low(c1)), Table(1, Low(c2)), Table(0, Low(c3));
    XorAssoc(Xor(t3, t2), t1, t0);
    XorAssoc(t3, t2, Xor(t1, t0));
  }

  /** A little-endian load. */
  function Load(a: Byte, b: Byte, c: Byte, d: Byte): bv32 {
    (a as bv32) | (b as bv32 << 8) | (c as bv32 << 16) | (d as bv32 << 24)
  }

  lemma LoadIs(a: Byte, b: Byte, c: Byte, d: Byte)
    ensures Load(a, b, c, d) == Xor(Word(a), Up(Xor(Word(b), Up(Xor(Word(c), Up(Word(d)))))))
    ensures Fits(Word(d)) && Fits(Xor(Word(c), Up(Word(d)))) && Fits(Xor(Word(b), Up(Xor(Word(c), Up(Word(d))))))
  {
    assert (a as bv32) | (b as bv32 << 8) | (c as bv32 << 16) | (d as bv32 << 24)
      == (a as bv32) ^ (((b as bv32) ^ (((c as bv32) ^ ((d as bv32) << 8)) << 8)) << 8);
    assert (d as bv32) <= 0x00ff_ffff && (c as bv32) ^ ((d as bv32) << 8) <= 0x00ff_ffff;
    assert (b as bv32) ^ (((c as bv32) ^ ((d as bv32) << 8)) << 8) <= 0x00ff_ffff;
  }

  /** The first byte of several can be taken in before the others. */
  lemma FirstByte(r: bv32, a: Byte, x: bv32, n: nat)
    requires Fits(x)
    ensures Bits(Xor(r, Xor(Word(a), Up(x))), n + 8) == Bits(Xor(ByteStep(r, a), x), n)
  {
    hide Xor, Word, Up, Fits, Bits;
    XorAssoc(r, Word(a), Up(x));
    BitsLinear(Xor(r, Word(a)), Up(x), 8);
    UpThenBits(x);
    BitsMore(Xor(r, Xor(Word(a), Up(x))), 8, n);
    assert 8 + n == n + 8;
  }

  /** Taking in a whole word is taking in its four bytes. */
  lemma SliceTakesFour(r: bv32, a: Byte, b: Byte, c: Byte, d: Byte)
    ensures Slice(Xor(r, Load(a, b, c, d))) == ByteStep(ByteStep(ByteStep(ByteStep(r, a), b), c), d)
  {
    hide Xor, Word, Up, Fits, Bits, Slice, Load;
    SliceIs(Xor(r, Load(a, b, c, d)));
    LoadIs(a, b, c, d);
    var x3 := Word(d);
    var x2 := Xor(Word(c), Up(x3));
    var x1 := Xor(Word(b), Up(x2));
    FirstByte(r, a, x1, 24);
    FirstByte(ByteStep(r, a), b, x2, 16);
    FirstByte(ByteStep(ByteStep(r, a), b), c, x3, 8);
  }

  // --- The accumulator is 64 bits wide ---

  function Narrow(l: bv64): bv32 {
    (l & 0xffff_ffff) as bv32
  }

  /** The place in table 0 for the next byte. */
  function Index(l: bv64, b: Byte): Byte {
    ((l & 0xff) as bv8) ^ b
  }

  function Add(t: bv32, l: bv64): bv64 {
    (t as bv64) ^ (l >> 8)
  }

  function AddWord(l: bv64, w: bv32): bv32 {
    ((l ^ (w as bv64)) & 0xffff_ffff) as bv32
  }

  /** The byte of a word that lies `k` bytes up. */
  function Part(c: bv32, k: nat): Byte {
    match k
    case 0 => (c & 0xff) as bv8
    case 1 => ((c >> 8) & 0xff) as bv8
    case 2 => ((c >> 16) & 0xff) as bv8
    case _ => (c >> 24) as bv8
  }

  lemma AddWordIs(x: bv32, w: bv32)
    ensures AddWord(Wide(x), w) == Xor(x, w)
  {
    assert (((x as bv64) ^ (w as bv64)) & 0xffff_ffff) as bv32 == x ^ w;
  }

  lemma WideLow(x: bv32)
    ensures ((x as bv64) & 0xff) as bv8 == (x & 0xff) as bv8
  {
  }

  lemma IndexIs(x: bv32, b: Byte)
    ensures Index(Wide(x), b) == Low(x) ^ b
  {
    WideLow(x);
  }

  lemma AddIs(x: bv32, t: bv32)
    ensures Add(t, Wide(x)) == Wide(Xor(t, Down(x)))
  {
    assert (t as bv64) ^ ((x as bv64) >> 8) == (t ^ (x >> 8)) as bv64;
  }

  function Final(l: bv64): bv32 {
    Narrow(l ^ 0xffff_ffff)
  }

  lemma FinalIs(x: bv32)
    ensures Final(Wide(x)) == Flip(x)
  {
    assert (((x as bv64) ^ 0xffff_ffff) & 0xffff_ffff) as bv32 == x ^ 0xffff_ffff;
  }

  /** One byte into the accumulator. */
  method Step1(l: bv64, b: Byte, ghost r: bv32) returns (l': bv64)
    requires l == Wide(r)
    ensures l' == Wide(ByteStep(r, b))
  {
    hide *;
    var c := Index(l, b);
    l' := Add(Table(0, c), l);
    IndexIs(r, b);
    AddIs(r, Table(0, c));
    TableStepIs(r, b);
    TableStepParts(r, b);
  }

  lemma TableStepParts(c: bv32, b: Byte)
    ensures TableStep(c, b) == Xor(Table(0, Low(c) ^ b), Down(c))
  {
    hide Table, Low, Down, Xor;
  }

  lemma Bytes24(c: bv32)
    ensures ((c >> 16) & 0xff) as bv8 == (((c >> 8) >> 8) & 0xff) as bv8
    ensures (c >> 24) as bv8 == ((((c >> 8) >> 8) >> 8) & 0xff) as bv8
  {
  }

  lemma PartsAre(c: bv32)
    ensures Part(c, 0) == Low(c) && Part(c, 1) == Low(Down(c)) && Part(c, 2) == Low(Down(Down(c)))
    ensures Part(c, 3) == Low(Down(Down(Down(c))))
  {
    Bytes24(c);
  }

  function Lookup(c: bv32): bv32 {
    Xor(Xor(Xor(Table(3, Part(c, 0)), Table(2, Part(c, 1))), Table(1, Part(c, 2))), Table(0, Part(c, 3)))
  }

  lemma LookupIs(c: bv32)
    ensures Lookup(c) == Slice(c)
  {
    hide Table, Low, Down, Xor, Part;
    PartsAre(c);
  }

  /** Half of Slow_CRC32: four bytes at `p` into the accumulator. */
  method Step4(l: bv64, s: seq<Byte>, p: nat, ghost r: bv32) returns (l': bv64)
    requires p + 4 <= |s| && l == Wide(Register(r, s, p))
    ensures l' == Wide(Register(r, s, p + 4))
  {
    hide *;
    var w := Load(s[p], s[p + 1], s[p + 2], s[p + 3]);
    var c := AddWord(l, w);
    l' := Wide(Lookup(c));
    AddWordIs(Register(r, s, p), w);
    LookupIs(c);
    SliceTakesFour(Register(r, s, p), s[p], s[p + 1], s[p + 2], s[p + 3]);
    RegisterFour(r, s, p);
  }

  lemma RegisterFour(r: bv32, s: seq<Byte>, p: nat)
    requires p + 4 <= |s|
    ensures Register(r, s, p + 4)
         == ByteStep(ByteStep(ByteStep(ByteStep(Register(r, s, p), s[p]), s[p + 1]), s[p + 2]), s[p + 3])
  {
    hide ByteStep;
    assert Register(r, s, p + 2) == ByteStep(ByteStep(Register(r, s, p), s[p]), s[p + 1]);
  }

  method SlowCrc32(l: bv64, s: seq<Byte>, p: nat, ghost r: bv32) returns (l': bv64, p': nat)
    requires p + 8 <= |s| && l == Wide(Register(r, s, p))
    ensures p' == p + 8 && l' == Wide(Register(r, s, p'))
  {
    hide Register;
    l' := Step4(l, s, p, r);
    l' := Step4(l', s, p + 4, r);
    p' := p + 8;
  }

  /** The next multiple of 16 from `n` on. */
  function Align(n: nat): (r: nat)
    ensures n <= r < n + 16 && r % 16 == 0
  {
    (n + 15) / 16 * 16
  }

  /** Extends `crc` by `buf`, which lies at address `at`. The register is complemented before and after. */
  method ExtendImpl(crc: bv32, buf: seq<Byte>, at: nat) returns (r: bv32)
    ensures r ^ 0xffff_ffff == Register(crc ^ 0xffff_ffff, buf, |buf|)
    ensures r == Crc(crc, buf)
  {
    hide Register, Wide, Final, ByteStep, Flip;
    var p, e := 0, |buf|;
    ghost var c := Flip(crc);
    var l := Wide(Flip(crc));
    RegisterNone(c, buf);
    var x := Align(at) - at;
    if x <= e {
      while p != x
        invariant p <= x && l == Wide(Register(c, buf, p))
      {
        l := Step1(l, buf[p], Register(c, buf, p));
        RegisterNext(c, buf, p);
        p := p + 1;
      }
    }
    while e - p >= 16
      invariant p <= e && l == Wide(Register(c, buf, p))
    {
      l, p := SlowCrc32(l, buf, p, c);
      l, p := SlowCrc32(l, buf, p, c);
    }
    while e - p >= 8
      invariant p <= e && l == Wide(Register(c, buf, p))
    {
      l, p := SlowCrc32(l, buf, p, c);
    }
    while p != e
      invariant p <= e && l == Wide(Register(c, buf, p))
    {
      l := Step1(l, buf[p], Register(c, buf, p));
      RegisterNext(c, buf, p);
      p := p + 1;
    }
    r := Final(l);
    FinalIs(Register(c, buf, p));
    CrcIs(crc, buf);
  }

  /** What is computed, with the complements written out. */
  lemma CrcIs(crc: bv32, s: seq<Byte>)
    ensures Crc(crc, s) ^ 0xffff_ffff == Register(crc ^ 0xffff_ffff, s, |s|)
  {
    hide Register;
    var x := Register(crc ^ 0xffff_ffff, s, |s|);
    assert (x ^ 0xffff_ffff) ^ 0xffff_ffff == x;
  }

  lemma RegisterNone(c: bv32, s: seq<Byte>)
    ensures Register(c, s, 0) == c
  {
  }

  lemma RegisterNext(c: bv32, s: seq<Byte>, p: nat)
    requires p < |s|
    ensures Register(c, s, p + 1) == ByteStep(Register(c, s, p), s[p])
  {
  }

  // --- The check value ---

  lemma EightBits(c: bv32, b: Byte)
    ensures ByteStep(c, b) == BitStep(BitStep(BitStep(BitStep(BitStep(BitStep(BitStep(BitStep(Xor(c, Word(b))))))))))
  {
    hide BitStep, Xor, Word;
    var x := Xor(c, Word(b));
    assert Bits(x, 0) == x;
    assert Bits(x, 1) == BitStep(x);
    assert Bits(x, 2) == BitStep(Bits(x, 1));
    assert Bits(x, 3) == BitStep(Bits(x, 2));
    assert Bits(x, 4) == BitStep(Bits(x, 3));
    assert Bits(x, 5) == BitStep(Bits(x, 4));
    assert Bits(x, 6) == BitStep(Bits(x, 5));
    assert Bits(x, 7) == BitStep(Bits(x, 6));
  }

  /** The digits "123456789", whose CRC is what CRC32C is published with. */
  function CheckInput(): seq<Byte> {
    [0x31, 0x32, 0x33, 0x34, 0x35, 0x36, 0x37, 0x38, 0x39]
  }

  lemma CheckRegister(s: seq<Byte>)
    requires s == [0x31, 0x32, 0x33, 0x34, 0x35, 0x36, 0x37, 0x38, 0x39]
    ensures Register(0xffff_ffff, s, 9) == 0x1CF9_6D7C
  {
    hide ByteStep;
    EightBits(0xFFFF_FFFF, 0x31);
    assert Register(0xffff_ffff, s, 1) == 0x6F0A_661C;
    EightBits(0x6F0A_661C, 0x32);
    assert Register(0xffff_ffff, s, 2) == 0x8CAA_3B9F;
    EightBits(0x8CAA_3B9F, 0x33);
    assert Register(0xffff_ffff, s, 3) == 0xEF84_D04D;
    EightBits(0xEF84_D04D, 0x34);
    assert Register(0xffff_ffff, s, 4) == 0x09C5_0B11;
    EightBits(0x09C5_0B11, 0x35);
    assert Register(0xffff_ffff, s, 5) == 0xE72E_DCCA;
    EightBits(0xE72E_DCCA, 0x36);
    assert Register(0xffff_ffff, s, 6) == 0xBECA_8E79;
    EightBits(0xBECA_8E79, 0x37);
    assert Register(0xffff_ffff, s, 7) == 0xEDBD_6815;
    EightBits(0xEDBD_6815, 0x38);
    assert Register(0xffff_ffff, s, 8) == 0x9F78_7F65;
    EightBits(0x9F78_7F65, 0x39);
    assert Register(0xffff_ffff, s, 9) == 0x1CF9_6D7C;
  }

  lemma CheckValue()
    ensures Crc(0, CheckInput()) == 0xE306_9283
  {
    hide Register;
    CheckRegister(CheckInput());
  }

  // --- Extending in pieces ---

  lemma {:induction false} RegisterSplit(c: bv32, a: seq<Byte>, b: seq<Byte>, n: nat)
    requires n <= |b|
    ensures Register(c, a + b, |a| + n) == Register(Register(c, a, |a|), b, n)
  {
    hide ByteStep;
    if n > 0 {
      RegisterSplit(c, a, b, n - 1);
    } else {
      RegisterPrefix(c, a, b, |a|);
    }
  }

  lemma {:induction false} RegisterPrefix(c: bv32, a: seq<Byte>, b: seq<Byte>, n: nat)
    requires n <= |a|
    ensures Register(c, a + b, n) == Register(c, a, n)
  {
    hide ByteStep;
    if n > 0 {
      RegisterPrefix(c, a, b, n - 1);
    }
  }

  /** Extending by `a` and then by `b` is extending by both at once. */
  lemma CrcConcat(crc: bv32, a: seq<Byte>, b: seq<Byte>)
    ensures Crc(Crc(crc, a), b) == Crc(crc, a + b)
  {
    hide Register, Flip;
    FlipTwice(Register(Flip(crc), a, |a|));
    RegisterSplit(Flip(crc), a, b, |b|);
  }

  // --- The bitwise form in the source ---

  method Bitwise(crc: bv32, buf: seq<Byte>) returns (c: bv32)
    ensures c == Register(crc, buf, |buf|)
  {
    hide Xor, Half, Odd, Term, Word;
    c := crc;
    for i := 0 to |buf|
      invariant c == Register(crc, buf, i)
    {
      c := Xor(c, Word(buf[i]));
      ghost var c0 := c;
      for k := 0 to 8
        invariant c == Bits(c0, k)
      {
        c := Xor(Half(c), if Odd(c) then 0x82F6_3B78 else 0);
        assert Term(Odd(Bits(c0, k))) == if Odd(Bits(c0, k)) then 0x82F6_3B78 else 0 by {
          TermIs(Odd(Bits(c0, k)));
        }
      }
    }
  }

  lemma TermIs(odd: bool)
    ensures Term(odd) == if odd then 0x82F6_3B78 else 0
  {
  }
}
