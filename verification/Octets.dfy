/**
 * Numbers as bytes: single octets, 32-bit words in network order, and the 8-bit checksum of a word.
 */
module Octets {
  import opened Chunks

  const TOP: nat := 0x8000_0000

  function Octet(n: nat): Byte
    requires n < 256
  {
    n as bv8
  }

  function Number(b: Byte): nat {
    b as nat
  }

  lemma OctetOfNumber(b: Byte)
    ensures Number(b) < 256 && Octet(Number(b)) == b
  {
  }

  lemma NextNumber(b: Byte)
    requires b != 0xff
    ensures (b + 1) as int == b as int + 1
  {
  }

  lemma LastNumber(b: Byte)
    ensures b == 0xff ==> b as int == 255
    ensures 0 as bv8 as int == 0
  {
  }

  /** Every number below 256 is that of some byte. */
  lemma {:induction false} ByteFor(n: nat) returns (b: Byte)
    requires n < 256
    ensures Number(b) == n
  {
    if n == 0 {
      b := 0;
    } else {
      b := ByteFor(n - 1);
      LastNumber(b);
      NextNumber(b);
      b := b + 1;
    }
  }

  lemma NumberOfOctet(n: nat)
    requires n < 256
    ensures Number(Octet(n)) == n
  {
    hide Number, Octet;
    var b := ByteFor(n);
    OctetOfNumber(b);
  }

  /** A 32-bit number, highest byte first. */
  function Word4(n: nat): (w: seq<Byte>)
    requires n < 2 * TOP
    ensures |w| == 4
  {
    [Octet(n / 0x100_0000), Octet(n / 0x1_0000 % 256), Octet(n / 256 % 256), Octet(n % 256)]
  }

  function Number4(w: seq<Byte>): nat
    requires |w| == 4
  {
    ((Number(w[0]) * 256 + Number(w[1])) * 256 + Number(w[2])) * 256 + Number(w[3])
  }

  lemma Digits(n: nat, a: nat, b: nat, c: nat, d: nat)
    requires a == n / 0x100_0000 && b == n / 0x1_0000 % 256 && c == n / 256 % 256 && d == n % 256
    ensures ((a * 256 + b) * 256 + c) * 256 + d == n
  {
  }

  lemma DigitsBack(n: nat, a: nat, b: nat, c: nat, d: nat)
    requires a < 256 && b < 256 && c < 256 && d < 256 && n == ((a * 256 + b) * 256 + c) * 256 + d
    ensures n < 2 * TOP && a == n / 0x100_0000 && b == n / 0x1_0000 % 256 && c == n / 256 % 256 && d == n % 256
  {
  }

  lemma NumberOfWord(n: nat)
    requires n < 2 * TOP
    ensures Number4(Word4(n)) == n
  {
    hide Octet, Number;
    NumberOfOctet(n / 0x100_0000);
    NumberOfOctet(n / 0x1_0000 % 256);
    NumberOfOctet(n / 256 % 256);
    NumberOfOctet(n % 256);
    Digits(n, n / 0x100_0000, n / 0x1_0000 % 256, n / 256 % 256, n % 256);
  }

  lemma WordOfNumber(w: seq<Byte>)
    requires |w| == 4
    ensures Number4(w) < 2 * TOP && Word4(Number4(w)) == w
  {
    hide Octet, Number;
    OctetOfNumber(w[0]);
    OctetOfNumber(w[1]);
    OctetOfNumber(w[2]);
    OctetOfNumber(w[3]);
    DigitsBack(Number4(w), Number(w[0]), Number(w[1]), Number(w[2]), Number(w[3]));
  }

  /** The four bytes are the digits of the number to the base 256, the highest first. */
  lemma WordDigits(n: nat)
    requires n < 2 * TOP
    ensures var w := Word4(n);
      w[0] as nat * 0x100_0000 + w[1] as nat * 0x1_0000 + w[2] as nat * 0x100 + w[3] as nat == n
  {
    hide Octet, Number4;
    var w := Word4(n);
    NumberOfOctet(n / 0x100_0000);
    NumberOfOctet(n / 0x1_0000 % 256);
    NumberOfOctet(n / 256 % 256);
    NumberOfOctet(n % 256);
    Digits(n, w[0] as nat, w[1] as nat, w[2] as nat, w[3] as nat);
  }

  // --- The checksum ---

  function Half8(c: Byte): Byte {
    (c >> 1) ^ (if c & 1 == 1 then 0xB2 else 0)
  }

  function Bits8(c: Byte, n: nat): Byte {
    if n == 0 then c else Half8(Bits8(c, n - 1))
  }

  function Flip8(c: Byte): Byte {
    c ^ 0xff
  }

  /** An entry of the checksum table: CRC-8/KOOP of one byte, complemented before and after. */
  function Table8(i: Byte): Byte {
    Flip8(Bits8(Flip8(i), 8))
  }

  function Xor8(a: Byte, b: Byte): Byte {
    a ^ b
  }

  function Mix8(c: Byte, b: Byte): Byte {
    Table8(Xor8(c, b))
  }

  /** The checksum of a word in network order, taken from its lowest byte on. */
  function SizeChecksum(w: seq<Byte>): Byte
    requires |w| == 4
  {
    Mix8(Mix8(Mix8(Mix8(0, w[3]), w[2]), w[1]), w[0])
  }

  lemma ZeroXor(b: Byte)
    ensures Xor8(0, b) == b
  {
  }

  /** The table is gone through for the last byte first. */
  lemma ChecksumIs(w: seq<Byte>)
    requires |w| == 4
    ensures SizeChecksum(w) == Table8(Xor8(Table8(Xor8(Table8(Xor8(Table8(w[3]), w[2])), w[1])), w[0]))
  {
    hide Table8, Xor8;
    ZeroXor(w[3]);
  }

  lemma EightHalves(c: Byte)
    ensures Bits8(c, 8) == Half8(Half8(Half8(Half8(Half8(Half8(Half8(Half8(c))))))))
  {
    hide Half8;
    assert Bits8(c, 0) == c;
    assert Bits8(c, 1) == Half8(c);
    assert Bits8(c, 2) == Half8(Bits8(c, 1));
    assert Bits8(c, 3) == Half8(Bits8(c, 2));
    assert Bits8(c, 4) == Half8(Bits8(c, 3));
    assert Bits8(c, 5) == Half8(Bits8(c, 4));
    assert Bits8(c, 6) == Half8(Bits8(c, 5));
    assert Bits8(c, 7) == Half8(Bits8(c, 6));
  }

  /** The entries for no bit and for each single bit. */
  lemma TableEntries()
    ensures Table8(0x00) == 0xea && Table8(0x01) == 0xd4 && Table8(0x02) == 0x96 && Table8(0x04) == 0x12
    ensures Table8(0x08) == 0x7f && Table8(0x10) == 0xa5 && Table8(0x20) == 0x74 && Table8(0x40) == 0xb3
    ensures Table8(0x80) == 0x58
  {
    hide Bits8;
    EightHalves(0xff);
    EightHalves(0xfe);
    EightHalves(0xfd);
    EightHalves(0xfb);
    EightHalves(0xf7);
    EightHalves(0xef);
    EightHalves(0xdf);
    EightHalves(0xbf);
    EightHalves(0x7f);
  }

  /** The checksum of the size of a record of eight bytes that has metas. */
  lemma OneChecksum()
    ensures SizeChecksum([0x80, 0x00, 0x00, 0x08]) == 0x2D
  {
    hide Bits8;
    EightHalves(0xf7);
    assert Table8(0x08) == 0x7f;
    EightHalves(0x80);
    assert Table8(0x7f) == 0x4d;
    EightHalves(0xb2);
    assert Table8(0x4d) == 0xe0;
    EightHalves(0x9f);
    assert Table8(0x60) == 0x2d;
  }

  lemma Half8Xor(a: Byte, b: Byte)
    ensures Half8(Xor8(a, b)) == Xor8(Half8(a), Half8(b))
  {
  }

  lemma {:induction false} Bits8Xor(a: Byte, b: Byte, n: nat)
    ensures Bits8(Xor8(a, b), n) == Xor8(Bits8(a, n), Bits8(b, n))
  {
    hide Half8, Xor8;
    if n > 0 {
      Bits8Xor(a, b, n - 1);
      Half8Xor(Bits8(a, n - 1), Bits8(b, n - 1));
    }
  }

  lemma FlipParts(a: Byte, b: Byte)
    ensures Flip8(Xor8(a, b)) == Xor8(Xor8(Flip8(a), Flip8(b)), Flip8(0))
  {
    assert (a ^ b) ^ 0xff == ((a ^ 0xff) ^ (b ^ 0xff)) ^ (0 ^ 0xff);
  }

  lemma FlipThree(a: Byte, b: Byte, c: Byte)
    ensures Flip8(Xor8(Xor8(a, b), c)) == Xor8(Xor8(Flip8(a), Flip8(b)), Flip8(c))
  {
    assert ((a ^ b) ^ c) ^ 0xff == ((a ^ 0xff) ^ (b ^ 0xff)) ^ (c ^ 0xff);
  }

  /** Every other entry is made of these. */
  lemma TableMade(a: Byte, b: Byte)
    ensures Table8(Xor8(a, b)) == Xor8(Xor8(Table8(a), Table8(b)), Table8(0))
  {
    hide Bits8, Flip8, Xor8;
    var x, y, z := Flip8(a), Flip8(b), Flip8(0);
    FlipParts(a, b);
    Bits8Xor(Xor8(x, y), z, 8);
    Bits8Xor(x, y, 8);
    FlipThree(Bits8(x, 8), Bits8(y, 8), Bits8(z, 8));
  }

  lemma Half8Injective(a: Byte, b: Byte)
    requires Half8(a) == Half8(b)
    ensures a == b
  {
    HalfBits(a, b);
  }

  lemma HalfBits(a: Byte, b: Byte)
    ensures (a >> 1) ^ (if a & 1 == 1 then 0xB2 else 0) == (b >> 1) ^ (if b & 1 == 1 then 0xB2 else 0) ==> a == b
  {
  }

  lemma {:induction false} Bits8Injective(a: Byte, b: Byte, n: nat)
    requires Bits8(a, n) == Bits8(b, n)
    ensures a == b
  {
    hide Half8;
    if n > 0 {
      Half8Injective(Bits8(a, n - 1), Bits8(b, n - 1));
      Bits8Injective(a, b, n - 1);
    }
  }

  lemma Flip8Injective(a: Byte, b: Byte)
    ensures Flip8(a) == Flip8(b) ==> a == b
  {
    assert a ^ 0xff == b ^ 0xff ==> a == b;
  }

  lemma XorInjective(c: Byte, d: Byte, a: Byte, b: Byte)
    ensures c ^ a == c ^ b ==> a == b
    ensures c ^ a == d ^ a ==> c == d
  {
  }

  /** Changing either argument alone changes the result. */
  lemma Mix8Injective(c: Byte, d: Byte, a: Byte, b: Byte)
    ensures Mix8(c, a) == Mix8(c, b) ==> a == b
    ensures Mix8(c, a) == Mix8(d, a) ==> c == d
  {
    hide Bits8, Flip8;
    XorInjective(c, d, a, b);
    Table8Injective(c ^ a, c ^ b);
    Table8Injective(c ^ a, d ^ a);
  }

  lemma Table8Injective(i: Byte, j: Byte)
    ensures Table8(i) == Table8(j) ==> i == j
  {
    hide Bits8, Flip8;
    Flip8Injective(Bits8(Flip8(i), 8), Bits8(Flip8(j), 8));
    if Bits8(Flip8(i), 8) == Bits8(Flip8(j), 8) {
      Bits8Injective(Flip8(i), Flip8(j), 8);
      Flip8Injective(i, j);
    }
  }

  /** Changing one byte of a word always changes its checksum. */
  lemma ChecksumChanges(w: seq<Byte>, k: nat, x: Byte)
    requires |w| == 4 && k < 4 && x != w[k]
    ensures SizeChecksum(w[k := x]) != SizeChecksum(w)
  {
    hide Mix8;
    var v := w[k := x];
    var a3, b3 := Mix8(0, w[3]), Mix8(0, v[3]);
    Mix8Injective(0, 0, w[3], v[3]);
    var a2, b2 := Mix8(a3, w[2]), Mix8(b3, v[2]);
    Mix8Injective(a3, b3, w[2], v[2]);
    var a1, b1 := Mix8(a2, w[1]), Mix8(b2, v[1]);
    Mix8Injective(a2, b2, w[1], v[1]);
    Mix8Injective(a1, b1, w[0], v[0]);
  }
}
