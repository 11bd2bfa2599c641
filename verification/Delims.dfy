/**
 The search of _cut_by_delim: a rolling signature of 8 bytes is compared with the signature of the
 delimiter. Plain `char` is signed, so a byte from 128 on is sign-extended when it enters a signature.
 */
module Delims {
  import opened Chunks

  type Sig = bv64

  const SIZE_MODULUS: int := 0x1_0000_0000_0000_0000

  datatype Place = Nowhere | At(pos: nat)

  function Up(x: Sig): Sig {
    x << 8
  }

  function And(x: Sig, y: Sig): Sig {
    x & y
  }

  function Or(x: Sig, y: Sig): Sig {
    x | y
  }

  /** A byte as an unsigned word. */
  function Word(c: Byte): Sig {
    c as Sig
  }

  /** static_cast<SigType>(c) of a signed char. */
  function Widen(c: Byte): Sig {
    if c < 128 then Word(c) else Or(Word(c), 0xFFFF_FFFF_FFFF_FF00)
  }

  function Shift(x: Sig, c: Byte): Sig {
    Or(Up(x), Widen(c))
  }

  /** The lowest `k` bytes. */
  function Mask(k: nat): Sig {
    if k == 0 then 0 else Or(Up(Mask(k - 1)), 0xFF)
  }

  /** The signature of the first `n` bytes, without a mask. */
  function Raw(a: seq<Byte>, n: nat): Sig
    requires n <= |a|
  {
    if n == 0 then 0 else Shift(Raw(a, n - 1), a[n - 1])
  }

  /** The rolling signature after `n` bytes. */
  function Rolling(a: seq<Byte>, n: nat, mask: Sig): Sig
    requires n <= |a|
  {
    if n == 0 then 0 else And(Shift(Rolling(a, n - 1, mask), a[n - 1]), mask)
  }

  /** The number of bytes read when the signatures agree for the first time, after more than `n` bytes. */
  function Scan(a: seq<Byte>, dsig: Sig, mask: Sig, n: nat): Place
    requires n <= |a|
    decreases |a| - n
  {
    if n == |a| then Nowhere
    else if Rolling(a, n + 1, mask) == dsig then At(n + 1)
    else Scan(a, dsig, mask, n + 1)
  }

  /** The length _cut_by_delim passes to cutn, in 64-bit arithmetic, if it finds the delimiter. */
  function Search(a: seq<Byte>, d: seq<Byte>): Place {
    if |d| > 8 || |d| > |a| then Nowhere
    else match Scan(a, Raw(d, |d|), Mask(|d|), 0) {
      case Nowhere => Nowhere
      case At(n) => At(SizeSub(n, |d|))
    }
  }

  /** n - k as a size_t. */
  function SizeSub(n: nat, k: nat): nat {
    (n - k) % SIZE_MODULUS
  }

  // ---- What is meant ----

  predicate Occurs(a: seq<Byte>, d: seq<Byte>, p: nat) {
    p + |d| <= |a| && a[p..p + |d|] == d
  }

  /** The last `k` of the first `n` bytes of `a` are the last `k` of the first `j` bytes of `d`. */
  predicate SameBack(a: seq<Byte>, n: nat, d: seq<Byte>, j: nat, k: nat)
    requires n <= |a| && j <= |d|
  {
    k == 0 || (0 < n && 0 < j && a[n - 1] == d[j - 1] && SameBack(a, n - 1, d, j - 1, k - 1))
  }

  /** The first occurrence that ends after more than `n` bytes. */
  function FirstFrom(a: seq<Byte>, d: seq<Byte>, n: nat): Place
    requires n <= |a|
    decreases |a| - n
  {
    if n == |a| then Nowhere
    else if |d| <= n + 1 && SameBack(a, n + 1, d, |d|, |d|) then At(n + 1 - |d|)
    else FirstFrom(a, d, n + 1)
  }

  /** The first occurrence of a delimiter. */
  function First(a: seq<Byte>, d: seq<Byte>): Place {
    FirstFrom(a, d, 0)
  }

  lemma SnocSame(u: seq<Byte>, x: Byte, v: seq<Byte>, y: Byte)
    ensures u + [x] == v + [y] <==> u == v && x == y
  {
    if u + [x] == v + [y] {
      assert u == (u + [x])[..|u|] && v == (v + [y])[..|v|];
      assert (u + [x])[|u|] == x && (v + [y])[|v|] == y;
    }
  }

  lemma {:induction false} SameBackIs(a: seq<Byte>, n: nat, d: seq<Byte>, j: nat, k: nat)
    requires k <= n <= |a| && k <= j <= |d|
    ensures SameBack(a, n, d, j, k) <==> a[n - k..n] == d[j - k..j]
  {
    if k > 0 {
      SameBackIs(a, n - 1, d, j - 1, k - 1);
      SnocSlice(a, n - k, n);
      SnocSlice(d, j - k, j);
      SnocSame(a[n - k..n - 1], a[n - 1], d[j - k..j - 1], d[j - 1]);
      assert n - 1 - (k - 1) == n - k && j - 1 - (k - 1) == j - k;
    }
  }

  lemma SnocSlice(a: seq<Byte>, p: nat, q: nat)
    requires p < q <= |a|
    ensures Eq(a[p..q], a[p..q - 1] + [a[q - 1]])
  {
    assert a[p..q] == a[p..q - 1] + [a[q - 1]];
  }

  lemma EndsIs(a: seq<Byte>, n: nat, d: seq<Byte>)
    requires |d| <= n <= |a|
    ensures SameBack(a, n, d, |d|, |d|) <==> Occurs(a, d, n - |d|)
  {
    SameBackIs(a, n, d, |d|, |d|);
    assert d[|d| - |d|..|d|] == d;
  }

  lemma {:induction false} FirstFromIs(a: seq<Byte>, d: seq<Byte>, n: nat)
    requires d != [] && n <= |a| && forall p: nat :: p + |d| <= n ==> !Occurs(a, d, p)
    ensures match FirstFrom(a, d, n) {
      case Nowhere => forall p: nat :: !Occurs(a, d, p)
      case At(q) => Occurs(a, d, q) && forall p: nat :: p < q ==> !Occurs(a, d, p)
    }
    decreases |a| - n
  {
    if n < |a| {
      if |d| <= n + 1 {
        EndsIs(a, n + 1, d);
      }
      if !(|d| <= n + 1 && SameBack(a, n + 1, d, |d|, |d|)) {
        FirstFromIs(a, d, n + 1);
      }
    }
  }

  /** First is the least position at which the delimiter occurs. */
  lemma FirstIs(a: seq<Byte>, d: seq<Byte>)
    requires d != []
    ensures match First(a, d) {
      case Nowhere => forall p: nat :: !Occurs(a, d, p)
      case At(q) => Occurs(a, d, q) && forall p: nat :: p < q ==> !Occurs(a, d, p)
    }
  {
    FirstFromIs(a, d, 0);
  }

  // ---- Words ----

  const TOP: Sig := 0xFF00_0000_0000_0000
  const ONES: Sig := 0xFFFF_FFFF_FFFF_FFFF

  lemma WordIs(c: Byte, a: Byte)
    ensures Word(c) < 256 && (Word(c) == Word(a) <==> c == a)
  {
  }

  lemma AndShiftBits(x: Sig, m: Sig, w: Sig)
    requires w < 256
    ensures ((x << 8) | w) & ((m << 8) | 0xFF) == ((x & m) << 8) | w
  {
  }

  lemma AndShift(x: Sig, m: Sig, w: Sig)
    requires w < 256
    ensures And(Or(Up(x), w), Or(Up(m), 0xFF)) == Or(Up(And(x, m)), w)
  {
    AndShiftBits(x, m, w);
  }

  /** A byte from 128 on hides all before it. */
  lemma WideHides(x: Sig, w: Sig)
    ensures Or(Up(x), Or(w, 0xFFFF_FFFF_FFFF_FF00)) == Or(w, 0xFFFF_FFFF_FFFF_FF00)
  {
    assert (x << 8) | (w | 0xFFFF_FFFF_FFFF_FF00) == w | 0xFFFF_FFFF_FFFF_FF00;
  }

  lemma AndWideBits(m: Sig, w: Sig)
    requires w < 256
    ensures (w | 0xFFFF_FFFF_FFFF_FF00) & ((m << 8) | 0xFF) == (m << 8) | w
  {
  }

  lemma AndWide(m: Sig, w: Sig)
    requires w < 256
    ensures And(Or(w, 0xFFFF_FFFF_FFFF_FF00), Or(Up(m), 0xFF)) == Or(Up(m), w)
  {
    AndWideBits(m, w);
  }

  lemma OrParts(p: Sig, w: Sig, q: Sig, v: Sig)
    requires w < 256 && v < 256
    ensures Or(Up(p), w) == Or(Up(q), v) <==> Up(p) == Up(q) && w == v
  {
    assert (p << 8) & 0xFF == 0 && (q << 8) & 0xFF == 0;
    OrPartsOf(p << 8, w, q << 8, v);
  }

  lemma OrPartsOf(x: Sig, w: Sig, y: Sig, v: Sig)
    requires w < 256 && v < 256 && x & 0xFF == 0 && y & 0xFF == 0
    ensures (x | w) == (y | v) <==> x == y && w == v
  {
  }

  function Down(x: Sig): Sig {
    x >> 8
  }

  lemma DownUp(x: Sig, m: Sig)
    requires And(m, TOP) == 0
    ensures Down(Up(And(x, m))) == And(x, m)
  {
  }

  lemma AndMask(x: Sig, m: Sig, w: Sig)
    requires And(Down(m), m) == Down(m)
    ensures And(Or(Up(And(x, m)), w), m) == And(Or(Up(x), w), m)
  {
  }

  lemma ShiftIs(x: Sig, c: Byte, m: Sig)
    ensures And(Shift(x, c), Or(Up(m), 0xFF)) == Or(Up(if c < 128 then And(x, m) else m), Word(c))
  {
    WordIs(c, c);
    var w := Word(c);
    assert Shift(x, c) == if c < 128 then Or(Up(x), w) else Or(Up(x), Or(w, 0xFFFF_FFFF_FFFF_FF00));
    hide *;
    AndShift(x, m, w);
    WideHides(x, w);
    AndWide(m, w);
  }

  /** Two signatures agree in one byte more when that byte agrees. */
  lemma MoreBytes(x: Sig, y: Sig, m: Sig, c: Byte, a: Byte)
    requires a < 128 && And(m, TOP) == 0
    ensures var m1 := Or(Up(m), 0xFF); And(Shift(x, c), m1) == And(Shift(y, a), m1) <==>
      c == a && And(x, m) == And(y, m)
  {
    hide *;
    ShiftIs(x, c, m);
    ShiftIs(y, a, m);
    WordIs(c, a);
    WordIs(a, c);
    DownUp(x, m);
    DownUp(y, m);
    OrParts(if c < 128 then And(x, m) else m, Word(c), And(y, m), Word(a));
  }

  lemma LowByte(x: Sig, y: Sig, c: Byte, a: Byte)
    ensures var m1 := Or(Up(0), 0xFF); And(Shift(x, c), m1) == And(Shift(y, a), m1) <==> c == a
  {
    AndZero(x);
    AndZero(y);
    hide *;
    ShiftIs(x, c, 0);
    ShiftIs(y, a, 0);
    WordIs(c, a);
    WordIs(a, c);
    OrParts(0, Word(c), 0, Word(a));
  }

  lemma AndZero(x: Sig)
    ensures And(x, 0) == 0 == And(0, x) && And(x, ONES) == x && Up(0) == 0
  {
  }

  // ---- Masks ----

  lemma MaskFacts(k: nat)
    requires k <= 8
    ensures And(Down(Mask(k)), Mask(k)) == Down(Mask(k)) && (k <= 7 ==> And(Mask(k), TOP) == 0)
      && (k == 8 ==> Mask(k) == ONES)
  {
    assert Mask(0) == 0;
    assert Mask(1) == 0xFF;
    assert Mask(2) == 0xFFFF;
    assert Mask(3) == 0xFF_FFFF;
    assert Mask(4) == 0xFFFF_FFFF;
    assert Mask(5) == 0xFF_FFFF_FFFF;
    assert Mask(6) == 0xFFFF_FFFF_FFFF;
    assert Mask(7) == 0xFF_FFFF_FFFF_FFFF;
    assert Mask(8) == ONES;
  }

  lemma {:induction false} RollingIs(a: seq<Byte>, n: nat, k: nat)
    requires n <= |a| && k <= 8
    ensures Rolling(a, n, Mask(k)) == And(Raw(a, n), Mask(k))
  {
    MaskFacts(k);
    hide And, Or, Up, Mask, Widen, Down;
    if n == 0 {
      AndZero(Mask(k));
    } else {
      RollingIs(a, n - 1, k);
      AndMask(Raw(a, n - 1), Mask(k), Widen(a[n - 1]));
    }
  }

  // ---- Delimiters that are found ----

  predicate DelimOk(d: seq<Byte>) {
    && 0 < |d| <= 8 && d[0] != 0 && (forall i :: 1 <= i < |d| ==> d[i] < 128) && (d[0] < 128 || |d| == 8)
  }

  /** The signatures agree in `k` bytes just when the bytes do. */
  lemma {:induction false} Agree(a: seq<Byte>, n: nat, d: seq<Byte>, j: nat, k: nat)
    requires k <= n <= |a| && k <= j <= |d| && k <= 8 && forall i :: 1 <= i < |d| ==> d[i] < 128
    ensures And(Raw(a, n), Mask(k)) == And(Raw(d, j), Mask(k)) <==> SameBack(a, n, d, j, k)
  {
    hide And, Or, Up, Shift, Down;
    if k == 0 {
      AndZero(Raw(a, n));
      AndZero(Raw(d, j));
    } else if k == 1 {
      LowByte(Raw(a, n - 1), Raw(d, j - 1), a[n - 1], d[j - 1]);
      assert Mask(k) == Or(Up(0), 0xFF);
    } else {
      MaskFacts(k - 1);
      Agree(a, n - 1, d, j - 1, k - 1);
      MoreBytes(Raw(a, n - 1), Raw(d, j - 1), Mask(k - 1), a[n - 1], d[j - 1]);
    }
  }

  lemma {:induction false} NonZero(d: seq<Byte>, j: nat)
    requires 1 <= j <= |d| && j <= 8 && d[0] != 0 && forall i :: 1 <= i < |d| ==> d[i] < 128
    ensures And(Raw(d, j), Mask(j)) != 0
  {
    MaskFacts(j - 1);
    WordIs(d[j - 1], 0);
    AndZero(Mask(j));
    AndZero(0);
    hide And, Or, Up, Shift, Down, Word;
    if j == 1 {
      AndZero(Raw(d, 0));
      ShiftIs(Raw(d, 0), d[0], 0);
      OrZero(0, Word(d[0]));
    } else {
      NonZero(d, j - 1);
      ShiftIs(Raw(d, j - 1), d[j - 1], Mask(j - 1));
      OrZero(And(Raw(d, j - 1), Mask(j - 1)), Word(d[j - 1]));
      DownUp(Raw(d, j - 1), Mask(j - 1));
    }
  }

  lemma OrZero(p: Sig, w: Sig)
    ensures Or(Up(p), w) == 0 ==> Up(p) == 0 && w == 0
    ensures Word(0) == 0 && Down(0) == 0
  {
  }

  /** Before as many bytes as the delimiter has were read, the signatures differ. */
  lemma {:induction false} ShortDiffers(a: seq<Byte>, n: nat, d: seq<Byte>, j: nat)
    requires n <= |a| && n < j <= |d| && j <= 8 && d[0] != 0 && forall i :: 1 <= i < |d| ==> d[i] < 128
    ensures And(Raw(a, n), Mask(j)) != And(Raw(d, j), Mask(j))
  {
    MaskFacts(j - 1);
    AndZero(Mask(j));
    hide And, Or, Up, Shift, Down;
    if n == 0 {
      NonZero(d, j);
    } else {
      ShortDiffers(a, n - 1, d, j - 1);
      MoreBytes(Raw(a, n - 1), Raw(d, j - 1), Mask(j - 1), a[n - 1], d[j - 1]);
    }
  }

  /** The signature of a delimiter of small bytes stays below the mask. */
  lemma {:induction false} RawMasked(d: seq<Byte>, j: nat)
    requires j <= |d| && forall i :: 0 <= i < |d| ==> d[i] < 128
    ensures And(Raw(d, j), Mask(j)) == Raw(d, j)
  {
    AndZero(Mask(0));
    hide And, Or, Up, Down;
    if j > 0 {
      RawMasked(d, j - 1);
      ShiftIs(Raw(d, j - 1), d[j - 1], Mask(j - 1));
    }
  }

  lemma DelimSig(d: seq<Byte>)
    requires DelimOk(d)
    ensures And(Raw(d, |d|), Mask(|d|)) == Raw(d, |d|)
  {
    if d[0] < 128 {
      RawMasked(d, |d|);
    } else {
      MaskFacts(8);
      AndZero(Raw(d, 8));
    }
  }

  lemma MatchIs(a: seq<Byte>, n: nat, d: seq<Byte>)
    requires DelimOk(d) && n <= |a|
    ensures Rolling(a, n, Mask(|d|)) == Raw(d, |d|) <==> |d| <= n && SameBack(a, n, d, |d|, |d|)
  {
    DelimSig(d);
    RollingIs(a, n, |d|);
    if |d| <= n {
      Agree(a, n, d, |d|, |d|);
    } else {
      ShortDiffers(a, n, d, |d|);
    }
  }

  lemma {:induction false} ScanIs(a: seq<Byte>, d: seq<Byte>, n: nat)
    requires DelimOk(d) && n <= |a|
    ensures match Scan(a, Raw(d, |d|), Mask(|d|), n) {
      case Nowhere => FirstFrom(a, d, n) == Nowhere
      case At(e) => |d| <= e <= |a| && FirstFrom(a, d, n) == At(e - |d|)
    }
    decreases |a| - n
  {
    if n < |a| {
      MatchIs(a, n + 1, d);
      ScanIs(a, d, n + 1);
    }
  }

  lemma {:induction false} NotInShorter(a: seq<Byte>, d: seq<Byte>, n: nat)
    requires |a| < |d| && n <= |a|
    ensures FirstFrom(a, d, n) == Nowhere
    decreases |a| - n
  {
    if n < |a| {
      NotInShorter(a, d, n + 1);
    }
  }

  /** For such a delimiter the search finds its first occurrence, in every buffer. */
  lemma SearchFinds(a: seq<Byte>, d: seq<Byte>)
    requires DelimOk(d) && |a| < SIZE_MODULUS
    ensures Search(a, d) == First(a, d)
  {
    if |d| > |a| {
      NotInShorter(a, d, 0);
    } else {
      ScanIs(a, d, 0);
    }
  }

  // ---- Delimiters that are not found, or found where they are not ----

  /** Some buffer shows that the search is wrong. */
  ghost predicate Misses(d: seq<Byte>) {
    exists a: seq<Byte> :: |a| < SIZE_MODULUS && Search(a, d) != First(a, d)
  }

  lemma SelfIs(d: seq<Byte>)
    requires d != []
    ensures First(d, d) == At(0)
  {
    FirstIs(d, d);
    assert d[0..0 + |d|] == d;
    assert Occurs(d, d, 0);
  }

  lemma OtherIs(a: seq<Byte>, d: seq<Byte>)
    requires |a| == |d| > 0 && a != d
    ensures First(a, d) == Nowhere
  {
    FirstIs(a, d);
    assert a[0..0 + |d|] == a;
  }

  lemma {:induction false} ScanFinds(a: seq<Byte>, dsig: Sig, mask: Sig, n: nat, e: nat)
    requires n < e <= |a| && Rolling(a, e, mask) == dsig
    ensures Scan(a, dsig, mask, n).At?
    decreases e - n
  {
    if Rolling(a, n + 1, mask) != dsig {
      ScanFinds(a, dsig, mask, n + 1, e);
    }
  }

  lemma {:induction false} ScanNever(a: seq<Byte>, dsig: Sig, k: nat, n: nat)
    requires n <= |a| && k <= 8 && And(dsig, Mask(k)) != dsig
    ensures Scan(a, dsig, Mask(k), n) == Nowhere
    decreases |a| - n
  {
    if n < |a| {
      RollingIs(a, n + 1, k);
      AndTwice(Raw(a, n + 1), Mask(k));
      ScanNever(a, dsig, k, n + 1);
    }
  }

  lemma AndTwice(x: Sig, m: Sig)
    ensures And(And(x, m), m) == And(x, m)
  {
  }

  /** Too long: never found. */
  lemma LongMisses(d: seq<Byte>)
    requires 8 < |d| < SIZE_MODULUS
    ensures Misses(d)
  {
    SelfIs(d);
    assert Search(d, d) == Nowhere;
  }

  /** All bytes but the lowest `k`. */
  function HighBytes(k: nat): Sig {
    if k <= 1 then 0xFFFF_FFFF_FFFF_FF00 else Up(HighBytes(k - 1))
  }

  lemma HighTop(k: nat)
    requires k <= 7
    ensures And(HighBytes(k), TOP) == TOP
  {
    assert HighBytes(1) == 0xFFFF_FFFF_FFFF_FF00;
    assert HighBytes(2) == 0xFFFF_FFFF_FFFF_0000;
    assert HighBytes(3) == 0xFFFF_FFFF_FF00_0000;
    assert HighBytes(4) == 0xFFFF_FFFF_0000_0000;
    assert HighBytes(5) == 0xFFFF_FF00_0000_0000;
    assert HighBytes(6) == 0xFFFF_0000_0000_0000;
    assert HighBytes(7) == TOP;
  }

  lemma HighOn(x: Sig, h: Sig, w: Sig)
    requires And(x, h) == h
    ensures And(Or(Up(x), w), Up(h)) == Up(h)
  {
    HighBits(x, h, w);
    AbsorbBits(h << 8, w);
  }

  lemma HighBits(x: Sig, h: Sig, w: Sig)
    ensures ((x << 8) | w) & (h << 8) == ((x & h) << 8) | (w & (h << 8))
  {
  }

  lemma AbsorbBits(u: Sig, w: Sig)
    ensures u | (w & u) == u
  {
  }

  lemma HighStart(x: Sig, c: Byte)
    requires c >= 128
    ensures And(Shift(x, c), 0xFFFF_FFFF_FFFF_FF00) == 0xFFFF_FFFF_FFFF_FF00
  {
  }

  /** A byte from 128 on leaves ones in all higher bytes of the signature. */
  lemma {:induction false} WideHigh(d: seq<Byte>, i: nat, k: nat)
    requires 1 <= k && i + k <= |d| && d[i] >= 128
    ensures And(Raw(d, i + k), HighBytes(k)) == HighBytes(k)
  {
    hide And, Or, Up;
    if k == 1 {
      HighStart(Raw(d, i), d[i]);
    } else {
      WideHigh(d, i, k - 1);
      HighOn(Raw(d, i + k - 1), HighBytes(k - 1), Widen(d[i + k - 1]));
    }
  }

  lemma TopIs(x: Sig, h: Sig, m: Sig)
    requires And(x, h) == h && And(h, TOP) == TOP && And(m, TOP) == 0
    ensures And(x, m) != x
  {
  }

  /** Shorter than a word and not plain: the signature does not fit the mask. */
  lemma WideMisses(d: seq<Byte>, i: nat)
    requires i < |d| <= 7 && d[i] >= 128
    ensures Misses(d)
  {
    WideHigh(d, i, |d| - i);
    HighTop(|d| - i);
    MaskFacts(|d|);
    TopIs(Raw(d, |d|), HighBytes(|d| - i), Mask(|d|));
    ScanNever(d, Raw(d, |d|), |d|, 0);
    SelfIs(d);
    assert Search(d, d) == Nowhere;
  }

  lemma {:induction false} SameAfterWide(a: seq<Byte>, d: seq<Byte>, i: nat, j: nat)
    requires |a| == |d| && i < j <= |d| && d[i] >= 128 && forall k :: i <= k < |d| ==> a[k] == d[k]
    ensures Raw(a, j) == Raw(d, j)
  {
    if j == i + 1 {
      WideHides(Raw(a, i), Word(d[i]));
      WideHides(Raw(d, i), Word(d[i]));
    } else {
      SameAfterWide(a, d, i, j - 1);
    }
  }

  /** A whole word with a byte from 128 on behind the first: the bytes before it are not looked at. */
  lemma HiddenMisses(d: seq<Byte>, i: nat)
    requires |d| == 8 && 1 <= i < 8 && d[i] >= 128
    ensures Misses(d)
  {
    var a := d[0 := d[0] ^ 1];
    assert d[0] ^ 1 != d[0];
    assert a[0] != d[0];
    SameAfterWide(a, d, i, 8);
    RollingIs(a, 8, 8);
    MaskFacts(8);
    AndZero(Raw(d, 8));
    ScanFinds(a, Raw(d, 8), Mask(8), 0, 8);
    OtherIs(a, d);
    assert Search(a, d) != First(a, d);
  }

  lemma {:induction false} ZeroShifts(a: seq<Byte>, d: seq<Byte>, j: nat)
    requires |a| == |d| && j < |d| && d[0] == 0 && forall k :: 0 <= k < |d| - 1 ==> a[k] == d[k + 1]
    ensures Raw(a, j) == Raw(d, j + 1)
  {
    if j == 0 {
      assert Raw(d, 0) == 0;
    } else {
      ZeroShifts(a, d, j - 1);
    }
  }

  /** A leading zero agrees with the empty start of the rolling signature. */
  lemma ZeroMisses(d: seq<Byte>)
    requires 2 <= |d| <= 8 && d[0] == 0 && forall i :: 0 <= i < |d| ==> d[i] < 128
    ensures Misses(d)
  {
    var n := |d| - 1;
    var a := d[1..] + [d[n] ^ 1];
    assert d[n] ^ 1 != d[n];
    assert a[n] != d[n];
    ZeroShifts(a, d, n);
    RollingIs(a, n, |d|);
    RawMasked(d, |d|);
    ScanFinds(a, Raw(d, |d|), Mask(|d|), 0, n);
    OtherIs(a, d);
    assert Search(a, d) != First(a, d);
  }

  /** The search of _cut_by_delim is right for all buffers just when the delimiter is one of these. */
  lemma DelimExact(d: seq<Byte>)
    requires 2 <= |d| < SIZE_MODULUS
    ensures DelimOk(d) <==> forall a: seq<Byte> :: |a| < SIZE_MODULUS ==> Search(a, d) == First(a, d)
  {
    if DelimOk(d) {
      forall a: seq<Byte> | |a| < SIZE_MODULUS
        ensures Search(a, d) == First(a, d)
      {
        SearchFinds(a, d);
      }
    } else if |d| > 8 {
      LongMisses(d);
    } else if i :| 0 <= i < |d| && d[i] >= 128 && (|d| < 8 || i > 0) {
      if |d| < 8 {
        WideMisses(d, i);
      } else {
        HiddenMisses(d, i);
      }
    } else {
      ZeroMisses(d);
    }
  }
}
