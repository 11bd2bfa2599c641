/**
 * The record format: what a record looks like in bytes, what is read back, and that the two agree.
 */
module RecordFormat {
  import opened Chunks
  import opened Octets

  datatype Meta = Meta(name: seq<Byte>, data: seq<Byte>)

  datatype Content = Content(metas: seq<Meta>, payload: seq<Byte>)

  const MAX_NAME_SIZE := 256
  const HEAD := 9

  // --- Pieces at a position ---

  predicate At(s: seq<Byte>, p: nat, x: seq<Byte>) {
    p + |x| <= |s| && s[p..p + |x|] == x
  }

  lemma AtSplit(s: seq<Byte>, p: nat, x: seq<Byte>, y: seq<Byte>)
    ensures At(s, p, x + y) <==> At(s, p, x) && At(s, p + |x|, y)
  {
    if p + |x| + |y| <= |s| {
      var z := s[p..p + |x + y|];
      assert z[..|x|] == s[p..p + |x|] && z[|x|..] == s[p + |x|..p + |x| + |y|];
      assert z == z[..|x|] + z[|x|..];
      assert (x + y)[..|x|] == x && (x + y)[|x|..] == y;
    }
  }

  lemma AtOne(s: seq<Byte>, p: nat, b: Byte)
    ensures At(s, p, [b]) <==> p < |s| && s[p] == b
  {
    if p < |s| {
      assert s[p..p + 1] == [s[p]];
    }
  }

  // --- Printing ---

  /** A size and the bit that says more is to come. */
  function SizeWord(n: nat, more: bool): (w: seq<Byte>)
    requires n < TOP
    ensures |w| == 4
  {
    Word4(if more then n + TOP else n)
  }

  /** What the writer accepts in one meta. */
  predicate Small(m: Meta) {
    |m.name| <= MAX_NAME_SIZE && |m.data| < TOP
  }

  predicate AllSmall(ms: seq<Meta>) {
    forall i :: 0 <= i < |ms| ==> Small(ms[i])
  }

  function MetaHead(m: Meta, more: bool): (x: seq<Byte>)
    requires Small(m)
    ensures |x| == |m.name| + 5
  {
    [Octet(|m.name| % 256)] + m.name + SizeWord(|m.data|, more)
  }

  function MetaBytes(m: Meta, more: bool): (x: seq<Byte>)
    requires Small(m)
    ensures |x| == |m.name| + |m.data| + 5
  {
    MetaHead(m, more) + m.data
  }

  /** The metas from `i` on: all but the last announce a next one. */
  function WireFrom(ms: seq<Meta>, i: nat): seq<Byte>
    requires i <= |ms| && AllSmall(ms)
    decreases |ms| - i
  {
    if i == |ms| then [] else MetaBytes(ms[i], i + 1 < |ms|) + WireFrom(ms, i + 1)
  }

  function Body(c: Content): seq<Byte>
    requires AllSmall(c.metas)
  {
    WireFrom(c.metas, 0) + c.payload
  }

  /** What the writer accepts. */
  predicate Writable(c: Content) {
    AllSmall(c.metas) && |Body(c)| < TOP
  }

  function Magic(): (x: seq<Byte>)
    ensures |x| == 4
  {
    [0x52, 0x44, 0x49, 0x4F]
  }

  function Head(n: nat, more: bool): (x: seq<Byte>)
    requires n < TOP
    ensures |x| == HEAD
  {
    Magic() + SizeWord(n, more) + [SizeChecksum(SizeWord(n, more))]
  }

  function Print(c: Content): seq<Byte>
    requires Writable(c)
  {
    Head(|Body(c)|, c.metas != []) + Body(c)
  }

  // --- What the bytes of a print are ---

  /** The length of the first `n` metas in bytes. */
  function SizeUpto(ms: seq<Meta>, n: nat): nat
    requires n <= |ms|
  {
    if n == 0 then 0 else SizeUpto(ms, n - 1) + 5 + |ms[n - 1].name| + |ms[n - 1].data|
  }

  lemma {:induction false} SizeFrom(ms: seq<Meta>, i: nat)
    requires i <= |ms| && AllSmall(ms)
    ensures SizeUpto(ms, i) + |WireFrom(ms, i)| == SizeUpto(ms, |ms|)
    decreases |ms| - i
  {
    hide MetaBytes;
    if i < |ms| {
      SizeFrom(ms, i + 1);
    }
  }

  /** The number that four bytes from `p` on are, the highest first. */
  function Value32(s: seq<Byte>, p: nat): nat
    requires p + 4 <= |s|
  {
    s[p] as nat * 0x100_0000 + s[p + 1] as nat * 0x1_0000 + s[p + 2] as nat * 0x100 + s[p + 3] as nat
  }

  lemma ValueOfWord(s: seq<Byte>, p: nat, n: nat, more: bool)
    requires n < TOP && At(s, p, SizeWord(n, more))
    ensures p + 4 <= |s| && Value32(s, p) == n + if more then 0x8000_0000 else 0
  {
    hide Word4;
    var w := SizeWord(n, more);
    WordDigits(if more then n + TOP else n);
    assert forall k :: 0 <= k < 4 ==> s[p + k] == s[p..p + 4][k] == w[k];
  }

  /**
   * The head: the letters RDIO, the size of what follows with the highest bit set if there are metas, and the checksum
   * over the bytes of the size from the last to the first.
   */
  lemma HeadPrinted(c: Content)
    requires Writable(c)
    ensures var s, n := Print(c), |Body(c)|;
      && |s| == 9 + n && s[0] == 0x52 && s[1] == 0x44 && s[2] == 0x49 && s[3] == 0x4F
      && Value32(s, 4) == n + (if c.metas != [] then 0x8000_0000 else 0)
      && s[8] == Table8(Xor8(Table8(Xor8(Table8(Xor8(Table8(s[7]), s[6])), s[5])), s[4]))
      && s[9..] == Body(c)
  {
    hide Body, SizeWord, Table8, Xor8, SizeChecksum, Value32;
    var s, n := Print(c), |Body(c)|;
    var w := SizeWord(n, c.metas != []);
    assert s[4..8] == w && s[4] == w[0] && s[5] == w[1] && s[6] == w[2] && s[7] == w[3];
    ValueOfWord(s, 4, n, c.metas != []);
    ChecksumIs(w);
  }

  lemma {:induction false} WireAt(ms: seq<Meta>, i: nat, k: nat, p: nat)
    requires i <= k < |ms| && AllSmall(ms) && SizeUpto(ms, i) + p == SizeUpto(ms, k)
    ensures At(WireFrom(ms, i), p, MetaBytes(ms[k], k + 1 < |ms|))
    decreases k - i
  {
    hide MetaBytes, At;
    var x, y := MetaBytes(ms[i], i + 1 < |ms|), WireFrom(ms, i + 1);
    if i == k {
      Begins(x, y);
    } else {
      SizeGrows(ms, i + 1, k);
      WireAt(ms, i + 1, k, p - |x|);
      AtBehind(x, y, p - |x|, MetaBytes(ms[k], k + 1 < |ms|), p);
    }
  }

  lemma AtBehind(a: seq<Byte>, b: seq<Byte>, p: nat, x: seq<Byte>, q: nat)
    requires At(b, p, x) && q == |a| + p
    ensures At(a + b, q, x)
  {
    assert (a + b)[q..q + |x|] == b[p..p + |x|];
  }

  lemma {:induction false} SizeGrows(ms: seq<Meta>, i: nat, k: nat)
    requires i <= k <= |ms|
    ensures SizeUpto(ms, i) <= SizeUpto(ms, k)
  {
    if i < k {
      SizeGrows(ms, i, k - 1);
    }
  }

  lemma AtFront(a: seq<Byte>, b: seq<Byte>, p: nat, x: seq<Byte>, c: seq<Byte>, q: nat)
    requires At(b, p, x) && q == |a| + p
    ensures At(a + (b + c), q, x)
  {
    assert (a + (b + c))[q..q + |x|] == b[p..p + |x|];
  }

  /**
   * A meta: the length of its name in one byte, the name, the size of the data with the highest bit set if another meta
   * follows, and the data. The metas follow the head and each other.
   */
  lemma MetaPrinted(c: Content, k: nat)
    requires Writable(c) && k < |c.metas|
    ensures var s, m := Print(c), c.metas[k];
      var p := 9 + SizeUpto(c.metas, k);
      var q := p + 1 + |m.name|;
      && q + 4 + |m.data| <= |s| && s[p] as nat == |m.name| % 256 && s[p + 1..q] == m.name
      && Value32(s, q) == |m.data| + (if k + 1 < |c.metas| then 0x8000_0000 else 0)
      && s[q + 4..q + 4 + |m.data|] == m.data
  {
    hide SizeWord, WireFrom, SizeUpto, Head, MetaBytes, Value32, At;
    var s, m, more := Print(c), c.metas[k], k + 1 < |c.metas|;
    var p, at := 9 + SizeUpto(c.metas, k), SizeUpto(c.metas, k);
    SizeNone(c.metas);
    WireAt(c.metas, 0, k, at);
    AtFront(Head(|Body(c)|, c.metas != []), WireFrom(c.metas, 0), at, MetaBytes(m, more), c.payload, p);
    MetaAt(s, p, m, more);
  }

  lemma MetaAt(s: seq<Byte>, p: nat, m: Meta, more: bool)
    requires Small(m) && At(s, p, MetaBytes(m, more))
    ensures var q := p + 1 + |m.name|;
      && q + 4 + |m.data| <= |s| && s[p] as nat == |m.name| % 256 && s[p + 1..q] == m.name
      && Value32(s, q) == |m.data| + (if more then 0x8000_0000 else 0)
      && s[q + 4..q + 4 + |m.data|] == m.data
  {
    hide SizeWord, Octet, At, Value32;
    var q := p + 1 + |m.name|;
    var a, b := [Octet(|m.name| % 256)], SizeWord(|m.data|, more);
    AtSplit(s, p, (a + m.name) + b, m.data);
    AtSplit(s, p, a + m.name, b);
    AtSplit(s, p, a, m.name);
    AtOne(s, p, a[0]);
    AtIn(s, p + 1, m.name);
    AtIn(s, q + 4, m.data);
    LengthByte(s[p], |m.name| % 256);
    ValueOfWord(s, q, |m.data|, more);
  }

  lemma LengthByte(b: Byte, n: nat)
    requires n < 256 && b == Octet(n)
    ensures b as nat == n
  {
    hide Octet;
    NumberOfOctet(n);
  }

  lemma SizeNone(ms: seq<Meta>)
    ensures SizeUpto(ms, 0) == 0
  {
  }

  /** The payload is what is left behind the metas. */
  lemma PayloadPrinted(c: Content)
    requires Writable(c)
    ensures var p := 9 + SizeUpto(c.metas, |c.metas|); p <= |Print(c)| && Print(c)[p..] == c.payload
  {
    hide Head, WireFrom;
    SizeFrom(c.metas, 0);
    SizeNone(c.metas);
    var h, w := Head(|Body(c)|, c.metas != []), WireFrom(c.metas, 0);
    assert Print(c) == (h + w) + c.payload;
  }

  lemma MagicIs()
    ensures Magic() == [0x52, 0x44, 0x49, 0x4F]
  {
  }

  lemma EightWord()
    ensures SizeWord(8, true) == [0x80, 0x00, 0x00, 0x08] && SizeWord(1, false) == [0x00, 0x00, 0x00, 0x01]
  {
    hide Octet;
    SomeOctets();
  }

  lemma SomeOctets()
    ensures Octet(0) == 0x00 && Octet(1) == 0x01 && Octet(8) == 0x08 && Octet(0x80) == 0x80
  {
  }

  lemma OneWire(ms: seq<Meta>, x: Byte)
    requires ms == [Meta([0x61], [x])]
    ensures AllSmall(ms) && WireFrom(ms, 0) == [0x01, 0x61, 0x00, 0x00, 0x00, 0x01, x]
  {
    hide SizeWord, Octet;
    EightWord();
    SomeOctets();
    assert WireFrom(ms, 1) == [];
    assert MetaBytes(ms[0], false) == [0x01, 0x61, 0x00, 0x00, 0x00, 0x01, x];
  }

  /** A record with a meta called "a" that holds one byte, and a payload of one byte. */
  lemma OneRecord(x: Byte, y: Byte)
    ensures var c := Content([Meta([0x61], [x])], [y]);
      && Writable(c)
      && Print(c) == [0x52, 0x44, 0x49, 0x4F, 0x80, 0x00, 0x00, 0x08, 0x2D] + [0x01, 0x61, 0x00, 0x00, 0x00, 0x01, x, y]
  {
    hide SizeChecksum, WireFrom, Magic;
    var c := Content([Meta([0x61], [x])], [y]);
    OneWire(c.metas, x);
    EightWord();
    OneChecksum();
    assert Body(c) == [0x01, 0x61, 0x00, 0x00, 0x00, 0x01, x, y];
    MagicIs();
  }

  // --- Reading ---

  /**
   * Not enough bytes yet; an error after `at` bytes were counted as taken, which may be more than there are, with the
   * metas cut so far; or a record of `at` bytes.
   */
  datatype Cut = Short | Bad(at: nat, metas: seq<Meta>) | Got(content: Content, at: nat)

  datatype Step = Fail(at: nat) | One(m: Meta, more: bool, next: nat)

  predicate HasName(ms: seq<Meta>, name: seq<Byte>) {
    exists i :: 0 <= i < |ms| && ms[i].name == name
  }

  /** One meta at `p` of a record ending at `e`, after those in `ms`. */
  function CutMeta(s: seq<Byte>, e: nat, ms: seq<Meta>, p: nat): Step
    requires p <= e <= |s|
  {
    if p == |s| then Fail(p + 5) else
    var q := p + 1 + Number(s[p]);
    if q + 4 > |s| then Fail(q + 4) else
    var w := Number4(s[q..q + 4]);
    var next := q + 4 + w % TOP;
    if next > e then Fail(q + 4)
    else if s[p + 1..q] == [] || HasName(ms, s[p + 1..q]) then Fail(q + 4)
    else One(Meta(s[p + 1..q], s[q + 4..next]), w >= TOP, next)
  }

  function CutMetas(s: seq<Byte>, e: nat, ms: seq<Meta>, p: nat): (c: Cut)
    requires p <= e <= |s|
    ensures c.Got? ==> c.at == e
    decreases e - p
  {
    match CutMeta(s, e, ms, p)
    case Fail(at) => Bad(at, ms)
    case One(m, more, next) =>
      if more then CutMetas(s, e, ms + [m], next) else Got(Content(ms + [m], s[next..e]), e)
  }

  /** The bytes from the beginning of a record on, with records of more than `max` bytes refused. */
  function CutRecord(s: seq<Byte>, max: nat): (c: Cut)
    ensures c.Got? ==> HEAD <= c.at <= |s|
  {
    if |s| < HEAD then Short
    else if s[..4] != Magic() then Bad(0, [])
    else if SizeChecksum(s[4..8]) != s[8] then Bad(0, [])
    else
      var n := Number4(s[4..8]) % TOP;
      if n > max then Bad(0, [])
      else if |s| < n + HEAD then Short
      else if Number4(s[4..8]) >= TOP then CutMetas(s, n + HEAD, [], HEAD)
      else Got(Content([], s[HEAD..n + HEAD]), n + HEAD)
  }

  // --- One meta ---

  /** A name that can be told apart from those before it. */
  predicate GoodName(ms: seq<Meta>, name: seq<Byte>) {
    1 <= |name| < MAX_NAME_SIZE && !HasName(ms, name)
  }

  lemma TopBit(n: nat, more: bool)
    requires n < TOP
    ensures var w := if more then n + TOP else n; w % TOP == n && (w >= TOP <==> more)
  {
  }

  lemma TopBack(w: nat)
    requires w < 2 * TOP
    ensures w == if w >= TOP then w % TOP + TOP else w % TOP
  {
  }

  lemma SizeWordIs(n: nat, more: bool)
    requires n < TOP
    ensures Number4(SizeWord(n, more)) % TOP == n && (Number4(SizeWord(n, more)) >= TOP <==> more)
  {
    hide Word4, Number4;
    TopBit(n, more);
    NumberOfWord(if more then n + TOP else n);
  }

  lemma SizeWordBack(w: seq<Byte>)
    requires |w| == 4
    ensures w == SizeWord(Number4(w) % TOP, Number4(w) >= TOP)
  {
    hide Word4, Number4;
    WordOfNumber(w);
    TopBack(Number4(w));
  }

  /** The parts of a printed meta. */
  lemma MetaParts(s: seq<Byte>, p: nat, m: Meta, more: bool)
    requires Small(m)
    ensures At(s, p, MetaBytes(m, more)) <==>
            && At(s, p, [Octet(|m.name| % 256)]) && At(s, p + 1, m.name)
            && At(s, p + 1 + |m.name|, SizeWord(|m.data|, more)) && At(s, p + 5 + |m.name|, m.data)
  {
    hide At, SizeWord, Octet;
    var b, w := [Octet(|m.name| % 256)], SizeWord(|m.data|, more);
    AtSplit(s, p, b + m.name + w, m.data);
    AtSplit(s, p, b + m.name, w);
    AtSplit(s, p, b, m.name);
    assert p + |b + m.name + w| == p + 5 + |m.name| && p + |b + m.name| == p + 1 + |m.name|;
  }

  /** A printed meta with a good name is read back. */
  lemma MetaReads(s: seq<Byte>, e: nat, ms: seq<Meta>, p: nat, m: Meta, more: bool)
    requires Small(m) && At(s, p, MetaBytes(m, more)) && p + |MetaBytes(m, more)| <= e <= |s|
    requires GoodName(ms, m.name)
    ensures CutMeta(s, e, ms, p) == One(m, more, p + |MetaBytes(m, more)|)
  {
    hide HasName, SizeWord, Octet, Number, Number4, MetaBytes;
    MetaParts(s, p, m, more);
    AtOne(s, p, Octet(|m.name| % 256));
    NumberOfOctet(|m.name|);
    SizeWordIs(|m.data|, more);
  }

  /** A printed meta with any other name is refused. */
  lemma MetaRefused(s: seq<Byte>, e: nat, ms: seq<Meta>, p: nat, m: Meta, more: bool)
    requires Small(m) && At(s, p, MetaBytes(m, more)) && p + |MetaBytes(m, more)| <= e <= |s|
    requires !GoodName(ms, m.name)
    ensures CutMeta(s, e, ms, p).Fail?
  {
    hide HasName, SizeWord, Octet, Number, Number4, MetaBytes;
    MetaParts(s, p, m, more);
    AtOne(s, p, Octet(|m.name| % 256));
    NumberOfOctet(|m.name| % 256);
  }

  /** What is read as a meta is what is printed for it. */
  lemma MetaReadIsPrinted(s: seq<Byte>, e: nat, ms: seq<Meta>, p: nat, m: Meta, more: bool, next: nat)
    requires p <= e <= |s| && CutMeta(s, e, ms, p) == One(m, more, next)
    ensures Small(m) && GoodName(ms, m.name) && At(s, p, MetaBytes(m, more)) && next == p + |MetaBytes(m, more)| <= e
  {
    hide HasName, SizeWord, Octet, Number, Number4, MetaBytes;
    var q := p + 1 + Number(s[p]);
    OctetOfNumber(s[p]);
    SizeWordBack(s[q..q + 4]);
    AtOne(s, p, s[p]);
    MetaParts(s, p, m, more);
  }

  // --- All metas ---

  /** All names from `i` on can be told apart from those before them. */
  predicate GoodFrom(ms: seq<Meta>, i: nat)
    requires i <= |ms|
  {
    forall k :: i <= k < |ms| ==> GoodName(ms[..k], ms[k].name)
  }

  lemma GoodNext(ms: seq<Meta>, i: nat)
    requires i < |ms|
    ensures GoodFrom(ms, i) <==> GoodName(ms[..i], ms[i].name) && GoodFrom(ms, i + 1)
  {
    hide GoodName;
  }

  lemma WireNext(ms: seq<Meta>, i: nat)
    requires i < |ms| && AllSmall(ms)
    ensures WireFrom(ms, i) == MetaBytes(ms[i], i + 1 < |ms|) + WireFrom(ms, i + 1)
    ensures |WireFrom(ms, i)| == |MetaBytes(ms[i], i + 1 < |ms|)| + |WireFrom(ms, i + 1)|
  {
    hide MetaBytes;
  }

  lemma PrefixNext(ms: seq<Meta>, i: nat)
    requires i < |ms|
    ensures ms[..i] + [ms[i]] == ms[..i + 1]
    ensures i + 1 == |ms| ==> ms[..i + 1] == ms
  {
  }

  /** Printed metas are read back if all their names are good, and refused otherwise. */
  lemma {:induction false} MetasRead(s: seq<Byte>, e: nat, ms: seq<Meta>, i: nat, p: nat)
    requires i < |ms| && AllSmall(ms) && At(s, p, WireFrom(ms, i)) && p + |WireFrom(ms, i)| <= e <= |s|
    ensures GoodFrom(ms, i) ==>
              CutMetas(s, e, ms[..i], p) == Got(Content(ms, s[p + |WireFrom(ms, i)|..e]), e)
    ensures !GoodFrom(ms, i) ==> CutMetas(s, e, ms[..i], p).Bad?
    decreases |ms| - i
  {
    hide At, WireFrom, MetaBytes, GoodFrom, GoodName, CutMeta;
    var m, more := ms[i], i + 1 < |ms|;
    assert Small(m);
    WireNext(ms, i);
    AtSplit(s, p, MetaBytes(m, more), WireFrom(ms, i + 1));
    GoodNext(ms, i);
    PrefixNext(ms, i);
    if !GoodName(ms[..i], m.name) {
      MetaRefused(s, e, ms[..i], p, m, more);
    } else {
      MetaReads(s, e, ms[..i], p, m, more);
      if more {
        MetasRead(s, e, ms, i + 1, p + |MetaBytes(m, more)|);
      } else {
        WireEnd(ms);
        GoodEnd(ms);
      }
    }
  }

  lemma WireEnd(ms: seq<Meta>)
    requires AllSmall(ms)
    ensures WireFrom(ms, |ms|) == []
  {
  }

  lemma GoodEnd(ms: seq<Meta>)
    ensures GoodFrom(ms, |ms|)
  {
  }

  /** What is read after `ms`: metas and a payload that are printed just so. */
  ghost predicate Laid(s: seq<Byte>, e: nat, ms: seq<Meta>, p: nat, c: Content) {
    var i := |ms|;
    && i < |c.metas| && c.metas[..i] == ms && AllSmallFrom(c.metas, i) && GoodFrom(c.metas, i)
    && AtFrom(s, p, c.metas, i, e, c.payload)
  }

  ghost predicate AllSmallFrom(ms: seq<Meta>, i: nat) {
    forall k :: i <= k < |ms| ==> Small(ms[k])
  }

  /** The metas from `i` on and then the payload, from `p` to `e`. */
  ghost predicate AtFrom(s: seq<Byte>, p: nat, ms: seq<Meta>, i: nat, e: nat, payload: seq<Byte>)
    requires i <= |ms| && AllSmallFrom(ms, i)
    decreases |ms| - i
  {
    if i == |ms| then At(s, p, payload) && p + |payload| == e
    else
      var x := MetaBytes(ms[i], i + 1 < |ms|);
      At(s, p, x) && AtFrom(s, p + |x|, ms, i + 1, e, payload)
  }

  lemma {:induction false} MetasReadArePrinted(s: seq<Byte>, e: nat, ms: seq<Meta>, p: nat, c: Content, at: nat)
    requires p <= e <= |s| && CutMetas(s, e, ms, p) == Got(c, at)
    ensures at == e && Laid(s, e, ms, p, c)
    decreases e - p
  {
    hide CutMeta, At, MetaBytes, GoodName, Small;
    var step := CutMeta(s, e, ms, p);
    MetaReadIsPrinted(s, e, ms, p, step.m, step.more, step.next);
    var i, ms' := |ms|, ms + [step.m];
    assert ms'[..i] == ms;
    if step.more {
      MetasReadArePrinted(s, e, ms', step.next, c, at);
      assert c.metas[..i] == c.metas[..i + 1][..i] == ms;
      assert c.metas[i] == c.metas[..i + 1][i] == step.m;
    } else {
      assert c.metas == ms' && c.metas[i] == step.m;
      PayloadAt(s, step.next, e);
      GoodEnd(c.metas);
    }
    GoodNext(c.metas, i);
    assert i < |c.metas| && c.metas[..i] == ms;
    assert AllSmallFrom(c.metas, i);
    assert GoodFrom(c.metas, i);
    assert step.more == (i + 1 < |c.metas|);
    assert AtFrom(s, step.next, c.metas, i + 1, e, c.payload);
  }

  lemma PayloadAt(s: seq<Byte>, p: nat, e: nat)
    requires p <= e <= |s|
    ensures At(s, p, s[p..e])
  {
  }

  lemma {:induction false} AtFromIs(s: seq<Byte>, p: nat, ms: seq<Meta>, i: nat, e: nat, payload: seq<Byte>)
    requires i <= |ms| && AllSmall(ms)
    requires AtFrom(s, p, ms, i, e, payload)
    ensures At(s, p, WireFrom(ms, i) + payload) && p + |WireFrom(ms, i)| + |payload| == e
    decreases |ms| - i
  {
    hide At, MetaBytes, Small;
    if i == |ms| {
      Nil(payload);
    } else {
      var x := MetaBytes(ms[i], i + 1 < |ms|);
      AtFromIs(s, p + |x|, ms, i + 1, e, payload);
      AtSplit(s, p, x, WireFrom(ms, i + 1) + payload);
      Assoc(x, WireFrom(ms, i + 1), payload);
    }
  }

  // --- Whole records ---

  /** What the reader gives back: distinct names of 1 to 255 bytes, and no more than `max` bytes in all. */
  predicate Readable(c: Content, max: nat) {
    Writable(c) && GoodFrom(c.metas, 0) && |Body(c)| <= max
  }

  lemma HeadParts(s: seq<Byte>, n: nat, more: bool)
    requires n < TOP
    ensures At(s, 0, Head(n, more)) <==>
            |s| >= HEAD && s[..4] == Magic() && s[4..8] == SizeWord(n, more) && s[8] == SizeChecksum(s[4..8])
  {
    hide SizeWord, SizeChecksum, Magic;
    var w := SizeWord(n, more);
    AtSplit(s, 0, Magic() + w, [SizeChecksum(w)]);
    AtSplit(s, 0, Magic(), w);
    AtOne(s, 8, SizeChecksum(w));
    assert |Magic() + w| == 8;
  }

  lemma PrintParts(s: seq<Byte>, c: Content)
    requires Writable(c)
    ensures |Print(c)| == HEAD + |Body(c)|
    ensures At(s, 0, Print(c)) <==> At(s, 0, Head(|Body(c)|, c.metas != [])) && At(s, HEAD, Body(c))
  {
    hide At, Head, Body;
    AtSplit(s, 0, Head(|Body(c)|, c.metas != []), Body(c));
  }

  /** A well-formed head is past all checks but that of the size. */
  lemma HeadReads(s: seq<Byte>, n: nat, more: bool, max: nat)
    requires n < TOP && At(s, 0, Head(n, more))
    ensures CutRecord(s, max) ==
            if n > max then Bad(0, [])
            else if |s| < n + HEAD then Short
            else if more then CutMetas(s, n + HEAD, [], HEAD)
            else Got(Content([], s[HEAD..n + HEAD]), n + HEAD)
  {
    hide At, Head, SizeWord, SizeChecksum, CutMetas, Number4, Magic;
    HeadParts(s, n, more);
    SizeWordIs(n, more);
  }

  lemma NoMetas(c: Content)
    requires c.metas == []
    ensures AllSmall(c.metas) && Body(c) == c.payload && GoodFrom(c.metas, 0)
  {
  }

  /** What was printed is read back exactly when the record is readable, and is refused otherwise. */
  lemma PrintedReads(s: seq<Byte>, c: Content, max: nat)
    requires Writable(c) && At(s, 0, Print(c))
    ensures Readable(c, max) ==> CutRecord(s, max) == Got(c, |Print(c)|)
    ensures !Readable(c, max) ==> CutRecord(s, max).Bad?
  {
    hide At, Head, CutRecord, WireFrom, GoodFrom, Print, CutMetas;
    var n, w := |Body(c)|, WireFrom(c.metas, 0);
    PrintParts(s, c);
    HeadReads(s, n, c.metas != [], max);
    AtIn(s, HEAD, Body(c));
    if c.metas == [] {
      NoMetas(c);
    } else if n <= max {
      AtSplit(s, HEAD, w, c.payload);
      AtIn(s, HEAD + |w|, c.payload);
      MetasRead(s, n + HEAD, c.metas, 0, HEAD);
      assert c.metas[..0] == [];
    }
  }

  lemma AtIn(s: seq<Byte>, p: nat, x: seq<Byte>)
    requires At(s, p, x)
    ensures p + |x| <= |s| && s[p..p + |x|] == x
  {
  }

  /** What is read as a record is a readable record just as it is printed. */
  lemma ReadIsPrinted(s: seq<Byte>, c: Content, at: nat, max: nat)
    requires CutRecord(s, max) == Got(c, at)
    ensures Readable(c, max) && at == |Print(c)| && At(s, 0, Print(c))
  {
    hide At, Head, SizeChecksum, Number4, Magic, CutMetas, AtFrom, WireFrom, GoodFrom, SizeWord;
    var w := s[4..8];
    SizeWordBack(w);
    WordOfNumber(w);
    var n := Number4(w) % TOP;
    HeadParts(s, n, Number4(w) >= TOP);
    if Number4(w) >= TOP {
      MetasReadArePrinted(s, n + HEAD, [], HEAD, c, at);
      AtFromIs(s, HEAD, c.metas, 0, n + HEAD, c.payload);
    } else {
      NoMetas(c);
      PayloadAt(s, HEAD, n + HEAD);
    }
    PrintParts(s, c);
  }

  /** The reader returns a record if and only if the input begins with the print of that record and it is readable. */
  lemma ReadsExactly(s: seq<Byte>, c: Content, at: nat, max: nat)
    ensures CutRecord(s, max) == Got(c, at) <==>
            Readable(c, max) && at == |Print(c)| && At(s, 0, Print(c))
  {
    hide At, CutRecord, Readable, Print;
    if CutRecord(s, max) == Got(c, at) {
      ReadIsPrinted(s, c, at, max);
    } else if Readable(c, max) {
      ReadableWritable(c, max);
      if At(s, 0, Print(c)) {
        PrintedReads(s, c, max);
      }
    }
  }

  lemma ReadableWritable(c: Content, max: nat)
    requires Readable(c, max)
    ensures Writable(c) && |Body(c)| <= max
  {
  }

  /** Any part of a readable record that is not all of it is a request for more, never an error. */
  lemma PartIsShort(c: Content, max: nat, n: nat)
    requires Readable(c, max) && n < |Print(c)|
    ensures CutRecord(Print(c)[..n], max) == Short
  {
    hide At, Head, WireFrom, GoodFrom, Body, CutMetas;
    var s := Print(c)[..n];
    if n >= HEAD {
      var h := Head(|Body(c)|, c.metas != []);
      PrintParts(s, c);
      PartAt(h, Body(c), n);
      HeadReads(s, |Body(c)|, c.metas != [], max);
    }
  }

  lemma PartAt(h: seq<Byte>, b: seq<Byte>, n: nat)
    requires |h| <= n <= |h| + |b|
    ensures At((h + b)[..n], 0, h)
  {
    assert (h + b)[..n][0..|h|] == h;
  }

  /** Changing any one byte of the head is noticed. */
  lemma DamagedHeadIsNoticed(s: seq<Byte>, n: nat, more: bool, k: nat, x: Byte, max: nat)
    requires n < TOP && At(s, 0, Head(n, more)) && k < HEAD && |s| >= HEAD && x != s[k]
    ensures CutRecord(s[k := x], max) == Bad(0, [])
  {
    hide At, Head, SizeWord, SizeChecksum, CutMetas, Number4, Magic;
    HeadParts(s, n, more);
    var t := s[k := x];
    if k < 4 {
      assert t[..4][k] == x && s[..4][k] != x;
    } else if k < 8 {
      ChecksumChanges(s[4..8], k - 4, x);
      assert t[4..8] == s[4..8][k - 4 := x];
      assert t[..4] == s[..4] && t[8] == s[8];
    } else {
      assert t[4..8] == s[4..8] && t[..4] == s[..4];
    }
  }

  /** No print of a readable record begins another one's: what is read does not depend on what follows. */
  lemma PrintsTellApart(c: Content, d: Content, x: seq<Byte>, y: seq<Byte>, max: nat)
    requires Readable(c, max) && Readable(d, max) && Print(c) + x == Print(d) + y
    ensures c == d && x == y
  {
    hide At, Readable, Print, CutRecord;
    ReadableWritable(c, max);
    ReadableWritable(d, max);
    Begins(Print(c), x);
    Begins(Print(d), y);
    PrintedReads(Print(c) + x, c, max);
    PrintedReads(Print(d) + y, d, max);
    assert x == (Print(c) + x)[|Print(c)|..] == y;
  }

  lemma Begins(a: seq<Byte>, b: seq<Byte>)
    ensures At(a + b, 0, a)
  {
  }

  // --- Lists of records ---

  predicate AllReadable(cs: seq<Content>, max: nat) {
    forall i :: 0 <= i < |cs| ==> Readable(cs[i], max)
  }

  function PrintFrom(cs: seq<Content>, i: nat, max: nat): seq<Byte>
    requires i <= |cs| && AllReadable(cs, max)
    decreases |cs| - i
  {
    if i == |cs| then [] else Print(cs[i]) + PrintFrom(cs, i + 1, max)
  }

  /** Up to `n` records cut one after the other, and what is left. */
  function ReadMany(s: seq<Byte>, n: nat, max: nat): (seq<Content>, seq<Byte>) {
    if n == 0 || !CutRecord(s, max).Got? then ([], s)
    else
      var c := CutRecord(s, max);
      var r := ReadMany(s[c.at..], n - 1, max);
      ([c.content] + r.0, r.1)
  }

  lemma {:induction false} ManyRead(cs: seq<Content>, i: nat, rest: seq<Byte>, max: nat)
    requires i <= |cs| && AllReadable(cs, max)
    ensures ReadMany(PrintFrom(cs, i, max) + rest, |cs| - i, max) == (cs[i..], rest)
    decreases |cs| - i
  {
    hide Readable, Print, CutRecord, At;
    var s := PrintFrom(cs, i, max) + rest;
    if i == |cs| {
      assert s == rest && cs[i..] == [];
    } else {
      ReadableWritable(cs[i], max);
      var x, y := Print(cs[i]), PrintFrom(cs, i + 1, max);
      assert s == x + (y + rest);
      Begins(x, y + rest);
      PrintedReads(s, cs[i], max);
      assert s[|x|..] == y + rest;
      ManyRead(cs, i + 1, rest, max);
      assert cs[i..] == [cs[i]] + cs[i + 1..];
    }
  }

  /** Any list of readable records, printed one after the other and followed by anything, is read back as it was. */
  lemma PrintedListReads(cs: seq<Content>, rest: seq<Byte>, max: nat)
    requires AllReadable(cs, max)
    ensures ReadMany(PrintFrom(cs, 0, max) + rest, |cs|, max) == (cs, rest)
  {
    ManyRead(cs, 0, rest, max);
    assert cs[0..] == cs;
  }
}
