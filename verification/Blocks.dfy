/**
 Memory blocks shared by IOBufs. Memory is explicit: a map from addresses to blocks, so that a freed
 block is an address that is no longer in the map and touching it does not verify.
 */
module Blocks {
  import opened Chunks

  type BlockId = int          // address of an IOBuf::Block
  const NULL: BlockId := 0
  const UINT32_LIMIT := 0x1_0000_0000
  const OFFSET_LIMIT := 0x8000_0000   // the first bit of an offset doubles as the tag of BigView
  const BLOCK_LIMIT := 0x5555_5556    // three refs into blocks below it have fewer than 2^32 bytes

  /** IOBuf::Block. Bytes [0, size) were handed out, [size, cap) are free. */
  datatype Block = Block(nshared: nat, size: nat, cap: nat, data: seq<Byte>)

  type Mem = map<BlockId, Block>

  datatype BlockRef = BlockRef(offset: nat, length: nat, block: BlockId)

  predicate BlockOk(b: Block) {
    0 < b.nshared && b.size <= b.cap == |b.data| && b.cap < BLOCK_LIMIT
  }

  predicate MemOk(m: Mem) {
    NULL !in m && forall b :: b in m ==> BlockOk(m[b])
  }

  /** The ref ends below the limit of blocks. */
  predicate InLimit(r: BlockRef) {
    r.offset + r.length < BLOCK_LIMIT
  }

  /** The ref is not empty and lies in the part of a live block that was handed out. */
  predicate RefOk(m: Mem, r: BlockRef) {
    r.block in m && 0 < r.length && r.offset + r.length <= m[r.block].size
  }

  predicate RefsOk(m: Mem, s: seq<BlockRef>) {
    forall i :: 0 <= i < |s| ==> RefOk(m, s[i])
  }

  // A predicate that is the negation of another one is checked as a whole, not clause by clause.

  ghost predicate Broken(m: Mem, s: seq<BlockRef>) {
    !MemOk(m) || !RefsOk(m, s)
  }

  /** Memory and refs are sound. */
  ghost predicate Sound(m: Mem, s: seq<BlockRef>) {
    !Broken(m, s)
  }

  // ---- Bytes ----

  /** The `n` bytes of `d` from `o` on. */
  function Sub(d: seq<Byte>, o: nat, n: nat): seq<Byte>
    requires o + n <= |d|
  {
    if n == 0 then [] else Sub(d, o, n - 1) + [d[o + n - 1]]
  }

  lemma {:induction false} SubIs(d: seq<Byte>, o: nat, n: nat)
    requires o + n <= |d|
    ensures Sub(d, o, n) == d[o..o + n]
  {
    if n > 0 {
      SubIs(d, o, n - 1);
      assert d[o..o + n] == d[o..o + n - 1] + [d[o + n - 1]];
    }
  }

  lemma {:induction false} SubSplit(d: seq<Byte>, o: nat, n: nat, k: nat)
    requires o + n + k <= |d|
    ensures Eq(Sub(d, o, n + k), Sub(d, o, n) + Sub(d, o + n, k))
  {
    if k == 0 {
      Nil(Sub(d, o, n));
    } else {
      SubSplit(d, o, n, k - 1);
      Assoc(Sub(d, o, n), Sub(d, o + n, k - 1), [d[o + n + k - 1]]);
    }
  }

  lemma {:induction false} SubSame(d: seq<Byte>, e: seq<Byte>, o: nat, n: nat)
    requires o + n <= |d| && o + n <= |e| && forall i :: o <= i < o + n ==> d[i] == e[i]
    ensures Eq(Sub(d, o, n), Sub(e, o, n)) && |Sub(d, o, n)| == n
  {
    if n > 0 {
      SubSame(d, e, o, n - 1);
    }
  }

  function Slice(m: Mem, r: BlockRef): seq<Byte> {
    if r.block in m && r.offset + r.length <= |m[r.block].data|
    then Sub(m[r.block].data, r.offset, r.length) else []
  }

  /** The bytes the first `n` refs of a list stand for. */
  function BytesUpto(m: Mem, s: seq<BlockRef>, n: nat): seq<Byte>
    requires n <= |s|
  {
    if n == 0 then [] else BytesUpto(m, s, n - 1) + Slice(m, s[n - 1])
  }

  /** The bytes a list of refs stands for. */
  function Bytes(m: Mem, s: seq<BlockRef>): seq<Byte> {
    BytesUpto(m, s, |s|)
  }

  function TotalUpto(s: seq<BlockRef>, n: nat): nat
    requires n <= |s|
  {
    if n == 0 then 0 else TotalUpto(s, n - 1) + s[n - 1].length
  }

  function Total(s: seq<BlockRef>): nat {
    TotalUpto(s, |s|)
  }

  /** A ref cut in two. */
  function Head(r: BlockRef, n: nat): BlockRef
    requires n <= r.length
  {
    BlockRef(r.offset, n, r.block)
  }

  function Tail(r: BlockRef, n: nat): BlockRef
    requires n <= r.length
  {
    BlockRef(r.offset + n, r.length - n, r.block)
  }

  lemma SliceLength(m: Mem, r: BlockRef)
    requires MemOk(m) && RefOk(m, r)
    ensures |Slice(m, r)| == r.length
  {
    SubSame(m[r.block].data, m[r.block].data, r.offset, r.length);
  }

  lemma SliceCut(m: Mem, r: BlockRef, n: nat)
    requires MemOk(m) && RefOk(m, r) && 0 < n < r.length
    ensures RefOk(m, Head(r, n)) && RefOk(m, Tail(r, n))
    ensures Eq(Slice(m, r), Slice(m, Head(r, n)) + Slice(m, Tail(r, n))) && |Slice(m, Head(r, n))| == n
  {
    SubSplit(m[r.block].data, r.offset, n, r.length - n);
    SliceLength(m, Head(r, n));
  }

  /** `k` bytes of a ref from its byte `off` on. */
  function Piece(r: BlockRef, off: nat, k: nat): BlockRef {
    BlockRef(r.offset + off, k, r.block)
  }

  /** The bytes of the refs from the `k`-th on. */
  function BytesFrom(m: Mem, s: seq<BlockRef>, k: nat): seq<Byte>
    requires k <= |s|
    decreases |s| - k
  {
    if k == |s| then [] else Slice(m, s[k]) + BytesFrom(m, s, k + 1)
  }

  lemma {:induction false} UptoFrom(m: Mem, s: seq<BlockRef>, k: nat)
    requires k <= |s|
    ensures Eq(Bytes(m, s), BytesUpto(m, s, k) + BytesFrom(m, s, k))
    decreases |s| - k
  {
    if k == |s| {
      assert Bytes(m, s) + [] == Bytes(m, s);
    } else {
      UptoFrom(m, s, k + 1);
      Assoc(BytesUpto(m, s, k), Slice(m, s[k]), BytesFrom(m, s, k + 1));
    }
  }

  lemma AroundRef(m: Mem, s: seq<BlockRef>, i: nat)
    requires i < |s|
    ensures Eq(Bytes(m, s), BytesUpto(m, s, i) + (Slice(m, s[i]) + BytesFrom(m, s, i + 1)))
  {
    UptoFrom(m, s, i);
  }

  /** Where the bytes of the `i`-th ref are. */
  lemma SliceAt(m: Mem, s: seq<BlockRef>, i: nat, p: nat, n: nat)
    requires Sized(m, s) && i < |s| && p == TotalUpto(s, i) && n == s[i].length
    ensures p + n <= |Bytes(m, s)| && Eq(Bytes(m, s)[p..p + n], Slice(m, s[i]))
  {
    AroundRef(m, s, i);
    BytesUptoLength(m, s, i);
    Mid(Bytes(m, s), BytesUpto(m, s, i), Slice(m, s[i]), BytesFrom(m, s, i + 1), p, n);
  }

  lemma PieceSlice(m: Mem, r: BlockRef, off: nat, k: nat)
    requires MemOk(m) && RefOk(m, r) && off + k <= r.length
    ensures |Slice(m, r)| == r.length && Eq(Slice(m, Piece(r, off, k)), Slice(m, r)[off..off + k])
  {
    SubIs(m[r.block].data, r.offset, r.length);
    SubIs(m[r.block].data, r.offset + off, k);
    Nested(m[r.block].data, r.offset, r.length, off, k, r.offset + off);
  }

  lemma PieceAtSized(m: Mem, s: seq<BlockRef>, i: nat, off: nat, k: nat, p: nat, q: nat)
    requires Sized(m, s) && i < |s| && off + k <= s[i].length && p == TotalUpto(s, i) + off && q == p + k
    requires Eq(Slice(m, Piece(s[i], off, k)), Slice(m, s[i])[off..off + k])
    ensures q <= |Bytes(m, s)| && Eq(Slice(m, Piece(s[i], off, k)), Bytes(m, s)[p..q])
  {
    var o, n := p - off, s[i].length;
    SliceAt(m, s, i, o, n);
    PartOf(Bytes(m, s), o, n, Slice(m, s[i]), off, k, Slice(m, Piece(s[i], off, k)), p, q);
  }

  /** Where the bytes of a piece of the `i`-th ref are. */
  lemma PieceAt(m: Mem, s: seq<BlockRef>, i: nat, off: nat, k: nat, p: nat, q: nat)
    requires Sound(m, s) && i < |s| && off + k <= s[i].length && p == TotalUpto(s, i) + off && q == p + k
    ensures q <= |Bytes(m, s)| && Eq(Slice(m, Piece(s[i], off, k)), Bytes(m, s)[p..q])
  {
    BytesLength(m, s);
    PieceSlice(m, s[i], off, k);
    PieceAtSized(m, s, i, off, k, p, q);
  }

  lemma {:induction false} UptoSame(m: Mem, s: seq<BlockRef>, t: seq<BlockRef>, n: nat)
    requires n <= |s| && n <= |t| && forall i :: 0 <= i < n ==> s[i] == t[i]
    ensures Eq(BytesUpto(m, s, n), BytesUpto(m, t, n))
    ensures TotalUpto(s, n) == TotalUpto(t, n)
    ensures Eq(ClaimsUpto(s, n), ClaimsUpto(t, n))
  {
    if n > 0 {
      UptoSame(m, s, t, n - 1);
    }
  }

  lemma {:induction false} UptoCons(m: Mem, r: BlockRef, s: seq<BlockRef>, n: nat)
    requires n <= |s|
    ensures Eq(BytesUpto(m, [r] + s, n + 1), Slice(m, r) + BytesUpto(m, s, n))
  {
    if n == 0 {
      Nil(Slice(m, r));
    } else {
      UptoCons(m, r, s, n - 1);
      Assoc(Slice(m, r), BytesUpto(m, s, n - 1), Slice(m, s[n - 1]));
    }
  }

  lemma {:induction false} CountsCons(r: BlockRef, s: seq<BlockRef>, n: nat)
    requires n <= |s|
    ensures TotalUpto([r] + s, n + 1) == r.length + TotalUpto(s, n)
    ensures ClaimsUpto([r] + s, n + 1) == multiset{r.block} + ClaimsUpto(s, n)
  {
    if n > 0 {
      CountsCons(r, s, n - 1);
    }
  }

  lemma Snoc(m: Mem, s: seq<BlockRef>, r: BlockRef)
    ensures Eq(Bytes(m, s + [r]), Bytes(m, s) + Slice(m, r))
    ensures Total(s + [r]) == Total(s) + r.length
    ensures Claims(s + [r]) == Claims(s) + multiset{r.block}
  {
    UptoSame(m, s, s + [r], |s|);
  }

  lemma Cons(m: Mem, r: BlockRef, s: seq<BlockRef>)
    ensures Eq(Bytes(m, [r] + s), Slice(m, r) + Bytes(m, s))
    ensures Total([r] + s) == r.length + Total(s)
    ensures Claims([r] + s) == multiset{r.block} + Claims(s)
  {
    UptoCons(m, r, s, |s|);
    CountsCons(r, s, |s|);
  }

  /** A list is its last ref behind the others. */
  lemma Last(m: Mem, s: seq<BlockRef>)
    requires |s| > 0
    ensures var t := s[..|s| - 1]; var r := s[|s| - 1];
      && Eq(Bytes(m, s), Bytes(m, t) + Slice(m, r))
      && Total(s) == Total(t) + r.length
      && Claims(s) == Claims(t) + multiset{r.block}
  {
    UptoSame(m, s, s[..|s| - 1], |s| - 1);
  }

  /** A list is its first ref before the others. */
  lemma First(m: Mem, s: seq<BlockRef>)
    requires |s| > 0
    ensures Eq(Bytes(m, s), Slice(m, s[0]) + Bytes(m, s[1..]))
    ensures Total(s) == s[0].length + Total(s[1..])
    ensures Claims(s) == multiset{s[0].block} + Claims(s[1..])
  {
    assert s == [s[0]] + s[1..];
    Cons(m, s[0], s[1..]);
  }

  lemma {:induction false} TotalMonotone(s: seq<BlockRef>, i: nat, n: nat)
    requires i <= n <= |s|
    ensures TotalUpto(s, i) <= TotalUpto(s, n)
  {
    if i < n {
      TotalMonotone(s, i, n - 1);
    }
  }

  lemma {:induction false} TotalUptoSet(s: seq<BlockRef>, i: nat, x: BlockRef, n: nat)
    requires i < |s| && n <= |s|
    ensures TotalUpto(s[i := x], n) == TotalUpto(s, n) + if i < n then x.length - s[i].length else 0
  {
    if n > 0 {
      TotalUptoSet(s, i, x, n - 1);
    }
  }

  lemma TotalSet(s: seq<BlockRef>, i: nat, x: BlockRef)
    requires i < |s|
    ensures Total(s[i := x]) == Total(s) - s[i].length + x.length
  {
    TotalUptoSet(s, i, x, |s|);
  }

  /** The slice of each ref has the length the ref says. */
  predicate Sized(m: Mem, s: seq<BlockRef>) {
    forall i :: 0 <= i < |s| ==> |Slice(m, s[i])| == s[i].length
  }

  lemma {:induction false} BytesUptoLength(m: Mem, s: seq<BlockRef>, n: nat)
    requires Sized(m, s) && n <= |s|
    ensures |BytesUpto(m, s, n)| == TotalUpto(s, n)
  {
    if n > 0 {
      BytesUptoLength(m, s, n - 1);
    }
  }

  lemma BytesLength(m: Mem, s: seq<BlockRef>)
    requires Sound(m, s)
    ensures Sized(m, s) && |Bytes(m, s)| == Total(s)
  {
    forall i | 0 <= i < |s|
      ensures |Slice(m, s[i])| == s[i].length
    {
      SliceLength(m, s[i]);
    }
    BytesUptoLength(m, s, |s|);
  }

  // ---- Reference counts ----

  function Cnt(m: Mem, b: BlockId): nat {
    if b in m then m[b].nshared else 0
  }

  /** How often each block is referred to by the first `n` refs of a list. */
  function ClaimsUpto(s: seq<BlockRef>, n: nat): multiset<BlockId>
    requires n <= |s|
  {
    if n == 0 then multiset{} else ClaimsUpto(s, n - 1) + multiset{s[n - 1].block}
  }

  /** How often each block is referred to by a list of refs. */
  function Claims(s: seq<BlockRef>): multiset<BlockId> {
    ClaimsUpto(s, |s|)
  }

  lemma {:induction false} ClaimsAt(s: seq<BlockRef>, i: nat, n: nat)
    requires i < n <= |s|
    ensures 0 < ClaimsUpto(s, n)[s[i].block]
  {
    if i < n - 1 {
      ClaimsAt(s, i, n - 1);
    }
  }

  /** Some counter is too small for the claims `c`. */
  ghost predicate Short(m: Mem, c: multiset<BlockId>) {
    exists b: BlockId :: Cnt(m, b) < c[b]
  }

  /** The counters are large enough for the claims `c`. */
  ghost predicate Covers(m: Mem, c: multiset<BlockId>) {
    !Short(m, c)
  }

  /** Nothing that was handed out of a block has changed. */
  predicate Kept(x: Block, y: Block) {
    && |x.data| == x.cap && |y.data| == y.cap == x.cap && x.size <= x.cap && x.size <= y.size
    && y.data[..x.size] == x.data[..x.size]
  }

  /** A change of memory by a holder whose claims go from `c` to `c'` is a fault when a counter does
      not move with the claims, or when a block somebody else claims dies or loses bytes. */
  ghost predicate Disturbs(m: Mem, c: multiset<BlockId>, m': Mem, c': multiset<BlockId>) {
    || !MemOk(m) || !MemOk(m')
    || (exists b: BlockId :: Cnt(m', b) + c[b] != Cnt(m, b) + c'[b])
    || (exists b: BlockId :: c[b] < Cnt(m, b) && !(b in m && b in m' && Kept(m[b], m'[b])))
  }

  ghost predicate Effect(m: Mem, c: multiset<BlockId>, m': Mem, c': multiset<BlockId>) {
    !Disturbs(m, c, m', c')
  }

  lemma EffectRefl(m: Mem, c: multiset<BlockId>)
    requires MemOk(m)
    ensures Effect(m, c, m, c)
  {
  }

  lemma EffectTrans(m0: Mem, c0: multiset<BlockId>, m1: Mem, c1: multiset<BlockId>, m2: Mem, c2: multiset<BlockId>)
    requires Effect(m0, c0, m1, c1) && Effect(m1, c1, m2, c2)
    ensures Effect(m0, c0, m2, c2)
  {
    forall b: BlockId | c0[b] < Cnt(m0, b)
      ensures b in m0 && b in m2 && Kept(m0[b], m2[b])
    {
      assert Cnt(m1, b) + c0[b] == Cnt(m0, b) + c1[b];
      assert m2[b].data[..m1[b].size][..m0[b].size] == m2[b].data[..m0[b].size];
      assert m1[b].data[..m1[b].size][..m0[b].size] == m1[b].data[..m0[b].size];
    }
  }

  /** Claims of a bystander can be added on both sides and stay covered. */
  lemma EffectFrame(m: Mem, c: multiset<BlockId>, m': Mem, c': multiset<BlockId>, d: multiset<BlockId>)
    requires Effect(m, c, m', c')
    ensures Effect(m, c + d, m', c' + d)
    ensures Covers(m, c + d) ==> Covers(m', c' + d)
  {
    forall b: BlockId
      ensures Cnt(m', b) + (c + d)[b] == Cnt(m, b) + (c' + d)[b]
    {
      assert Cnt(m', b) + c[b] == Cnt(m, b) + c'[b];
    }
  }

  lemma SliceKept(m: Mem, m': Mem, r: BlockRef)
    requires MemOk(m) && MemOk(m') && RefOk(m, r) && r.block in m' && Kept(m[r.block], m'[r.block])
    ensures RefOk(m', r) && Eq(Slice(m', r), Slice(m, r))
  {
    var x, y := m[r.block], m'[r.block];
    forall i | r.offset <= i < r.offset + r.length
      ensures y.data[i] == x.data[i]
    {
      assert y.data[..x.size][i] == x.data[..x.size][i];
    }
    SubSame(x.data, y.data, r.offset, r.length);
  }

  lemma CoversLess(m: Mem, c: multiset<BlockId>, d: multiset<BlockId>)
    requires Covers(m, c + d)
    ensures Covers(m, c) && Covers(m, d)
  {
    forall b: BlockId
      ensures c[b] <= Cnt(m, b) && d[b] <= Cnt(m, b)
    {
      assert (c + d)[b] <= Cnt(m, b);
    }
  }

  /** A block that a bystander refers to survives. */
  lemma BystanderRef(m: Mem, c: multiset<BlockId>, m': Mem, c': multiset<BlockId>, d: multiset<BlockId>, r: BlockRef)
    requires Effect(m, c, m', c') && RefOk(m, r) && Covers(m, c + d) && 0 < d[r.block]
    ensures RefOk(m', r) && Eq(Slice(m', r), Slice(m, r))
  {
    assert (c + d)[r.block] <= Cnt(m, r.block);
    SliceKept(m, m', r);
  }

  lemma {:induction false} BystanderUpto(m: Mem, c: multiset<BlockId>, m': Mem, c': multiset<BlockId>,
    s: seq<BlockRef>, n: nat)
    requires Effect(m, c, m', c') && RefsOk(m, s) && Covers(m, c + Claims(s)) && n <= |s|
    ensures forall i :: 0 <= i < n ==> RefOk(m', s[i])
    ensures Eq(BytesUpto(m', s, n), BytesUpto(m, s, n))
  {
    if n > 0 {
      BystanderUpto(m, c, m', c', s, n - 1);
      ClaimsAt(s, n - 1, |s|);
      BystanderRef(m, c, m', c', Claims(s), s[n - 1]);
    }
  }

  /** A bystander sees the same bytes. */
  lemma BystanderBytes(m: Mem, c: multiset<BlockId>, m': Mem, c': multiset<BlockId>, s: seq<BlockRef>)
    requires Effect(m, c, m', c') && RefsOk(m, s) && Covers(m, c + Claims(s))
    ensures RefsOk(m', s) && Eq(Bytes(m', s), Bytes(m, s))
  {
    BystanderUpto(m, c, m', c', s, |s|);
  }

  /** Block::inc_ref */
  function IncRef(m: Mem, b: BlockId): Mem {
    if b in m then m[b := m[b].(nshared := m[b].nshared + 1)] else m
  }

  /** Block::dec_ref: the last reference frees the block. */
  function DecRef(m: Mem, b: BlockId): Mem {
    if b !in m then m
    else if m[b].nshared <= 1 then m - {b}
    else m[b := m[b].(nshared := m[b].nshared - 1)]
  }

  lemma IncRefEffect(m: Mem, b: BlockId)
    requires MemOk(m) && b in m
    ensures Effect(m, multiset{}, IncRef(m, b), multiset{b})
  {
  }

  lemma DecRefEffect(m: Mem, b: BlockId)
    requires MemOk(m) && b in m
    ensures Effect(m, multiset{b}, DecRef(m, b), multiset{})
  {
  }
}
