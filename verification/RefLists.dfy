/** What the ref operations of IOBuf mean on a plain list of refs. */
module RefLists {
  import opened Chunks
  import opened Blocks

  /** `r` continues the last ref: same block, adjacent bytes. */
  predicate Merges(s: seq<BlockRef>, r: BlockRef) {
    |s| > 0 && s[|s| - 1].block == r.block && s[|s| - 1].offset + s[|s| - 1].length == r.offset
  }

  /** Appending a ref, merged into the last one where it continues it. */
  function PushBack(s: seq<BlockRef>, r: BlockRef): seq<BlockRef> {
    if Merges(s, r) then s[|s| - 1 := s[|s| - 1].(length := s[|s| - 1].length + r.length)] else s + [r]
  }

  /** Memory after _push_back_ref, which takes a new reference. */
  function PushMem(m: Mem, s: seq<BlockRef>, r: BlockRef): Mem {
    if Merges(s, r) then m else IncRef(m, r.block)
  }

  /** Memory after _move_back_ref, which takes over the caller's reference. */
  function MoveMem(m: Mem, s: seq<BlockRef>, r: BlockRef): Mem {
    if Merges(s, r) then DecRef(m, r.block) else m
  }

  /** The first `n` bytes of the first ref are gone. */
  function TrimFront(s: seq<BlockRef>, n: nat): seq<BlockRef>
    requires |s| > 0 && n <= s[0].length
  {
    s[0 := Tail(s[0], n)]
  }

  /** Only the first `n` bytes of the last ref are left. */
  function TrimBack(s: seq<BlockRef>, n: nat): seq<BlockRef>
    requires |s| > 0 && n <= s[|s| - 1].length
  {
    s[|s| - 1 := Head(s[|s| - 1], n)]
  }

  lemma MergedSlice(m: Mem, x: BlockRef, r: BlockRef)
    requires MemOk(m) && RefOk(m, x) && RefOk(m, r) && x.block == r.block && x.offset + x.length == r.offset
    ensures RefOk(m, x.(length := x.length + r.length))
    ensures Eq(Slice(m, x.(length := x.length + r.length)), Slice(m, x) + Slice(m, r))
  {
    SubSplit(m[x.block].data, x.offset, x.length, r.length);
  }

  lemma PushBackOk(m: Mem, s: seq<BlockRef>, r: BlockRef)
    requires Sound(m, s) && RefOk(m, r)
    ensures RefsOk(m, PushBack(s, r))
  {
  }

  /** Replacing the last ref. */
  lemma SetLast(m: Mem, s: seq<BlockRef>, x: BlockRef)
    requires |s| > 0
    ensures var k := |s| - 1;
      && Eq(Bytes(m, s[k := x]), BytesUpto(m, s, k) + Slice(m, x))
      && Eq(Bytes(m, s), BytesUpto(m, s, k) + Slice(m, s[k]))
      && Total(s[k := x]) == Total(s) - s[k].length + x.length
      && (x.block == s[k].block ==> Claims(s[k := x]) == Claims(s))
  {
    UptoSame(m, s, s[|s| - 1 := x], |s| - 1);
  }

  lemma PushBackBytes(m: Mem, s: seq<BlockRef>, r: BlockRef)
    requires Sound(m, s) && RefOk(m, r)
    ensures RefsOk(m, PushBack(s, r)) && Eq(Bytes(m, PushBack(s, r)), Bytes(m, s) + Slice(m, r))
  {
    PushBackOk(m, s, r);
    if Merges(s, r) {
      var k := |s| - 1;
      MergedSlice(m, s[k], r);
      SetLast(m, s, s[k].(length := s[k].length + r.length));
      Assoc(BytesUpto(m, s, k), Slice(m, s[k]), Slice(m, r));
    } else {
      Snoc(m, s, r);
    }
  }

  lemma PushBackClaims(s: seq<BlockRef>, r: BlockRef)
    ensures Total(PushBack(s, r)) == Total(s) + r.length
    ensures Claims(PushBack(s, r)) == Claims(s) + if Merges(s, r) then multiset{} else multiset{r.block}
  {
    if Merges(s, r) {
      SetLast(map[], s, s[|s| - 1].(length := s[|s| - 1].length + r.length));
    } else {
      Snoc(map[], s, r);
    }
  }

  lemma PushEffect(m: Mem, s: seq<BlockRef>, r: BlockRef)
    requires MemOk(m) && r.block in m
    ensures Effect(m, Claims(s), PushMem(m, s, r), Claims(PushBack(s, r)))
  {
    PushBackClaims(s, r);
    IncRefEffect(m, r.block);
    EffectFrame(m, multiset{}, IncRef(m, r.block), multiset{r.block}, Claims(s));
  }

  lemma MoveEffect(m: Mem, s: seq<BlockRef>, r: BlockRef)
    requires MemOk(m) && r.block in m
    ensures Effect(m, Claims(s) + multiset{r.block}, MoveMem(m, s, r), Claims(PushBack(s, r)))
  {
    PushBackClaims(s, r);
    DecRefEffect(m, r.block);
    EffectFrame(m, multiset{r.block}, DecRef(m, r.block), multiset{}, Claims(s));
  }

  lemma TrimFrontBytes(m: Mem, s: seq<BlockRef>, n: nat)
    requires Sound(m, s) && |s| > 0 && 0 < n < s[0].length
    ensures var t := TrimFront(s, n); var x := Slice(m, Head(s[0], n));
      RefsOk(m, t) && |x| == n && Eq(Bytes(m, s), x + Bytes(m, t)) && Claims(t) == Claims(s)
  {
    SliceCut(m, s[0], n);
    First(m, s);
    First(m, TrimFront(s, n));
    assert TrimFront(s, n)[1..] == s[1..];
    Assoc(Slice(m, Head(s[0], n)), Slice(m, Tail(s[0], n)), Bytes(m, s[1..]));
  }

  lemma TrimBackBytes(m: Mem, s: seq<BlockRef>, n: nat)
    requires Sound(m, s) && |s| > 0 && 0 < n < s[|s| - 1].length
    ensures var r := s[|s| - 1]; var t := TrimBack(s, n); var y := Slice(m, Tail(r, n));
      RefsOk(m, t) && |y| == r.length - n && Eq(Bytes(m, s), Bytes(m, t) + y) && Claims(t) == Claims(s)
  {
    var k, r := |s| - 1, s[|s| - 1];
    SliceCut(m, r, n);
    SliceLength(m, Tail(r, n));
    SetLast(m, s, Head(r, n));
    Assoc(BytesUpto(m, s, k), Slice(m, Head(r, n)), Slice(m, Tail(r, n)));
  }
}
