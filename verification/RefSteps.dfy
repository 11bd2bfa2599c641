/** One step of the byte-level operations, on lists of refs and memory. */
module RefSteps {
  import opened Chunks
  import opened Blocks
  import opened RefLists

  ghost predicate Unsound(m: Mem, s: seq<BlockRef>, c: multiset<BlockId>) {
    !(MemOk(m) && RefsOk(m, s) && Covers(m, c))
  }

  /** The refs are sound and the counters cover them. */
  ghost predicate Held(m: Mem, s: seq<BlockRef>) {
    !Unsound(m, s, Claims(s))
  }

  /** The same for two buffers at once. */
  ghost predicate Held2(m: Mem, s: seq<BlockRef>, t: seq<BlockRef>) {
    !Unsound(m, s, Claims(s) + Claims(t)) && !Unsound(m, t, Claims(s) + Claims(t))
  }

  lemma Held2Each(m: Mem, s: seq<BlockRef>, t: seq<BlockRef>)
    requires Held2(m, s, t)
    ensures Held(m, s) && Held(m, t) && Held2(m, t, s)
  {
    CoversLess(m, Claims(s), Claims(t));
    assert Claims(s) + Claims(t) == Claims(t) + Claims(s);
  }

  /** Dropping the reference of one ref, seen from the refs that stay. */
  lemma DropStep(m: Mem, b: BlockId, s: seq<BlockRef>)
    requires MemOk(m) && b in m && RefsOk(m, s) && Covers(m, multiset{b} + Claims(s))
    ensures Effect(m, multiset{b} + Claims(s), DecRef(m, b), Claims(s))
    ensures Held(DecRef(m, b), s) && Eq(Bytes(DecRef(m, b), s), Bytes(m, s))
  {
    var m' := DecRef(m, b);
    DecRefEffect(m, b);
    EffectFrame(m, multiset{b}, m', multiset{}, Claims(s));
    assert multiset{} + Claims(s) == Claims(s);
    BystanderBytes(m, multiset{b}, m', multiset{}, s);
  }

  lemma PopFrontStep(m: Mem, s: seq<BlockRef>)
    requires Held(m, s) && |s| > 0
    ensures var m' := DecRef(m, s[0].block);
      && Effect(m, Claims(s), m', Claims(s[1..])) && Held(m', s[1..])
      && Eq(Bytes(m, s), Slice(m, s[0]) + Bytes(m', s[1..]))
  {
    First(m, s);
    DropStep(m, s[0].block, s[1..]);
  }

  lemma PopBackStep(m: Mem, s: seq<BlockRef>)
    requires Held(m, s) && |s| > 0
    ensures var n := |s| - 1; var m' := DecRef(m, s[n].block);
      && Effect(m, Claims(s), m', Claims(s[..n])) && Held(m', s[..n])
      && Eq(Bytes(m, s), Bytes(m', s[..n]) + Slice(m, s[n]))
  {
    var n := |s| - 1;
    Last(m, s);
    assert Claims(s) == multiset{s[n].block} + Claims(s[..n]);
    DropStep(m, s[n].block, s[..n]);
  }

  /** Taking over the reference of `r` while the refs `s` stay where they are. */
  lemma TakeOverStep(m: Mem, r: BlockRef, s: seq<BlockRef>, t: seq<BlockRef>)
    requires MemOk(m) && RefOk(m, r) && RefsOk(m, s) && RefsOk(m, t)
    requires Covers(m, Claims(t) + multiset{r.block} + Claims(s))
    ensures var m' := MoveMem(m, t, r); var t' := PushBack(t, r);
      && Effect(m, Claims(t) + multiset{r.block} + Claims(s), m', Claims(t') + Claims(s))
      && Held2(m', s, t') && Eq(Bytes(m', s), Bytes(m, s)) && Eq(Bytes(m', t'), Bytes(m, t) + Slice(m, r))
  {
    var m', t', own := MoveMem(m, t, r), PushBack(t, r), Claims(t) + multiset{r.block};
    MoveEffect(m, t, r);
    EffectFrame(m, own, m', Claims(t'), Claims(s));
    assert Claims(t') + Claims(s) == Claims(s) + Claims(t');
    BystanderBytes(m, own, m', Claims(t'), s);
    CoversLess(m, own, Claims(s));
    MovedBytes(m, t, r);
  }

  /** cutn moves a whole ref from the front of `s` to the back of `t`. */
  lemma MoveStep(m: Mem, s: seq<BlockRef>, t: seq<BlockRef>)
    requires Held2(m, s, t) && |s| > 0
    ensures var m' := MoveMem(m, t, s[0]); var t' := PushBack(t, s[0]);
      && Effect(m, Claims(s) + Claims(t), m', Claims(s[1..]) + Claims(t')) && Held2(m', s[1..], t')
      && Eq(Bytes(m, s), Slice(m, s[0]) + Bytes(m', s[1..]))
      && Eq(Bytes(m', t'), Bytes(m, t) + Slice(m, s[0]))
  {
    var r, rest := s[0], s[1..];
    First(m, s);
    assert Claims(t) + multiset{r.block} + Claims(rest) == Claims(s) + Claims(t);
    TakeOverStep(m, r, rest, t);
    assert Claims(PushBack(t, r)) + Claims(rest) == Claims(rest) + Claims(PushBack(t, r));
  }

  lemma MovedBytes(m: Mem, t: seq<BlockRef>, r: BlockRef)
    requires MemOk(m) && RefsOk(m, t) && RefOk(m, r) && Covers(m, Claims(t) + multiset{r.block})
    ensures var m' := MoveMem(m, t, r);
      RefsOk(m', PushBack(t, r)) && Eq(Bytes(m', PushBack(t, r)), Bytes(m, t) + Slice(m, r))
  {
    PushBackBytes(m, t, r);
    if Merges(t, r) {
      PushBackClaims(t, r);
      DecRefEffect(m, r.block);
      assert multiset{r.block} + Claims(PushBack(t, r)) == Claims(t) + multiset{r.block};
      BystanderBytes(m, multiset{r.block}, DecRef(m, r.block), multiset{}, PushBack(t, r));
    }
  }

  /** Sharing: a ref is pushed to `t` while the owner of `s` keeps its own. */
  lemma PushStep(m: Mem, s: seq<BlockRef>, t: seq<BlockRef>, r: BlockRef)
    requires Held2(m, s, t) && RefOk(m, r)
    ensures var m' := PushMem(m, t, r); var t' := PushBack(t, r);
      && Effect(m, Claims(s) + Claims(t), m', Claims(s) + Claims(t'))
      && Held2(m', s, t') && Eq(Bytes(m', s), Bytes(m, s)) && Eq(Bytes(m', t'), Bytes(m, t) + Slice(m, r))
  {
    var m', t' := PushMem(m, t, r), PushBack(t, r);
    PushEffect(m, t, r);
    EffectFrame(m, Claims(t), m', Claims(t'), Claims(s));
    assert Claims(t) + Claims(s) == Claims(s) + Claims(t);
    assert Claims(t') + Claims(s) == Claims(s) + Claims(t');
    BystanderBytes(m, Claims(t), m', Claims(t'), s);
    PushedBytes(m, t, r);
  }

  lemma PushedBytes(m: Mem, t: seq<BlockRef>, r: BlockRef)
    requires MemOk(m) && RefsOk(m, t) && RefOk(m, r) && Covers(m, Claims(t))
    ensures var m' := PushMem(m, t, r);
      RefsOk(m', PushBack(t, r)) && Eq(Bytes(m', PushBack(t, r)), Bytes(m, t) + Slice(m, r))
  {
    PushBackBytes(m, t, r);
    if !Merges(t, r) {
      var m' := IncRef(m, r.block);
      IncRefEffect(m, r.block);
      assert multiset{} + Claims(t) == Claims(t);
      BystanderBytes(m, multiset{}, m', multiset{r.block}, t);
      PushBackBytes(m', t, r);
    }
  }

  // ---- Loops that drop bytes ----

  ghost predicate NotLeft(m0: Mem, s0: seq<BlockRef>, m: Mem, s: seq<BlockRef>, lo: nat, hi: nat) {
    || !Held(m, s) || !Effect(m0, Claims(s0), m, Claims(s))
    || !(lo <= hi <= |Bytes(m0, s0)|) || Differ(Bytes(m, s), Bytes(m0, s0)[lo..hi])
  }

  /** Of the bytes of `s0` those in [lo, hi) are left, and the references of the others were given back. */
  ghost predicate Left(m0: Mem, s0: seq<BlockRef>, m: Mem, s: seq<BlockRef>, lo: nat, hi: nat) {
    !NotLeft(m0, s0, m, s, lo, hi)
  }

  lemma AllLeft(m: Mem, s: seq<BlockRef>, hi: nat)
    requires Held(m, s) && hi == |Bytes(m, s)|
    ensures Left(m, s, m, s, 0, hi)
  {
    EffectRefl(m, Claims(s));
    Whole(Bytes(m, s));
  }

  lemma NoneLeft(m0: Mem, s0: seq<BlockRef>, m: Mem, n: nat)
    requires Effect(m0, Claims(s0), m, multiset{}) && n <= |Bytes(m0, s0)|
    ensures Left(m0, s0, m, [], n, n)
  {
    Empty(Bytes(m0, s0), n);
  }

  /** Dropping goes on where an earlier step, which dropped `x` in front, has stopped. */
  lemma LeftAfterFront(m: Mem, s: seq<BlockRef>, x: seq<Byte>, m1: Mem, s1: seq<BlockRef>,
    m2: Mem, s2: seq<BlockRef>, k: nat, lo: nat, hi: nat)
    requires Eq(Bytes(m, s), x + Bytes(m1, s1)) && Effect(m, Claims(s), m1, Claims(s1))
    requires Left(m1, s1, m2, s2, k, |Bytes(m1, s1)|) && lo == |x| + k && hi == |Bytes(m, s)|
    ensures Left(m, s, m2, s2, lo, hi)
  {
    EffectTrans(m, Claims(s), m1, Claims(s1), m2, Claims(s2));
    DropFirst(Bytes(m, s), x, Bytes(m1, s1), k, lo, hi);
  }

  /** Dropping goes on where an earlier step, which dropped `x` behind, has stopped. */
  lemma LeftAfterBack(m: Mem, s: seq<BlockRef>, x: seq<Byte>, m1: Mem, s1: seq<BlockRef>, m2: Mem, s2: seq<BlockRef>,
    k: nat)
    requires Eq(Bytes(m, s), Bytes(m1, s1) + x) && Effect(m, Claims(s), m1, Claims(s1))
    requires Left(m1, s1, m2, s2, 0, k)
    ensures Left(m, s, m2, s2, 0, k)
  {
    EffectTrans(m, Claims(s), m1, Claims(s1), m2, Claims(s2));
    DropLast(Bytes(m, s), Bytes(m1, s1), x, k);
  }

  // ---- Loops that move bytes from one buffer to another ----

  ghost predicate NotMoved(m0: Mem, s0: seq<BlockRef>, t0: seq<BlockRef>, m: Mem, s: seq<BlockRef>, t: seq<BlockRef>,
    k: nat)
  {
    || !Held2(m, s, t) || !Effect(m0, Claims(s0) + Claims(t0), m, Claims(s) + Claims(t))
    || k > |Bytes(m0, s0)| || Differ(Bytes(m, s), Bytes(m0, s0)[k..])
    || Differ(Bytes(m, t), Bytes(m0, t0) + Bytes(m0, s0)[..k])
  }

  /** `k` bytes went from the front of one buffer to the back of another. */
  ghost predicate Moved(m0: Mem, s0: seq<BlockRef>, t0: seq<BlockRef>, m: Mem, s: seq<BlockRef>, t: seq<BlockRef>,
    k: nat)
  {
    !NotMoved(m0, s0, t0, m, s, t, k)
  }

  lemma NothingMoved(m: Mem, s: seq<BlockRef>, t: seq<BlockRef>)
    requires Held2(m, s, t)
    ensures Moved(m, s, t, m, s, t, 0)
  {
    EffectRefl(m, Claims(s) + Claims(t));
    Nil(Bytes(m, t));
  }

  /** Moving goes on where an earlier step, which moved `x`, has stopped. */
  lemma MovedAfter(m: Mem, s: seq<BlockRef>, t: seq<BlockRef>, x: seq<Byte>, m1: Mem, s1: seq<BlockRef>,
    t1: seq<BlockRef>,
    m2: Mem, s2: seq<BlockRef>, t2: seq<BlockRef>, k: nat, n: nat)
    requires n == |x| + k && Eq(Bytes(m, s), x + Bytes(m1, s1)) && Eq(Bytes(m1, t1), Bytes(m, t) + x)
    requires Effect(m, Claims(s) + Claims(t), m1, Claims(s1) + Claims(t1)) && Moved(m1, s1, t1, m2, s2, t2, k)
    ensures Moved(m, s, t, m2, s2, t2, n)
  {
    EffectTrans(m, Claims(s) + Claims(t), m1, Claims(s1) + Claims(t1), m2, Claims(s2) + Claims(t2));
    DropFirst(Bytes(m, s), x, Bytes(m1, s1), k, n, |Bytes(m, s)|);
    TakeMore(Bytes(m, s), x, Bytes(m1, s1), k, n);
    Assoc(Bytes(m, t), x, Bytes(m1, s1)[..k]);
  }

  // ---- Loops that share bytes ----

  ghost predicate NotShared(m0: Mem, s: seq<BlockRef>, t0: seq<BlockRef>, m: Mem, t: seq<BlockRef>, x: seq<Byte>) {
    || !Held2(m, s, t) || !Effect(m0, Claims(s) + Claims(t0), m, Claims(s) + Claims(t))
    || Differ(Bytes(m, s), Bytes(m0, s)) || Differ(Bytes(m, t), Bytes(m0, t0) + x)
  }

  /** The bytes `x` were added to `t` without a copy while `s` stayed as it was. */
  ghost predicate Shared(m0: Mem, s: seq<BlockRef>, t0: seq<BlockRef>, m: Mem, t: seq<BlockRef>, x: seq<Byte>) {
    !NotShared(m0, s, t0, m, t, x)
  }

  lemma NothingShared(m: Mem, s: seq<BlockRef>, t: seq<BlockRef>)
    requires Held2(m, s, t)
    ensures Shared(m, s, t, m, t, [])
  {
    EffectRefl(m, Claims(s) + Claims(t));
    Nil(Bytes(m, t));
  }

  /** Sharing goes on where an earlier step, which shared `x`, has stopped. */
  lemma SharedAfter(m: Mem, s: seq<BlockRef>, t: seq<BlockRef>, x: seq<Byte>, m1: Mem, t1: seq<BlockRef>,
    m2: Mem, t2: seq<BlockRef>, y: seq<Byte>)
    requires Shared(m, s, t, m1, t1, x) && Shared(m1, s, t1, m2, t2, y)
    ensures Shared(m, s, t, m2, t2, x + y)
  {
    EffectTrans(m, Claims(s) + Claims(t), m1, Claims(s) + Claims(t1), m2, Claims(s) + Claims(t2));
    Assoc(Bytes(m, t), x, y);
  }

  lemma ShareRef(m: Mem, s: seq<BlockRef>, t: seq<BlockRef>, r: BlockRef)
    requires Held2(m, s, t) && RefOk(m, r)
    ensures Shared(m, s, t, PushMem(m, t, r), PushBack(t, r), Slice(m, r))
  {
    PushStep(m, s, t, r);
  }
}
