/**
 The loops of IOBuf as recursive functions on memory and lists of refs, and what each of them does to
 the bytes.
 */
module RefRuns {
  import opened Chunks
  import opened Blocks
  import opened RefLists
  import opened RefSteps

  function Min(a: nat, b: nat): nat {
    if a < b then a else b
  }

  /** What is left of `n` after at most `k` were taken. */
  function Over(n: nat, k: nat): nat {
    if n <= k then 0 else n - k
  }

  /** A ref to a live block that keeps the tag bit of its offset clear. */
  predicate Fits(m: Mem, r: BlockRef) {
    r.block in m && r.block != NULL && InLimit(r)
  }

  lemma HeldRef(m: Mem, s: seq<BlockRef>, t: seq<BlockRef>, i: nat)
    requires Held2(m, s, t)
    ensures i < |s| ==> 0 < s[i].length && Fits(m, s[i])
  {
    assert i < |s| ==> RefOk(m, s[i]);
  }

  lemma NoBytes(m: Mem, s: seq<BlockRef>)
    ensures s == [] ==> |Bytes(m, s)| == 0
  {
  }

  // ---- clear ----

  function DropAll(m: Mem, s: seq<BlockRef>): Mem {
    if s == [] then m else DropAll(DecRef(m, s[0].block), s[1..])
  }

  lemma {:induction false} DropAllEffect(m: Mem, s: seq<BlockRef>)
    requires Held(m, s)
    ensures Effect(m, Claims(s), DropAll(m, s), multiset{})
    decreases |s|
  {
    if s == [] {
      EffectRefl(m, Claims(s));
    } else {
      PopFrontStep(m, s);
      DropAllEffect(DecRef(m, s[0].block), s[1..]);
      EffectTrans(m, Claims(s), DecRef(m, s[0].block), Claims(s[1..]), DropAll(m, s), multiset{});
    }
  }

  lemma DropAllStart(m: Mem, s: seq<BlockRef>)
    ensures s[0..] == s
  {
  }

  lemma DropAllDone(m: Mem, s: seq<BlockRef>)
    ensures DropAll(m, s[|s|..]) == m
  {
  }

  lemma DropAllOn(m: Mem, s: seq<BlockRef>, i: nat)
    requires i < |s| && Held(m, s[i..])
    ensures s[i].block in m
    ensures var m1 := DecRef(m, s[i].block); Held(m1, s[i + 1..]) && DropAll(m, s[i..]) == DropAll(m1, s[i + 1..])
  {
    var t := s[i..];
    assert t[0] == s[i] && t[1..] == s[i + 1..] && RefOk(m, t[0]);
    PopFrontStep(m, t);
  }

  // ---- pop_front ----

  function DropFront(m: Mem, s: seq<BlockRef>, n: nat): (Mem, seq<BlockRef>)
    decreases |s|
  {
    if n == 0 || s == [] then (m, s)
    else if s[0].length > n then (m, TrimFront(s, n))
    else DropFront(DecRef(m, s[0].block), s[1..], n - s[0].length)
  }

  lemma DropFrontPart(m: Mem, s: seq<BlockRef>, n: nat)
    requires Held(m, s) && |s| > 0 && 0 < n < s[0].length
    ensures Left(m, s, m, TrimFront(s, n), n, |Bytes(m, s)|)
  {
    TrimFrontBytes(m, s, n);
    AllLeft(m, TrimFront(s, n), |Bytes(m, TrimFront(s, n))|);
    EffectRefl(m, Claims(s));
    LeftAfterFront(m, s, Slice(m, Head(s[0], n)), m, TrimFront(s, n), m, TrimFront(s, n), 0, n, |Bytes(m, s)|);
  }

  lemma DropFrontRef(m: Mem, s: seq<BlockRef>)
    requires Held(m, s) && |s| > 0
    ensures var m1 := DecRef(m, s[0].block);
      Held(m1, s[1..]) && |Bytes(m, s)| == s[0].length + |Bytes(m1, s[1..])|
  {
    PopFrontStep(m, s);
    SliceLength(m, s[0]);
  }

  /** The rest of the loop, once the first ref is gone. */
  lemma DropFrontRest(m: Mem, s: seq<BlockRef>, m2: Mem, s2: seq<BlockRef>, k: nat, n: nat, hi: nat)
    requires Held(m, s) && |s| > 0 && n == s[0].length + k && hi == |Bytes(m, s)|
    requires var m1 := DecRef(m, s[0].block); Left(m1, s[1..], m2, s2, k, |Bytes(m1, s[1..])|)
    ensures Left(m, s, m2, s2, n, hi)
  {
    PopFrontStep(m, s);
    SliceLength(m, s[0]);
    LeftAfterFront(m, s, Slice(m, s[0]), DecRef(m, s[0].block), s[1..], m2, s2, k, n, hi);
  }

  lemma {:induction false} DropFrontLeft(m: Mem, s: seq<BlockRef>, n: nat, hi: nat)
    requires Held(m, s) && n <= hi == |Bytes(m, s)|
    ensures var (m', s') := DropFront(m, s, n); Left(m, s, m', s', n, hi)
    decreases |s|
  {
    NoBytes(m, s);
    hide Left, Held, Bytes, DecRef;
    if n == 0 || s == [] {
      AllLeft(m, s, hi);
    } else if s[0].length > n {
      DropFrontPart(m, s, n);
    } else {
      var m1, k := DecRef(m, s[0].block), n - s[0].length;
      DropFrontRef(m, s);
      var (m2, s2) := DropFront(m1, s[1..], k);
      DropFrontLeft(m1, s[1..], k, |Bytes(m1, s[1..])|);
      DropFrontRest(m, s, m2, s2, k, n, hi);
    }
  }

  lemma DropFrontOn(m: Mem, s: seq<BlockRef>, n: nat)
    requires Held(m, s) && 0 < n <= Total(s)
    ensures s != [] && 0 < s[0].length && Fits(m, s[0])
    ensures n < s[0].length ==> Fits(m, Tail(s[0], n)) && DropFront(m, s, n) == (m, s[0 := Tail(s[0], n)])
    ensures s[0].length <= n ==> var m1, k := DecRef(m, s[0].block), n - s[0].length;
      DropFront(m, s, n) == DropFront(m1, s[1..], k) && Held(m1, s[1..]) && k <= Total(s[1..])
  {
    assert RefOk(m, s[0]);
    First(m, s);
    DropFrontRef(m, s);
  }

  lemma DropFrontDone(m: Mem, s: seq<BlockRef>)
    ensures DropFront(m, s, 0) == (m, s)
  {
  }

  // ---- pop_back ----

  function DropBack(m: Mem, s: seq<BlockRef>, n: nat): (Mem, seq<BlockRef>)
    decreases |s|
  {
    if n == 0 || s == [] then (m, s)
    else if s[|s| - 1].length > n then (m, TrimBack(s, s[|s| - 1].length - n))
    else DropBack(DecRef(m, s[|s| - 1].block), s[..|s| - 1], n - s[|s| - 1].length)
  }

  lemma DropBackPart(m: Mem, s: seq<BlockRef>, k: nat, hi: nat)
    requires Held(m, s) && |s| > 0 && 0 < k < s[|s| - 1].length && hi + s[|s| - 1].length == |Bytes(m, s)| + k
    ensures Left(m, s, m, TrimBack(s, k), 0, hi)
  {
    var t := TrimBack(s, k);
    TrimBackBytes(m, s, k);
    AllLeft(m, t, |Bytes(m, t)|);
    EffectRefl(m, Claims(s));
    LeftAfterBack(m, s, Slice(m, Tail(s[|s| - 1], k)), m, t, m, t, hi);
  }

  /** The rest of the loop, once the last ref is gone. */
  lemma DropBackRest(m: Mem, s: seq<BlockRef>, m2: Mem, s2: seq<BlockRef>, hi: nat)
    requires Held(m, s) && |s| > 0
    requires Left(DecRef(m, s[|s| - 1].block), s[..|s| - 1], m2, s2, 0, hi)
    ensures Left(m, s, m2, s2, 0, hi)
  {
    var k := |s| - 1;
    PopBackStep(m, s);
    LeftAfterBack(m, s, Slice(m, s[k]), DecRef(m, s[k].block), s[..k], m2, s2, hi);
  }

  lemma DropBackRef(m: Mem, s: seq<BlockRef>)
    requires Held(m, s) && |s| > 0
    ensures var k := |s| - 1; var m1 := DecRef(m, s[k].block);
      Held(m1, s[..k]) && |Bytes(m, s)| == |Bytes(m1, s[..k])| + s[k].length
  {
    PopBackStep(m, s);
    SliceLength(m, s[|s| - 1]);
  }

  lemma {:induction false} DropBackLeft(m: Mem, s: seq<BlockRef>, n: nat, hi: nat)
    requires Held(m, s) && hi + n == |Bytes(m, s)|
    ensures var (m', s') := DropBack(m, s, n); Left(m, s, m', s', 0, hi)
    decreases |s|
  {
    NoBytes(m, s);
    hide Left, Held, Bytes, DecRef;
    if n == 0 || s == [] {
      AllLeft(m, s, hi);
    } else if s[|s| - 1].length > n {
      DropBackPart(m, s, s[|s| - 1].length - n, hi);
    } else {
      var m1, s1, j := DecRef(m, s[|s| - 1].block), s[..|s| - 1], n - s[|s| - 1].length;
      DropBackRef(m, s);
      var (m2, s2) := DropBack(m1, s1, j);
      DropBackLeft(m1, s1, j, hi);
      DropBackRest(m, s, m2, s2, hi);
    }
  }

  lemma DropBackOn(m: Mem, s: seq<BlockRef>, n: nat)
    requires Held(m, s) && 0 < n <= Total(s)
    ensures s != [] && var r := s[|s| - 1]; 0 < r.length && Fits(m, r) && Fits(m, Head(r, r.length))
    ensures var i := |s| - 1;
      n < s[i].length ==>
        Fits(m, Head(s[i], s[i].length - n)) && DropBack(m, s, n) == (m, s[i := Head(s[i], s[i].length - n)])
    ensures var i := |s| - 1; s[i].length <= n ==> var m1, k := DecRef(m, s[i].block), n - s[i].length;
      DropBack(m, s, n) == DropBack(m1, s[..i], k) && Held(m1, s[..i]) && k <= Total(s[..i])
  {
    var i := |s| - 1;
    assert RefOk(m, s[i]);
    Last(m, s);
    DropBackRef(m, s);
  }

  lemma DropBackDone(m: Mem, s: seq<BlockRef>)
    ensures DropBack(m, s, 0) == (m, s)
  {
  }

  // ---- cutn ----

  function Carry(m: Mem, s: seq<BlockRef>, t: seq<BlockRef>, n: nat): (Mem, seq<BlockRef>, seq<BlockRef>)
    decreases |s|
  {
    if n == 0 || s == [] then (m, s, t)
    else if s[0].length <= n then Carry(MoveMem(m, t, s[0]), s[1..], PushBack(t, s[0]), n - s[0].length)
    else (PushMem(m, t, Head(s[0], n)), TrimFront(s, n), PushBack(t, Head(s[0], n)))
  }

  lemma CarryPart(m: Mem, s: seq<BlockRef>, t: seq<BlockRef>, n: nat)
    requires Held2(m, s, t) && |s| > 0 && 0 < n < s[0].length
    ensures var r := Head(s[0], n); Moved(m, s, t, PushMem(m, t, r), TrimFront(s, n), PushBack(t, r), n)
  {
    var r, s1 := Head(s[0], n), TrimFront(s, n);
    var m1, t1 := PushMem(m, t, r), PushBack(t, r);
    SliceCut(m, s[0], n);
    TrimFrontBytes(m, s, n);
    PushStep(m, s1, t, r);
    NothingMoved(m1, s1, t1);
    MovedAfter(m, s, t, Slice(m, r), m1, s1, t1, m1, s1, t1, 0, n);
  }

  /** What the rest of the loop starts from. */
  lemma CarryRef(m: Mem, s: seq<BlockRef>, t: seq<BlockRef>)
    requires Held2(m, s, t) && |s| > 0
    ensures var m1 := MoveMem(m, t, s[0]);
      Held2(m1, s[1..], PushBack(t, s[0])) && |Bytes(m, s)| == s[0].length + |Bytes(m1, s[1..])|
  {
    MoveStep(m, s, t);
    SliceLength(m, s[0]);
  }

  lemma CarryRest(m: Mem, s: seq<BlockRef>, t: seq<BlockRef>, m2: Mem, s2: seq<BlockRef>, t2: seq<BlockRef>, k: nat,
    n: nat)
    requires Held2(m, s, t) && |s| > 0 && n == s[0].length + k
    requires Moved(MoveMem(m, t, s[0]), s[1..], PushBack(t, s[0]), m2, s2, t2, k)
    ensures Moved(m, s, t, m2, s2, t2, n)
  {
    MoveStep(m, s, t);
    SliceLength(m, s[0]);
    MovedAfter(m, s, t, Slice(m, s[0]), MoveMem(m, t, s[0]), s[1..], PushBack(t, s[0]), m2, s2, t2, k, n);
  }

  lemma {:induction false} CarryMoved(m: Mem, s: seq<BlockRef>, t: seq<BlockRef>, n: nat)
    requires Held2(m, s, t) && n <= |Bytes(m, s)|
    ensures var (m', s', t') := Carry(m, s, t, n); Moved(m, s, t, m', s', t', n)
    decreases |s|
  {
    NoBytes(m, s);
    hide Moved, Held2, Bytes, MoveMem, PushMem, PushBack;
    if n == 0 || s == [] {
      NothingMoved(m, s, t);
    } else if s[0].length <= n {
      var m1, t1, k := MoveMem(m, t, s[0]), PushBack(t, s[0]), n - s[0].length;
      CarryRef(m, s, t);
      var (m2, s2, t2) := Carry(m1, s[1..], t1, k);
      CarryMoved(m1, s[1..], t1, k);
      CarryRest(m, s, t, m2, s2, t2, k, n);
    } else {
      CarryPart(m, s, t, n);
    }
  }

  lemma CarryOn(m: Mem, s: seq<BlockRef>, t: seq<BlockRef>, n: nat)
    requires Held2(m, s, t) && 0 < n <= Total(s)
    ensures s != [] && 0 < s[0].length && Fits(m, s[0])
    ensures n < s[0].length ==> var r := Head(s[0], n);
      && Fits(m, r) && Fits(m, Tail(s[0], n))
      && Carry(m, s, t, n) == (PushMem(m, t, r), s[0 := Tail(s[0], n)], PushBack(t, r))
    ensures s[0].length <= n ==> var m1, t1, k := MoveMem(m, t, s[0]), PushBack(t, s[0]), n - s[0].length;
      Carry(m, s, t, n) == Carry(m1, s[1..], t1, k) && Held2(m1, s[1..], t1) && k <= Total(s[1..])
  {
    assert RefOk(m, s[0]);
    First(m, s);
    CarryRef(m, s, t);
  }

  lemma CarryDone(m: Mem, s: seq<BlockRef>, t: seq<BlockRef>)
    ensures Carry(m, s, t, 0) == (m, s, t)
  {
  }

  // ---- append and append_to ----

  /** Pushes `n` bytes of `s`, from byte `off` of its `i`-th ref on, to `t`; also what is left of `n`. */
  function Share(m: Mem, s: seq<BlockRef>, i: nat, off: nat, n: nat, t: seq<BlockRef>): (Mem, seq<BlockRef>, nat)
    decreases |s| - i
  {
    if n == 0 || i >= |s| then (m, t, n)
    else
      var k := Min(n, Over(s[i].length, off));
      var r := Piece(s[i], off, k);
      Share(PushMem(m, t, r), s, i + 1, 0, Over(n, Over(s[i].length, off)), PushBack(t, r))
  }

  /** The bytes Share pushes. */
  function Cut(m: Mem, s: seq<BlockRef>, i: nat, off: nat, n: nat): seq<Byte>
    decreases |s| - i
  {
    if n == 0 || i >= |s| then []
    else
      var k := Min(n, Over(s[i].length, off));
      Slice(m, Piece(s[i], off, k)) + Cut(m, s, i + 1, 0, Over(n, Over(s[i].length, off)))
  }

  lemma SharePart(m: Mem, s: seq<BlockRef>, i: nat, off: nat, k: nat, t: seq<BlockRef>)
    requires Held2(m, s, t) && i < |s| && 0 < k && off + k <= s[i].length
    ensures var r := Piece(s[i], off, k); var m1 := PushMem(m, t, r);
      Shared(m, s, t, m1, PushBack(t, r), Slice(m, r)) && Held2(m1, s, PushBack(t, r)) && SameData(m, m1)
  {
    assert RefOk(m, s[i]);
    ShareRef(m, s, t, Piece(s[i], off, k));
  }

  ghost predicate OtherData(m: Mem, m1: Mem) {
    exists b: BlockId :: b in m && !(b in m1 && m1[b].data == m[b].data)
  }

  ghost predicate SameData(m: Mem, m1: Mem) {
    !OtherData(m, m1)
  }

  lemma {:induction false} CutSame(m: Mem, m1: Mem, s: seq<BlockRef>, i: nat, off: nat, n: nat)
    requires SameData(m, m1) && Sound(m, s)
    ensures Eq(Cut(m1, s, i, off, n), Cut(m, s, i, off, n))
    decreases |s| - i
  {
    if n > 0 && i < |s| {
      assert RefOk(m, s[i]);
      CutSame(m, m1, s, i + 1, 0, Over(n, Over(s[i].length, off)));
    }
  }

  lemma ShareRest(m: Mem, s: seq<BlockRef>, i: nat, off: nat, k: nat, t: seq<BlockRef>, m2: Mem, t2: seq<BlockRef>,
    j: nat, n: nat)
    requires Held2(m, s, t) && i < |s| && off < s[i].length && 0 < n && k == Min(n, Over(s[i].length, off))
    requires j == Over(n, Over(s[i].length, off))
    requires var r := Piece(s[i], off, k); var m1 := PushMem(m, t, r);
      Shared(m1, s, PushBack(t, r), m2, t2, Cut(m1, s, i + 1, 0, j))
    ensures Shared(m, s, t, m2, t2, Cut(m, s, i, off, n))
  {
    var r := Piece(s[i], off, k);
    var m1, t1 := PushMem(m, t, r), PushBack(t, r);
    SharePart(m, s, i, off, k, t);
    CutSame(m, m1, s, i + 1, 0, j);
    SharedAfter(m, s, t, Slice(m, r), m1, t1, m2, t2, Cut(m1, s, i + 1, 0, j));
  }

  lemma {:induction false} ShareShared(m: Mem, s: seq<BlockRef>, i: nat, off: nat, n: nat, t: seq<BlockRef>)
    requires Held2(m, s, t) && (i < |s| ==> off < s[i].length)
    ensures var (m', t', left) := Share(m, s, i, off, n, t); Shared(m, s, t, m', t', Cut(m, s, i, off, n))
    decreases |s| - i
  {
    HeldRef(m, s, t, i + 1);
    hide Shared, Held2, PushMem, PushBack, Piece, Slice;
    if n == 0 || i >= |s| {
      NothingShared(m, s, t);
    } else {
      var k := Min(n, Over(s[i].length, off));
      var r := Piece(s[i], off, k);
      var m1, t1 := PushMem(m, t, r), PushBack(t, r);
      SharePart(m, s, i, off, k, t);
      var j := Over(n, Over(s[i].length, off));
      var (m2, t2, left) := Share(m1, s, i + 1, 0, j, t1);
      ShareShared(m1, s, i + 1, 0, j, t1);
      ShareRest(m, s, i, off, k, t, m2, t2, j, n);
    }
  }

  /** What Share leaves of `n` is what it could not push. */
  lemma {:induction false} ShareLeft(m: Mem, s: seq<BlockRef>, i: nat, off: nat, n: nat, t: seq<BlockRef>)
    requires i <= |s| && (i < |s| ==> off <= s[i].length)
    ensures var rest := Total(s) - TotalUpto(s, i) - (if i < |s| then off else 0);
      Share(m, s, i, off, n, t).2 == if n <= rest then 0 else n - rest
    decreases |s| - i
  {
    TotalMonotone(s, Min(i + 1, |s|), |s|);
    if n > 0 && i < |s| {
      var k := Min(n, Over(s[i].length, off));
      var r := Piece(s[i], off, k);
      ShareLeft(PushMem(m, t, r), s, i + 1, 0, Over(n, Over(s[i].length, off)), PushBack(t, r));
    }
  }

  /** The bytes from byte `off` of the `i`-th ref on. */
  function Rest(m: Mem, s: seq<BlockRef>, i: nat, off: nat): seq<Byte>
  {
    if i >= |s| then [] else Slice(m, Piece(s[i], off, Over(s[i].length, off))) + BytesFrom(m, s, i + 1)
  }

  lemma RestFrom(m: Mem, s: seq<BlockRef>, i: nat)
    requires i <= |s|
    ensures Eq(Rest(m, s, i, 0), BytesFrom(m, s, i))
  {
    assert i < |s| ==> Piece(s[i], 0, s[i].length) == s[i];
  }

  lemma TakeSlice(m: Mem, r: BlockRef, n: nat)
    requires MemOk(m) && RefOk(m, r) && n <= r.length
    ensures Eq(Take(Slice(m, r), n), Slice(m, Piece(r, 0, n)))
  {
    PieceSlice(m, r, 0, n);
  }

  lemma TakePiece(m: Mem, r: BlockRef, off: nat, n: nat)
    requires MemOk(m) && RefOk(m, r) && off < r.length && off + n <= r.length
    ensures var x := Slice(m, Piece(r, off, Over(r.length, off)));
      n <= |x| && Eq(Take(x, n), Slice(m, Piece(r, off, n)))
  {
    var t := Piece(r, off, Over(r.length, off));
    SliceLength(m, t);
    TakeSlice(m, t, n);
    assert Piece(t, 0, n) == Piece(r, off, n);
  }

  lemma CutLast(m: Mem, s: seq<BlockRef>, i: nat, off: nat, n: nat)
    requires Sound(m, s) && i < |s| && off < s[i].length && 0 < n && off + n <= s[i].length
    ensures Eq(Cut(m, s, i, off, n), Take(Rest(m, s, i, off), n))
  {
    assert Min(n, Over(s[i].length, off)) == n && Over(n, Over(s[i].length, off)) == 0;
    TakePiece(m, s[i], off, n);
    TakeInFirst(Slice(m, Piece(s[i], off, Over(s[i].length, off))), BytesFrom(m, s, i + 1), n);
  }

  lemma CutStep(m: Mem, s: seq<BlockRef>, i: nat, off: nat, n: nat, k: nat)
    requires Sound(m, s) && i < |s| && off < s[i].length && n == Over(s[i].length, off) + k && k > 0
    requires k == Over(n, Over(s[i].length, off))
    requires Eq(Cut(m, s, i + 1, 0, k), Take(BytesFrom(m, s, i + 1), k))
    ensures Eq(Cut(m, s, i, off, n), Take(Rest(m, s, i, off), n))
  {
    var t := Piece(s[i], off, Over(s[i].length, off));
    SliceLength(m, t);
    TakePastFirst(Slice(m, t), BytesFrom(m, s, i + 1), n, k);
  }

  lemma {:induction false} CutTake(m: Mem, s: seq<BlockRef>, i: nat, off: nat, n: nat)
    requires Sound(m, s) && (i < |s| ==> off < s[i].length)
    ensures Eq(Cut(m, s, i, off, n), Take(Rest(m, s, i, off), n))
    decreases |s| - i
  {
    if i >= |s| || n == 0 {
      TakeNone(Rest(m, s, i, off));
    } else if off + n <= s[i].length {
      CutLast(m, s, i, off, n);
    } else {
      var k := Over(n, Over(s[i].length, off));
      CutTake(m, s, i + 1, 0, k);
      RestFrom(m, s, i + 1);
      CutStep(m, s, i, off, n, k);
    }
  }

  lemma RestIs(m: Mem, s: seq<BlockRef>, i: nat, off: nat)
    requires MemOk(m) && i < |s| && RefOk(m, s[i]) && off < s[i].length
    ensures Eq(Bytes(m, s), (BytesUpto(m, s, i) + Slice(m, Piece(s[i], 0, off))) + Rest(m, s, i, off))
  {
    AroundRef(m, s, i);
    SliceParts(m, s[i], off);
    Regroup(Bytes(m, s), BytesUpto(m, s, i), Slice(m, Piece(s[i], 0, off)),
      Slice(m, Piece(s[i], off, Over(s[i].length, off))), BytesFrom(m, s, i + 1), Slice(m, s[i]));
  }

  lemma BeforeRest(m: Mem, s: seq<BlockRef>, i: nat, off: nat)
    requires Sound(m, s) && i < |s| && off < s[i].length
    ensures |BytesUpto(m, s, i) + Slice(m, Piece(s[i], 0, off))| == TotalUpto(s, i) + off
  {
    BytesLength(m, s);
    BytesUptoLength(m, s, i);
    SliceParts(m, s[i], off);
  }

  /** Cut from a ref and an offset is a substring. */
  lemma CutAt(m: Mem, s: seq<BlockRef>, i: nat, off: nat, n: nat, p: nat)
    requires Sound(m, s) && i <= |s| && (i < |s| ==> off < s[i].length) && p == TotalUpto(s, i) + off
    ensures Eq(Cut(m, s, i, off, n), Substr(Bytes(m, s), p, n))
  {
    if i == |s| {
      BytesLength(m, s);
      SubstrNone(Bytes(m, s), p, n);
    } else {
      var pre := BytesUpto(m, s, i) + Slice(m, Piece(s[i], 0, off));
      RestIs(m, s, i, off);
      BeforeRest(m, s, i, off);
      CutTake(m, s, i, off, n);
      SubstrTake(Bytes(m, s), pre, Rest(m, s, i, off), p, n);
    }
  }

  lemma SliceParts(m: Mem, r: BlockRef, off: nat)
    requires MemOk(m) && RefOk(m, r) && off < r.length
    ensures Eq(Slice(m, r), Slice(m, Piece(r, 0, off)) + Slice(m, Piece(r, off, Over(r.length, off))))
    ensures |Slice(m, Piece(r, 0, off))| == off
  {
    SubSplit(m[r.block].data, r.offset, off, r.length - off);
    SubSame(m[r.block].data, m[r.block].data, r.offset, off);
  }

  ghost predicate NotSharing(m: Mem, s: seq<BlockRef>, i: nat, off: nat, n: nat, t: seq<BlockRef>,
    end: (Mem, seq<BlockRef>, nat)) {
    !Held2(m, s, t) || (i < |s| && off >= s[i].length) || Share(m, s, i, off, n, t) != end
  }

  /** A loop that shares is on its way to `end`. */
  ghost predicate Sharing(m: Mem, s: seq<BlockRef>, i: nat, off: nat, n: nat, t: seq<BlockRef>,
    end: (Mem, seq<BlockRef>, nat)) {
    !NotSharing(m, s, i, off, n, t, end)
  }

  lemma SharingOn(m: Mem, s: seq<BlockRef>, i: nat, off: nat, n: nat, t: seq<BlockRef>,
    end: (Mem, seq<BlockRef>, nat), k: nat)
    requires Sharing(m, s, i, off, n, t, end) && 0 < n && i < |s| && k == Min(n, Over(s[i].length, off))
    ensures s[i].block in m && k <= n
    ensures var r := Piece(s[i], off, k); Sharing(PushMem(m, t, r), s, i + 1, 0, n - k, PushBack(t, r), end)
  {
    HeldRef(m, s, t, i);
    HeldRef(m, s, t, i + 1);
    hide Shared, Held2, PushMem, PushBack, Piece, Slice;
    SharePart(m, s, i, off, k, t);
    assert n - k == Over(n, Over(s[i].length, off));
  }

  lemma ShareAll(m: Mem, s: seq<BlockRef>, t: seq<BlockRef>, n: nat)
    requires Held2(m, s, t) && n == Total(s)
    ensures var (m', t', left) := Share(m, s, 0, 0, n, t); Shared(m, s, t, m', t', Bytes(m, s))
  {
    assert |s| > 0 ==> RefOk(m, s[0]);
    ShareShared(m, s, 0, 0, n, t);
    CutAt(m, s, 0, 0, n, 0);
    BytesLength(m, s);
    SubstrAll(Bytes(m, s), n);
  }

  // ---- append of a buffer that is given up ----

  lemma CarryWhole(m: Mem, s: seq<BlockRef>, t: seq<BlockRef>, n: nat)
    requires Held2(m, s, t) && n == |Bytes(m, s)|
    ensures var (m', s', t') := Carry(m, s, t, n); s' == [] && Moved(m, s, t, m', [], t', n)
  {
    CarryMoved(m, s, t, n);
    BytesLength(m, s);
    CarryEmpties(m, s, t);
  }

  lemma {:induction false} CarryEmpties(m: Mem, s: seq<BlockRef>, t: seq<BlockRef>)
    ensures Carry(m, s, t, Total(s)).1 == [] || exists i :: 0 <= i < |s| && s[i].length == 0
    decreases |s|
  {
    if s != [] {
      First(m, s);
      CarryEmpties(MoveMem(m, t, s[0]), s[1..], PushBack(t, s[0]));
      if i :| 0 <= i < |s[1..]| && s[1..][i].length == 0 {
        assert s[i + 1].length == 0;
      }
    }
  }

  lemma SwapMoved(m: Mem, s: seq<BlockRef>, n: nat)
    requires Held(m, s) && n == |Bytes(m, s)|
    ensures Moved(m, s, [], m, [], s, n)
  {
    EffectRefl(m, Claims(s));
    assert Claims(s) + Claims([]) == Claims([]) + Claims(s) == Claims(s);
    Empty(Bytes(m, s), n);
    DropAllIs(Bytes(m, s), n);
    Nil(Bytes(m, s));
  }

  // ---- The copy constructor ----

  function IncUpto(m: Mem, s: seq<BlockRef>, n: nat): Mem
    requires n <= |s|
  {
    if n == 0 then m else IncRef(IncUpto(m, s, n - 1), s[n - 1].block)
  }

  lemma {:induction false} IncUptoEffect(m: Mem, s: seq<BlockRef>, n: nat)
    requires Sound(m, s) && n <= |s|
    ensures Effect(m, multiset{}, IncUpto(m, s, n), ClaimsUpto(s, n)) && IncUpto(m, s, n).Keys == m.Keys
  {
    if n == 0 {
      EffectRefl(m, multiset{});
    } else {
      var m1, b, c := IncUpto(m, s, n - 1), s[n - 1].block, ClaimsUpto(s, n - 1);
      IncUptoEffect(m, s, n - 1);
      assert RefOk(m, s[n - 1]);
      IncRefEffect(m1, b);
      EffectFrame(m1, multiset{}, IncRef(m1, b), multiset{b}, c);
      assert multiset{} + c == c && multiset{b} + c == ClaimsUpto(s, n);
      EffectTrans(m, multiset{}, m1, c, IncRef(m1, b), ClaimsUpto(s, n));
    }
  }

  /** A second list of the same refs, each with a reference of its own. */
  lemma CopyShared(m: Mem, s: seq<BlockRef>)
    requires Held(m, s)
    ensures Shared(m, s, [], IncUpto(m, s, |s|), s, Bytes(m, s))
  {
    var m', c := IncUpto(m, s, |s|), Claims(s);
    IncUptoEffect(m, s, |s|);
    EffectFrame(m, multiset{}, m', c, c);
    assert multiset{} + c == c && Claims(s) + Claims([]) == c;
    BystanderBytes(m, multiset{}, m', c, s);
    Nil(Bytes(m, s));
  }

  /** append_to of `n` bytes from byte `p` on: the loop starts at the ref that holds that byte. */
  ghost predicate SharedFrom(m: Mem, s: seq<BlockRef>, p: nat, n: nat, t: seq<BlockRef>, m': Mem, t': seq<BlockRef>) {
    exists k: nat, off: nat ::
      && k <= |s| && (k < |s| ==> off < s[k].length) && p == TotalUpto(s, k) + off
      && Share(m, s, k, off, n, t).0 == m' && Share(m, s, k, off, n, t).1 == t'
  }

  /** Memory after operator=: the refs `t` are given up and each of `s` gets one more reference. */
  function CopyMem(m: Mem, s: seq<BlockRef>, t: seq<BlockRef>): Mem {
    IncUpto(DropAll(m, t), s, |s|)
  }
}
