/**
 The representation of IOBuf: a queue of refs kept in one of two overlaid layouts, two inline slots
 (SmallView) or a ring whose capacity is a power of two (BigView). `Refs` is the list the layouts
 stand for, and every method says what it does to that list.
 */
module RefQueues {
  import opened Blocks
  import opened RefLists

  const INITIAL_CAP := 32

  datatype Option<T> = None | Some(value: T)

  /** The first word of the object read as an int32, which is BigView::magic. */
  function AsInt32(w: nat): int {
    if w < 0x8000_0000 then w else w - 0x1_0000_0000
  }

  predicate IsPowerOf2(n: nat) {
    n == 1 || (n > 1 && n % 2 == 0 && IsPowerOf2(n / 2))
  }

  /** Bitwise and. */
  function BitAnd(x: nat, y: nat): nat {
    if x == 0 || y == 0 then 0 else 2 * BitAnd(x / 2, y / 2) + (x % 2) * (y % 2)
  }

  /** An index that passes the end of the ring at most once. */
  function Wrap(x: nat, cap: nat): (i: nat)
    requires x < 2 * cap
    ensures i < cap
  {
    if x < cap then x else x - cap
  }

  /** Masking with one less than a power of two gives that index. */
  lemma {:induction false} MaskWraps(x: nat, cap: nat)
    requires IsPowerOf2(cap) && x < 2 * cap
    ensures BitAnd(x, cap - 1) == Wrap(x, cap)
  {
    if cap > 1 {
      var c := cap / 2;
      MaskWraps(x / 2, c);
      assert cap == 2 * c && (cap - 1) / 2 == c - 1 && (cap - 1) % 2 == 1;
      BitAndSplit(x, cap - 1, c - 1);
    }
  }

  lemma BitAndSplit(x: nat, y: nat, z: nat)
    requires y == 2 * z + 1
    ensures BitAnd(x, y) == 2 * BitAnd(x / 2, z) + x % 2
  {
    assert y / 2 == z && y % 2 == 1;
  }

  /** The `n` slots of a ring from `start` on. */
  function Window(ring: seq<BlockRef>, start: nat, n: nat): (s: seq<BlockRef>)
    requires n <= |ring| && (n > 0 ==> start < |ring|)
    ensures |s| == n && forall i :: 0 <= i < n ==> s[i] == ring[Wrap(start + i, |ring|)]
  {
    seq(n, i requires 0 <= i < n => ring[Wrap(start + i, |ring|)])
  }

  lemma WindowSet(ring: seq<BlockRef>, start: nat, n: nat, i: nat, x: BlockRef)
    requires i < n <= |ring| && start < |ring|
    ensures Window(ring[Wrap(start + i, |ring|) := x], start, n) == Window(ring, start, n)[i := x]
  {
    var t := ring[Wrap(start + i, |ring|) := x];
    assert forall k :: 0 <= k < n ==> Window(t, start, n)[k] == Window(ring, start, n)[i := x][k];
  }

  lemma WindowGrow(ring: seq<BlockRef>, start: nat, n: nat, x: BlockRef)
    requires n < |ring| && start < |ring|
    ensures Window(ring[Wrap(start + n, |ring|) := x], start, n + 1) == Window(ring, start, n) + [x]
  {
    var t := ring[Wrap(start + n, |ring|) := x];
    assert forall k :: 0 <= k <= n ==> Window(t, start, n + 1)[k] == (Window(ring, start, n) + [x])[k];
  }

  lemma GrowFacts(ring: seq<BlockRef>, start: nat, n: nat, x: BlockRef)
    requires n < |ring| && start < |ring| && Tagged(Window(ring, start, n))
    ensures var w := Window(ring[Wrap(start + n, |ring|) := x], start, n + 1);
      && w == Window(ring, start, n) + [x] && (Tagged(w) <==> IsTagged(x))
      && Total(w) == Total(Window(ring, start, n)) + x.length
  {
    WindowGrow(ring, start, n, x);
    var w := Window(ring[Wrap(start + n, |ring|) := x], start, n + 1);
    assert w[..n] == Window(ring, start, n) && w[n] == x;
    Last(map[], w);
  }

  lemma WindowTail(ring: seq<BlockRef>, start: nat, n: nat)
    requires 0 < n <= |ring| && start < |ring|
    ensures Window(ring, Wrap(start + 1, |ring|), n - 1) == Window(ring, start, n)[1..]
  {
    var t := Window(ring, Wrap(start + 1, |ring|), n - 1);
    assert forall k :: 0 <= k < n - 1 ==> t[k] == Window(ring, start, n)[1..][k];
  }

  lemma {:induction false} TotalAt(s: seq<BlockRef>, i: nat, n: nat)
    requires i < n <= |s|
    ensures s[i].length <= TotalUpto(s, n)
  {
    if i < n - 1 {
      TotalAt(s, i, n - 1);
    }
  }

  lemma Total2(a: BlockRef, b: BlockRef)
    ensures Total([a]) == a.length && Total([a, b]) == a.length + b.length
  {
    assert TotalUpto([a, b], 1) == a.length;
    assert TotalUpto([a], 0) == 0;
  }

  lemma Total3(a: BlockRef, b: BlockRef, c: BlockRef)
    ensures Total([a, b, c]) == a.length + b.length + c.length
  {
    var s := [a, b, c];
    assert TotalUpto(s, 1) == a.length && TotalUpto(s, 2) == TotalUpto(s, 1) + b.length;
  }

  method CopyWindow(ring: array<BlockRef>, start: nat, n: nat, refs: array<BlockRef>)
    requires 0 < n <= ring.Length && n <= refs.Length && start < ring.Length && refs != ring
    modifies refs
    ensures refs[..n] == Window(ring[..], start, n)
  {
    for i := 0 to n
      invariant forall k :: 0 <= k < i ==> refs[k] == Window(ring[..], start, n)[k]
    {
      refs[i] := ring[Wrap(start + i, ring.Length)];
    }
  }

  /** A ref into a block, whose capacity has 32 bits. */
  predicate IsRef(r: BlockRef) {
    r.block != NULL && r.offset + r.length < UINT32_LIMIT
  }

  /** The same with the highest bit of the offset clear, which is set to mark the big view. */
  predicate IsTagged(r: BlockRef) {
    IsRef(r) && r.offset < OFFSET_LIMIT
  }

  predicate Tagged(s: seq<BlockRef>) {
    forall i :: 0 <= i < |s| ==> IsTagged(s[i])
  }

  /** All refs are into blocks below the limit, so that sums of lengths in 32 bits are exact. */
  predicate Bounded(s: seq<BlockRef>) {
    forall i :: 0 <= i < |s| ==> InLimit(s[i])
  }

  const NO_REF := BlockRef(0, 0, NULL)

  /** Two inline refs, the free ones behind. The source adds their lengths in 32 bits. */
  ghost function SmallRefs(a: BlockRef, b: BlockRef): Option<seq<BlockRef>> {
    if a == NO_REF && b == NO_REF then Some([])
    else if !IsTagged(a) then None
    else if IsTagged(b) && a.length + b.length < UINT32_LIMIT then Some([a, b])
    else if b == NO_REF then Some([a])
    else None
  }

  // ---- The sum of lengths ----

  /** What the conversion to a ring stores as the sum of three lengths. */
  function Sum32(a: BlockRef, b: BlockRef, c: BlockRef): nat {
    (a.length + b.length + c.length) % UINT32_LIMIT
  }

  /** The ring of three refs is sound if and only if their lengths together are below 2^32. */
  lemma SumExact(a: BlockRef, b: BlockRef, c: BlockRef, ring: seq<BlockRef>)
    requires |ring| == INITIAL_CAP && ring[0] == a && ring[1] == b && ring[2] == c
    requires IsTagged(a) && IsTagged(b) && IsTagged(c)
    ensures BigRefs(0xFFFF_FFFF, 0, 3, INITIAL_CAP - 1, Sum32(a, b, c), ring)
      == if a.length + b.length + c.length < UINT32_LIMIT then Some([a, b, c]) else None
  {
    assert IsPowerOf2(2) && IsPowerOf2(4) && IsPowerOf2(8) && IsPowerOf2(16);
    Total3(a, b, c);
    assert Window(ring, 0, 3) == [a, b, c];
  }

  /** Three refs of 0x6000_0000 bytes: what is stored is less than one of them. */
  lemma SumWraps(x: BlockId, y: BlockId, z: BlockId, ring: seq<BlockRef>)
    requires x != NULL && y != NULL && z != NULL && |ring| == INITIAL_CAP
    ensures var a, b, c := BlockRef(0, 0x6000_0000, x), BlockRef(0, 0x6000_0000, y), BlockRef(0, 0x6000_0000, z);
      && Total([a, b, c]) == 0x1_2000_0000 && Sum32(a, b, c) == 0x2000_0000
      && BigRefs(0xFFFF_FFFF, 0, 3, INITIAL_CAP - 1, Sum32(a, b, c), ring[0 := a][1 := b][2 := c]) == None
  {
    var a, b, c := BlockRef(0, 0x6000_0000, x), BlockRef(0, 0x6000_0000, y), BlockRef(0, 0x6000_0000, z);
    Total3(a, b, c);
    SumExact(a, b, c, ring[0 := a][1 := b][2 := c]);
  }

  /** What a push can do with any ref: the tag bit stays clear and sums of lengths in 32 bits are right. */
  predicate Fits32(s: seq<BlockRef>, r: BlockRef) {
    (Merges(s, r) || r.offset < OFFSET_LIMIT) && (|s| <= 2 ==> Total(PushBack(s, r)) < UINT32_LIMIT)
  }

  /** The refs after a push, or none if the words no longer stand for any. */
  ghost function Pushed(s: seq<BlockRef>, r: BlockRef): Option<seq<BlockRef>> {
    if Fits32(s, r) then Some(PushBack(s, r)) else None
  }

  /** Refs below the limit always fit. */
  lemma InLimitFits(s: seq<BlockRef>, r: BlockRef)
    requires Bounded(s) && InLimit(r) && r.block != NULL
    ensures IsRef(r) && Fits32(s, r) && Bounded(PushBack(s, r))
  {
    var u := PushBack(s, r);
    assert |u| > 0 && forall k :: 0 <= k < |u| - 1 ==> u[k] == s[k];
    if |s| == 0 {
      assert u == [r];
      Total2(r, r);
    } else if |s| == 1 {
      assert InLimit(s[0]) && (u == [u[0]] || u == [u[0], u[1]]);
      Total2(u[0], u[|u| - 1]);
    } else if |s| == 2 {
      assert InLimit(s[0]) && InLimit(s[1]);
      if Merges(s, r) {
        assert u == [u[0], u[1]];
        Total2(u[0], u[1]);
      } else {
        assert u == [u[0], u[1], r];
        Total3(u[0], u[1], r);
      }
    }
  }

  ghost function BigRefs(magic: nat, start: nat, nref: nat, mask: nat, nbytes: int,
    ring: seq<BlockRef>): Option<seq<BlockRef>> {
    if
      && magic == 0xFFFF_FFFF && mask + 1 == |ring|
      && IsPowerOf2(|ring|) && 3 <= nref <= |ring| && start < |ring|
      && var w := Window(ring, start, nref); nbytes == Total(w) && Tagged(w)
    then Some(Window(ring, start, nref))
    else None
  }

  /** The list of refs the words stand for in the view that is in use, if they are sound. */
  ghost function Layout(word0: nat, word1: nat, block0: BlockId, word2: nat, word3: nat, word4: int,
    ring: seq<BlockRef>): Option<seq<BlockRef>>
  {
    if AsInt32(word0) >= 0 then SmallRefs(BlockRef(word0, word1, block0), BlockRef(word2, word3, word4))
    else BigRefs(word0, word1, word2, word3, word4, ring)
  }

  /** The union of the two views. All words but the pointer in the middle are shared between them. */
  class RefQueue {
    var word0: nat              // refs[0].offset, or magic
    var word1: nat              // refs[0].length, or start
    var block0: BlockId         // refs[0].block, or
    var ring: array<BlockRef>   //                refs
    var word2: nat              // refs[1].offset, or nref
    var word3: nat              // refs[1].length, or cap_mask
    var word4: int              // refs[1].block, or nbytes

    /** _small() */
    predicate IsSmall()
      reads this
    {
      AsInt32(word0) >= 0
    }

    function Ref0(): BlockRef
      reads this
    {
      BlockRef(word0, word1, block0)
    }

    function Ref1(): BlockRef
      reads this
    {
      BlockRef(word2, word3, word4)
    }

    ghost function Decode(): Option<seq<BlockRef>>
      reads this, ring
    {
      Layout(word0, word1, block0, word2, word3, word4, ring[..])
    }

    ghost predicate Valid()
      reads this, ring
    {
      Decode().Some? && Bounded(Decode().value)
    }

    ghost function Refs(): (s: seq<BlockRef>)
      reads this, ring
      requires Valid()
    {
      Decode().value
    }

    constructor ()
      ensures Valid() && IsSmall() && Refs() == [] && fresh(ring)
    {
      word0, word1, block0, word2, word3, word4 := 0, 0, NULL, 0, 0, NULL;
      ring := new BlockRef[0];
    }

    /** new (this) IOBuf */
    method Reset()
      modifies this
      ensures Valid() && IsSmall() && Refs() == [] && ring == old(ring)
    {
      word0, word1, block0, word2, word3, word4 := 0, 0, NULL, 0, 0, NULL;
    }

    method SetSmall(a: BlockRef, b: BlockRef)
      requires SmallRefs(a, b).Some? && Bounded(SmallRefs(a, b).value)
      modifies this
      ensures Valid() && IsSmall() && ring == old(ring) && Refs() == SmallRefs(a, b).value
    {
      word0, word1, block0 := a.offset, a.length, a.block;
      word2, word3, word4 := b.offset, b.length, b.block;
    }

    /** BigView::ref_at: `(start + i) & cap_mask`. */
    method Slot(i: nat) returns (k: nat)
      requires Decode().Some? && !IsSmall() && i < ring.Length
      ensures k == Wrap(word1 + i, ring.Length)
    {
      MaskWraps(word1 + i, ring.Length);
      k := BitAnd(word1 + i, word3);
    }

    // ---- _push_back_ref and _move_back_ref ----

    /** The two inline slots are taken: the refs move to a ring. */
    method ConvertToBig(r: BlockRef)
      requires Decode().Some? && IsSmall() && |Decode().value| == 2 && IsRef(r)
      modifies this
      ensures !IsSmall() && fresh(ring) && ring.Length == 32
      ensures var s := old(Decode().value);
        Decode() == if r.offset < OFFSET_LIMIT && s[0].length + s[1].length + r.length < UINT32_LIMIT then Some(s + [r])
          else None
    {
      ghost var a, b, s := Ref0(), Ref1(), Decode().value;
      assert s + [r] == [a, b, r];
      var refs := new BlockRef[INITIAL_CAP];
      refs[0], refs[1], refs[2] := Ref0(), Ref1(), r;
      var newBytes := (word1 + word3 + r.length) % UINT32_LIMIT;
      word0, word1, ring, word2, word3, word4 := 0xFFFF_FFFF, 0, refs, 3, INITIAL_CAP - 1, newBytes;
      if r.offset < OFFSET_LIMIT {
        SumExact(a, b, r, ring[..]);
      } else {
        assert Window(ring[..], 0, 3)[2] == r;
      }
    }

    /** _push_or_move_back_ref_to_smallview, apart from the counter. */
    method AddToSmall(r: BlockRef) returns (merged: bool)
      requires Decode().Some? && IsSmall() && IsRef(r)
      modifies this
      ensures ring == old(ring) || fresh(ring)
      ensures Decode() == Pushed(old(Decode().value), r) && merged == Merges(old(Decode().value), r)
    {
      ghost var s := Decode().value;
      if block0 == NULL {
        Total2(r, r);
        assert s == [] && PushBack(s, r) == [r];
        word0, word1, block0 := r.offset, r.length, r.block;
        return false;
      }
      if word4 == NULL {
        assert s == [Ref0()];
        if block0 == r.block && word0 + word1 == r.offset {
          word1 := word1 + r.length;
          Total2(Ref0(), r);
          assert PushBack(s, r) == [Ref0()];
          return true;
        }
        Total2(Ref0(), r);
        assert PushBack(s, r) == [Ref0(), r];
        word2, word3, word4 := r.offset, r.length, r.block;
        return false;
      }
      assert s == [Ref0(), Ref1()];
      if word4 == r.block && word2 + word3 == r.offset {
        word3 := word3 + r.length;
        Total2(Ref0(), Ref1());
        assert PushBack(s, r) == [Ref0(), Ref1()];
        return true;
      }
      Total3(Ref0(), Ref1(), r);
      assert PushBack(s, r) == [Ref0(), Ref1(), r];
      ConvertToBig(r);
      return false;
    }

    /** The ring is full: the refs move to one of twice the capacity. */
    method GrowRing(r: BlockRef)
      requires Decode().Some? && !IsSmall() && word2 == ring.Length && IsRef(r)
      modifies this
      ensures !IsSmall() && fresh(ring) && ring.Length == 2 * old(ring.Length)
      ensures Decode() == if r.offset < OFFSET_LIMIT then Some(old(Decode().value) + [r]) else None
    {
      var refs := new BlockRef[ring.Length * 2];
      ghost var w := Decode().value;
      CopyWindow(ring, word1, word2, refs);
      refs[word2] := r;
      assert refs.Length / 2 == ring.Length;
      word1, ring, word2, word3, word4 := 0, refs, word2 + 1, ring.Length * 2 - 1, word4 + r.length;
      assert Window(ring[..], 0, word2) == w + [r];
      assert (w + [r])[..|w|] == w && (w + [r])[|w|] == r;
      Snoc(map[], w, r);
    }

    /** Overwrites the `i`-th ref with another one into the same block. */
    method SetRef(i: nat, x: BlockRef)
      requires Valid() && i < |Refs()| && InLimit(x) && x.block == Refs()[i].block
      modifies this, ring
      ensures Valid() && ring == old(ring) && Refs() == old(Refs())[i := x] && IsSmall() == old(IsSmall())
    {
      ghost var s := Refs();
      assert InLimit(s[0]) && (|s| > 1 ==> InLimit(s[1]));
      if IsSmall() {
        if i == 0 {
          word0, word1 := x.offset, x.length;
        } else {
          word2, word3, word4 := x.offset, x.length, x.block;
        }
      } else {
        SetSlot(i, x);
      }
    }

    method SetSlot(i: nat, x: BlockRef)
      requires Decode().Some? && !IsSmall() && i < |Decode().value| && IsTagged(x)
      modifies this, ring
      ensures ring == old(ring) && Decode() == Some(old(Decode().value)[i := x]) && !IsSmall()
    {
      var slot := Slot(i);
      TotalSet(Decode().value, i, x);
      WindowSet(ring[..], word1, word2, i, x);
      word4 := word4 - ring[slot].length + x.length;
      ring[slot] := x;
    }

    method AppendSlot(r: BlockRef)
      requires Decode().Some? && !IsSmall() && word2 != ring.Length && IsRef(r)
      modifies this, ring
      ensures ring == old(ring) && !IsSmall()
      ensures Decode() == if r.offset < OFFSET_LIMIT then Some(old(Decode().value) + [r]) else None
    {
      GrowFacts(ring[..], word1, word2, r);
      var slot := Slot(word2);
      ring[slot] := r;
      word2, word4 := word2 + 1, word4 + r.length;
    }

    /** _push_or_move_back_ref_to_bigview, apart from the counter. */
    method AddToBig(r: BlockRef) returns (merged: bool)
      requires Decode().Some? && !IsSmall() && IsRef(r)
      modifies this, ring
      ensures ring == old(ring) || fresh(ring)
      ensures Decode() == Pushed(old(Decode().value), r) && merged == Merges(old(Decode().value), r)
    {
      var slot := Slot(word2 - 1);
      var back := ring[slot];
      ghost var s := Decode().value;
      assert |s| >= 3 && back == s[|s| - 1];
      if back.block == r.block && back.offset + back.length == r.offset {
        SetSlot(word2 - 1, back.(length := back.length + r.length));
        return true;
      }
      if word2 != ring.Length {
        AppendSlot(r);
      } else {
        GrowRing(r);
      }
      return false;
    }

    /**
     * _push_back_ref and _move_back_ref; the caller adjusts the counter of the block by `merged`. For refs below the
     * limit the queue stays in order.
     */
    method Add(r: BlockRef) returns (merged: bool)
      requires Decode().Some? && IsRef(r)
      modifies this, ring
      ensures ring == old(ring) || fresh(ring)
      ensures Decode() == Pushed(old(Decode().value), r) && merged == Merges(old(Decode().value), r)
      ensures old(Valid()) && InLimit(r) ==> Valid() && Refs() == PushBack(old(Refs()), r)
    {
      ghost var s := Decode().value;
      if Bounded(s) && InLimit(r) {
        InLimitFits(s, r);
      }
      if IsSmall() {
        merged := AddToSmall(r);
      } else {
        merged := AddToBig(r);
      }
    }

    // ---- Accessors ----

    method RefNum() returns (n: nat)
      requires Valid()
      ensures n == |Refs()|
    {
      if IsSmall() {
        n := (if block0 != NULL then 1 else 0) + (if word4 != NULL then 1 else 0);
      } else {
        n := word2;
      }
    }

    method RefAt(i: nat) returns (r: BlockRef)
      requires Valid() && i < |Refs()|
      ensures r == Refs()[i]
    {
      if IsSmall() {
        r := if i == 0 then Ref0() else Ref1();
      } else {
        var slot := Slot(i);
        r := ring[slot];
      }
    }

    method Length() returns (n: nat)
      requires Valid()
      ensures n == Total(Refs())
    {
      if IsSmall() {
        n := (word1 + word3) % UINT32_LIMIT;
        Total2(Ref0(), Ref1());
      } else {
        n := word4;
      }
    }

    // ---- _pop_front_ref, _moveout_front_ref, _pop_back_ref ----

    /** The ring loses its first ref, and falls back to the inline slots when two are left. */
    method DropFrontBig()
      requires Valid() && !IsSmall()
      modifies this
      ensures Valid() && ring == old(ring) && Refs() == old(Refs())[1..]
    {
      ghost var w := Refs();
      WindowTail(ring[..], word1, word2);
      First(map[], w);
      var next := Slot(1);
      if word2 - 1 > 2 {
        word4 := word4 - ring[word1].length;
        word1, word2 := next, word2 - 1;
      } else {
        var last := Slot(2);
        assert ring[next] == w[1] && ring[last] == w[2] && w[1..] == [w[1], w[2]];
        SetSmall(ring[next], ring[last]);
      }
    }

    method PopFront() returns (rc: int)
      requires Valid()
      modifies this
      ensures Valid() && ring == old(ring)
      ensures rc == if old(Refs()) == [] then -1 else 0
      ensures Refs() == if old(Refs()) == [] then [] else old(Refs())[1..]
    {
      if IsSmall() {
        if block0 != NULL {
          SetSmall(Ref1(), NO_REF);
          return 0;
        }
        return -1;
      }
      DropFrontBig();
      return 0;
    }

    /** The ring loses its last ref, and falls back to the inline slots when two are left. */
    method DropBackBig()
      requires Valid() && !IsSmall()
      modifies this
      ensures Valid() && ring == old(ring) && Refs() == old(Refs())[..|old(Refs())| - 1]
    {
      ghost var w := Refs();
      Last(map[], w);
      assert Window(ring[..], word1, word2 - 1) == w[..word2 - 1];
      if word2 - 1 > 2 {
        var back := Slot(word2 - 1);
        word2, word4 := word2 - 1, word4 - ring[back].length;
      } else {
        var next := Slot(1);
        assert ring[word1] == w[0] && ring[next] == w[1] && w[..2] == [w[0], w[1]];
        SetSmall(ring[word1], ring[next]);
      }
    }

    method PopBack() returns (rc: int)
      requires Valid()
      modifies this
      ensures Valid() && ring == old(ring)
      ensures rc == if old(Refs()) == [] then -1 else 0
      ensures Refs() == if old(Refs()) == [] then [] else old(Refs())[..|old(Refs())| - 1]
    {
      ghost var s := Refs();
      if IsSmall() {
        assert |s| > 0 ==> InLimit(s[0]);
        if word4 != NULL {
          word2, word3, word4 := 0, 0, NULL;
          return 0;
        } else if block0 != NULL {
          word0, word1, block0 := 0, 0, NULL;
          return 0;
        }
        return -1;
      }
      DropBackBig();
      return 0;
    }

    // ---- swap and copying ----

    /** The words change places, whichever view they belong to. */
    method Swap(other: RefQueue)
      requires other != this && Valid() && other.Valid()
      modifies this, other
      ensures Valid() && other.Valid() && ring == old(other.ring) && other.ring == old(ring)
      ensures Refs() == old(other.Refs()) && other.Refs() == old(Refs())
    {
      hide Layout;
      word0, other.word0 := other.word0, word0;
      word1, other.word1 := other.word1, word1;
      block0, other.block0 := other.block0, block0;
      ring, other.ring := other.ring, ring;
      word2, other.word2 := other.word2, word2;
      word3, other.word3 := other.word3, word3;
      word4, other.word4 := other.word4, word4;
    }

    /** Whether operator= can reuse the ring. */
    predicate SameRing(other: RefQueue)
      reads this, other
    {
      !IsSmall() && !other.IsSmall() && word3 == other.word3
    }

    /** The refs of another queue in the ring this one has. */
    method Refill(other: RefQueue)
      requires other != this && other.ring != ring && Valid() && other.Valid() && SameRing(other)
      modifies this, ring
      ensures Valid() && Refs() == other.Refs() == old(other.Refs()) && ring == old(ring) && other.Valid()
    {
      ghost var w := other.Refs();
      CopyWindow(other.ring, other.word1, other.word2, ring);
      word1, word2, word4 := 0, other.word2, other.word4;
      assert Window(ring[..], 0, word2) == w;
    }

    /** The layout of a copied IOBuf: the ring of the copy starts at 0. */
    method CopyFrom(other: RefQueue)
      requires other != this && other.Valid()
      modifies this
      ensures Valid() && Refs() == other.Refs() && (ring == old(ring) || fresh(ring))
    {
      if other.IsSmall() {
        SetSmall(other.Ref0(), other.Ref1());
      } else {
        var refs := new BlockRef[other.ring.Length];
        ghost var w := other.Refs();
        CopyWindow(other.ring, other.word1, other.word2, refs);
        word0, word1, ring := 0xFFFF_FFFF, 0, refs;
        word2, word3, word4 := other.word2, other.word3, other.word4;
        assert Window(ring[..], 0, word2) == w;
      }
    }
  }
}
