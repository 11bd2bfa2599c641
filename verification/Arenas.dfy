/** Arena: memory is handed out from a current block; blocks that are left behind are kept to the end. */
module Arenas {

  /** Arena::Block: `alloc` of the `size` bytes from address `base` on are handed out. */
  datatype Block = Block(base: nat, size: nat, alloc: nat)

  /** A piece of memory that was handed out. */
  datatype Region = Region(at: nat, length: nat)

  predicate Apart(a: Block, b: Block) {
    a.base + a.size <= b.base || b.base + b.size <= a.base
  }

  predicate Overlap(a: Region, b: Region) {
    a.at < b.at + b.length && b.at < a.at + a.length && a.length > 0 && b.length > 0
  }

  predicate AllApart(bs: seq<Block>) {
    forall i, j :: 0 <= i < j < |bs| ==> Apart(bs[i], bs[j])
  }

  /** The region lies in the part of a block that is handed out. */
  predicate Within(r: Region, b: Block) {
    b.base <= r.at && r.at + r.length <= b.base + b.alloc
  }

  predicate Covered(r: Region, bs: seq<Block>) {
    exists i :: 0 <= i < |bs| && Within(r, bs[i])
  }

  predicate NoOverlap(rs: seq<Region>) {
    forall i, j :: 0 <= i < j < |rs| ==> !Overlap(rs[i], rs[j])
  }

  /** The address behind all of these blocks. */
  function Top(bs: seq<Block>): (t: nat)
    ensures forall i :: 0 <= i < |bs| ==> bs[i].base + bs[i].size <= t
  {
    if bs == [] then 1
    else
      var t := Top(bs[..|bs| - 1]);
      var e := bs[|bs| - 1].base + bs[|bs| - 1].size;
      if t < e then e else t
  }

  const SIZE_LIMIT := 0x1_0000_0000   // sizes are kept in 32 bits

  ghost predicate AllCovered(rs: seq<Region>, bs: seq<Block>) {
    forall i :: 0 <= i < |rs| ==> Covered(rs[i], bs)
  }

  predicate AllFit(bs: seq<Block>) {
    forall i :: 0 <= i < |bs| ==> bs[i].alloc <= bs[i].size < SIZE_LIMIT
  }

  /** The region lies in the `size` bytes from `base` on. */
  predicate Inside(r: Region, base: nat, size: nat) {
    base <= r.at && r.at + r.length <= base + size
  }

  /** How many of these bytes the first `n` regions have. */
  function Used(rs: seq<Region>, n: nat, base: nat, size: nat): nat
    requires n <= |rs|
  {
    if n == 0 then 0 else Used(rs, n - 1, base, size) + if Inside(rs[n - 1], base, size) then rs[n - 1].length else 0
  }

  /** What counts as handed out is what the regions in the block have. */
  predicate Exact(rs: seq<Region>, b: Block) {
    b.alloc == Used(rs, |rs|, b.base, b.size)
  }

  ghost predicate AllExact(rs: seq<Region>, bs: seq<Block>) {
    forall i :: 0 <= i < |bs| ==> Exact(rs, bs[i])
  }

  lemma {:induction false} UsedSame(rs: seq<Region>, r: Region, n: nat, base: nat, size: nat)
    requires n <= |rs|
    ensures Used(rs + [r], n, base, size) == Used(rs, n, base, size)
  {
    if n > 0 {
      UsedSame(rs, r, n - 1, base, size);
    }
  }

  /** One more region is used in the block it lies in, and in no block apart from that. */
  lemma UsedMore(rs: seq<Region>, r: Region, b: Block)
    ensures Used(rs + [r], |rs| + 1, b.base, b.size)
      == Used(rs, |rs|, b.base, b.size) + if Inside(r, b.base, b.size) then r.length else 0
  {
    UsedSame(rs, r, |rs|, b.base, b.size);
  }

  /** Nothing is used of a block apart from all those that the regions lie in. */
  lemma {:induction false} UsedNone(bs: seq<Block>, rs: seq<Region>, n: nat, b: Block)
    requires AllCovered(rs, bs) && AllFit(bs) && n <= |rs| && forall i :: 0 <= i < |bs| ==> Apart(b, bs[i])
    ensures Used(rs, n, b.base, b.size) == 0
  {
    if n > 0 {
      UsedNone(bs, rs, n - 1, b);
      assert Covered(rs[n - 1], bs);
      var l :| 0 <= l < |bs| && Within(rs[n - 1], bs[l]);
    }
  }

  /** Less than a quarter of the block is unused. */
  predicate LittleWaste(b: Block) {
    4 * (b.size - b.alloc) < b.size
  }

  ghost predicate Broken(bs: seq<Block>, rs: seq<Region>) {
    !AllApart(bs) || !AllFit(bs) || !AllCovered(rs, bs) || !NoOverlap(rs) || !AllExact(rs, bs)
  }

  /** The blocks are apart, the regions lie in them and are disjoint, and each block counts what the regions take. */
  ghost predicate Sound(bs: seq<Block>, rs: seq<Region>) {
    !Broken(bs, rs)
  }

  /** The next bytes of a block are handed out. */
  lemma GrowSound(bs: seq<Block>, rs: seq<Region>, k: nat, n: nat)
    requires Sound(bs, rs) && k < |bs| && bs[k].alloc + n <= bs[k].size
    ensures Sound(bs[k := bs[k].(alloc := bs[k].alloc + n)], rs + [Region(bs[k].base + bs[k].alloc, n)])
  {
    hide AllExact;
    var r, bs' := Region(bs[k].base + bs[k].alloc, n), bs[k := bs[k].(alloc := bs[k].alloc + n)];
    forall i | 0 <= i < |rs|
      ensures !Overlap(rs[i], r) && Covered(rs[i], bs')
    {
      assert Covered(rs[i], bs);
      var l :| 0 <= l < |bs| && Within(rs[i], bs[l]);
      assert Within(rs[i], bs'[l]);
      assert l < k ==> Apart(bs[l], bs[k]);
      assert k < l ==> Apart(bs[k], bs[l]);
    }
    assert Within(r, bs'[k]);
    GrowExact(bs, rs, k, n);
  }

  lemma GrowExact(bs: seq<Block>, rs: seq<Region>, k: nat, n: nat)
    requires AllApart(bs) && AllFit(bs) && AllExact(rs, bs) && k < |bs| && bs[k].alloc + n <= bs[k].size
    ensures AllExact(rs + [Region(bs[k].base + bs[k].alloc, n)], bs[k := bs[k].(alloc := bs[k].alloc + n)])
  {
    hide Used;
    var r, bs' := Region(bs[k].base + bs[k].alloc, n), bs[k := bs[k].(alloc := bs[k].alloc + n)];
    forall i | 0 <= i < |bs'|
      ensures Exact(rs + [r], bs'[i])
    {
      assert Exact(rs, bs[i]);
      UsedMore(rs, r, bs'[i]);
      assert i < k ==> Apart(bs[i], bs[k]);
      assert k < i ==> Apart(bs[k], bs[i]);
    }
  }

  /** A new block in front, with nothing handed out. */
  lemma NewSound(bs: seq<Block>, rs: seq<Region>, b: Block)
    requires Sound(bs, rs) && b.alloc == 0 && b.size < SIZE_LIMIT && forall i :: 0 <= i < |bs| ==> Apart(b, bs[i])
    ensures Sound([b] + bs, rs)
  {
    hide AllExact;
    forall i | 0 <= i < |rs|
      ensures Covered(rs[i], [b] + bs)
    {
      assert Covered(rs[i], bs);
      var l :| 0 <= l < |bs| && Within(rs[i], bs[l]);
      assert ([b] + bs)[l + 1] == bs[l];
    }
    UsedNone(bs, rs, |rs|, b);
    ExactOne(rs, b);
    ExactJoin(rs, [b], bs);
  }

  lemma ExactJoin(rs: seq<Region>, a: seq<Block>, b: seq<Block>)
    ensures AllExact(rs, a + b) <==> AllExact(rs, a) && AllExact(rs, b)
  {
    hide Exact;
    if AllExact(rs, a + b) {
      forall i | 0 <= i < |a|
        ensures Exact(rs, a[i])
      {
        assert a[i] == (a + b)[i];
      }
      forall i | 0 <= i < |b|
        ensures Exact(rs, b[i])
      {
        assert b[i] == (a + b)[|a| + i];
      }
    }
  }

  lemma ExactOne(rs: seq<Region>, b: Block)
    ensures AllExact(rs, [b]) <==> Exact(rs, b)
  {
    assert [b][0] == b;
  }

  /** A new block in front, with its first `n` bytes handed out. */
  lemma FilledSound(bs: seq<Block>, rs: seq<Region>, base: nat, size: nat, n: nat)
    requires Sound(bs, rs) && n <= size < SIZE_LIMIT && forall i :: 0 <= i < |bs| ==> Apart(Block(base, size, 0), bs[i])
    ensures Sound([Block(base, size, n)] + bs, rs + [Region(base, n)])
  {
    hide Sound;
    var b := Block(base, size, 0);
    NewSound(bs, rs, b);
    GrowSound([b] + bs, rs, 0, n);
    assert ([b] + bs)[0 := Block(base, size, n)] == [Block(base, size, n)] + bs;
  }

  lemma SecondSound(b: Block, cur: seq<Block>, bs: seq<Block>, rs: seq<Region>)
    requires |cur| <= 1 && Sound([b] + (cur + bs), rs)
    ensures Sound(cur + ([b] + bs), rs)
  {
    hide Sound;
    if |cur| == 1 {
      assert [b] + (cur + bs) == [b, cur[0]] + bs;
      assert cur + ([b] + bs) == [cur[0], b] + bs;
      SwapSound(b, cur[0], bs, rs);
    } else {
      assert cur + ([b] + bs) == [b] + (cur + bs);
    }
  }

  /** What is left of a block that is retired is less than what was asked for. */
  lemma RetiredWaste(b: Block, blockSize: nat, n: nat)
    requires b.size - b.alloc < n <= blockSize / 4 && blockSize <= b.size
    ensures LittleWaste(b)
  {
  }

  lemma SwapExact(a: Block, b: Block, bs: seq<Block>, rs: seq<Region>)
    requires AllExact(rs, [a, b] + bs)
    ensures AllExact(rs, [b, a] + bs)
  {
    hide AllExact;
    ExactJoin(rs, [a, b], bs);
    assert [a, b] == [a] + [b] && [b, a] == [b] + [a];
    ExactJoin(rs, [a], [b]);
    ExactJoin(rs, [b], [a]);
    ExactJoin(rs, [b, a], bs);
  }

  /** The order of the blocks does not matter: the first two change places. */
  lemma SwapSound(a: Block, b: Block, bs: seq<Block>, rs: seq<Region>)
    requires Sound([a, b] + bs, rs)
    ensures Sound([b, a] + bs, rs)
  {
    hide AllExact;
    var x, y := [a, b] + bs, [b, a] + bs;
    forall i | 0 <= i < |rs|
      ensures Covered(rs[i], y)
    {
      assert Covered(rs[i], x);
      var l :| 0 <= l < |x| && Within(rs[i], x[l]);
      assert x[l] == y[if l == 0 then 1 else if l == 1 then 0 else l];
    }
    assert Apart(x[0], x[1]);
    forall i, j | 0 <= i < j < |y|
      ensures Apart(y[i], y[j])
    {
      if i > 0 || j > 1 {
        assert Apart(x[if i == 0 then 1 else if i == 1 then 0 else i], x[j]);
      }
    }
    forall i | 0 <= i < |y|
      ensures y[i].alloc <= y[i].size < SIZE_LIMIT
    {
      assert x[0].alloc <= x[0].size && x[1].alloc <= x[1].size && x[i].alloc <= x[i].size;
    }
    SwapExact(a, b, bs, rs);
  }

  function TotalSize(bs: seq<Block>): nat {
    if bs == [] then 0 else bs[0].size + TotalSize(bs[1..])
  }

  /** What the regions leave of these blocks. */
  function TotalUnused(rs: seq<Region>, bs: seq<Block>): int {
    if bs == [] then 0 else bs[0].size - Used(rs, |rs|, bs[0].base, bs[0].size) + TotalUnused(rs, bs[1..])
  }

  /** At most a quarter of the space of the blocks left behind is wasted. */
  lemma {:induction false} WasteBound(rs: seq<Region>, bs: seq<Block>)
    requires forall i :: 0 <= i < |bs| ==> Exact(rs, bs[i]) && LittleWaste(bs[i])
    ensures 4 * TotalUnused(rs, bs) <= TotalSize(bs)
  {
    if bs != [] {
      assert Exact(rs, bs[0]) && LittleWaste(bs[0]);
      WasteBound(rs, bs[1..]);
    }
  }

  /**
   * A region of more than a quarter of the block size gets a block of its own. For any other the current block is
   * retired, the block size doubles up to its maximum, and the region begins a new block of that size.
   */
  predicate Opened(cur: seq<Block>, isolated: seq<Block>, size: nat, max: nat, n: nat, p: nat,
    cur': seq<Block>, isolated': seq<Block>, size': nat)
  {
    if n > size / 4 then cur' == cur && isolated' == [Block(p, n, n)] + isolated && size' == size
    else
      && size' == (if |cur| == 0 then size else if 2 * size < max then 2 * size else max)
      && cur' == [Block(p, if size' < n then n else size', n)] && isolated' == cur + isolated
  }

  class Arena {
    var cur: seq<Block>            // _cur_block: no block or one
    var isolated: seq<Block>       // _isolated_blocks
    var blockSize: nat
    const maxBlockSize: nat
    ghost var regions: seq<Region> // all that was returned

    ghost predicate Valid()
      reads this
    {
      && |cur| <= 1 && Sound(cur + isolated, regions) && blockSize < SIZE_LIMIT && maxBlockSize < SIZE_LIMIT
      && (|cur| == 1 ==> blockSize <= cur[0].size)
      && (forall i :: 0 <= i < |isolated| ==> LittleWaste(isolated[i]))
    }

    constructor (initialBlockSize: nat, maxBlockSize: nat)
      requires initialBlockSize < SIZE_LIMIT && maxBlockSize < SIZE_LIMIT
      ensures Valid() && regions == [] && cur == isolated == []
      ensures blockSize == initialBlockSize && this.maxBlockSize == maxBlockSize
    {
      cur, isolated, blockSize, regions := [], [], initialBlockSize, [];
      this.maxBlockSize := maxBlockSize;
    }

    /** malloc: any memory that is not in use. */
    method Malloc(size: nat) returns (base: nat)
      ensures forall i :: 0 <= i < |cur + isolated| ==> Apart(Block(base, size, 0), (cur + isolated)[i])
    {
      base := *;
      if exists i :: 0 <= i < |cur + isolated| && !Apart(Block(base, size, 0), (cur + isolated)[i]) {
        base := Top(cur + isolated);
      }
    }

    method Allocate(n: nat) returns (p: nat)
      requires Valid() && n < SIZE_LIMIT
      modifies this
      ensures Valid() && regions == old(regions) + [Region(p, n)]
      ensures |old(cur)| == 1 && old(cur[0].size - cur[0].alloc) >= n ==>
                && p == old(cur[0].base + cur[0].alloc) && cur == [old(cur[0]).(alloc := old(cur[0].alloc) + n)]
                && isolated == old(isolated) && blockSize == old(blockSize)
      ensures !(|old(cur)| == 1 && old(cur[0].size - cur[0].alloc) >= n) ==>
                Opened(old(cur), old(isolated), old(blockSize), maxBlockSize, n, p, cur, isolated, blockSize)
    {
      hide Sound;
      if |cur| == 1 && cur[0].size - cur[0].alloc >= n {
        assert (cur + isolated)[0] == cur[0];
        GrowSound(cur + isolated, regions, 0, n);
        p := cur[0].base + cur[0].alloc;
        ghost var bs := (cur + isolated)[0 := cur[0].(alloc := cur[0].alloc + n)];
        cur := [cur[0].(alloc := cur[0].alloc + n)];
        regions := regions + [Region(p, n)];
        assert cur + isolated == bs;
        return;
      }
      p := AllocateInOtherBlocks(n);
    }

    /** An outlier gets a block of its own. */
    method AllocateNewBlock(n: nat) returns (p: nat)
      requires Valid() && 0 < n < SIZE_LIMIT
      modifies this`isolated, this`regions
      ensures Valid() && regions == old(regions) + [Region(p, n)]
      ensures isolated == [Block(p, n, n)] + old(isolated)
    {
      hide Sound;
      var base := Malloc(n);
      FilledSound(cur + isolated, regions, base, n, n);
      SecondSound(Block(base, n, n), cur, isolated, regions + [Region(base, n)]);
      isolated := [Block(base, n, n)] + isolated;
      regions := regions + [Region(base, n)];
      p := base;
    }

    method AllocateInOtherBlocks(n: nat) returns (p: nat)
      requires Valid() && n < SIZE_LIMIT && (|cur| == 1 ==> cur[0].size - cur[0].alloc < n)
      modifies this
      ensures Valid() && regions == old(regions) + [Region(p, n)]
      ensures Opened(old(cur), old(isolated), old(blockSize), maxBlockSize, n, p, cur, isolated, blockSize)
    {
      hide Sound, LittleWaste;
      if n > blockSize / 4 {
        p := AllocateNewBlock(n);
        return;
      }
      if |cur| == 1 {
        RetiredWaste(cur[0], blockSize, n);
        blockSize := if 2 * blockSize < maxBlockSize then 2 * blockSize else maxBlockSize;
      }
      var newSize := if blockSize < n then n else blockSize;
      p := Malloc(newSize);
      FilledSound(cur + isolated, regions, p, newSize, n);
      isolated := cur + isolated;
      cur := [Block(p, newSize, n)];
      regions := regions + [Region(p, n)];
    }
  }

  /**
   * All regions ever returned are disjoint and lie in the blocks, and of each block that was left behind the regions
   * in it leave less than a quarter.
   */
  lemma ArenaSound(a: Arena)
    requires a.Valid()
    ensures forall i, j :: 0 <= i < j < |a.regions| ==> !Overlap(a.regions[i], a.regions[j])
    ensures forall i :: 0 <= i < |a.regions| ==> Covered(a.regions[i], a.cur + a.isolated)
    ensures forall i :: 0 <= i < |a.isolated| ==>
      var b := a.isolated[i]; 4 * (b.size - Used(a.regions, |a.regions|, b.base, b.size)) < b.size
    ensures 4 * TotalUnused(a.regions, a.isolated) <= TotalSize(a.isolated)
  {
    forall i | 0 <= i < |a.isolated|
      ensures Exact(a.regions, a.isolated[i]) && LittleWaste(a.isolated[i])
    {
      assert a.isolated[i] == (a.cur + a.isolated)[|a.cur| + i];
    }
    WasteBound(a.regions, a.isolated);
  }
}
